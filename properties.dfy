/** What the state machine promises: one group of lemmas per button, the
    operator/accumulator invariant, digit entry against a reference text, the
    single-decimal-point invariant and a few worked key sequences. */
module Properties {
  import opened Numbers
  import opened Buttons
  import opened Machine

  // ---------------------------------------------------------------------
  // The keypad and the dispatcher
  // ---------------------------------------------------------------------

  /** The labels of the keypad, listed out. */
  lemma KeypadLabels(btn: string)
    ensures OnKeypad(btn) <==>
      btn in {"AC", "±", "%", "÷", "7", "8", "9", "×", "4", "5", "6", "−",
              "1", "2", "3", "+", "0", ".", "="}
  {
    if btn in {"AC", "±", "%", "÷"} { assert Layout[0] in Layout; }
    if btn in {"7", "8", "9", "×"} { assert Layout[1] in Layout; }
    if btn in {"4", "5", "6", "−"} { assert Layout[2] in Layout; }
    if btn in {"1", "2", "3", "+"} { assert Layout[3] in Layout; }
    if btn in {"0", ".", "="} { assert Layout[4] in Layout; }
  }

  /** Every keypad label takes a branch of the dispatcher, and the digit
      branch is taken exactly by the ten one-digit labels. */
  lemma KeypadDispatch(btn: string)
    requires OnKeypad(btn)
    ensures Classify(btn) != NoKey
    ensures Classify(btn) == DigitKey <==> |btn| == 1 && IsDigitChar(btn[0])
  {
  }

  /** The four operator keys map to four different operators. */
  lemma OperatorMapInjective(a: string, b: string)
    requires a in OperatorMap && b in OperatorMap && a != b
    ensures OperatorMap[a] != OperatorMap[b]
  {
  }

  /** A one-character digit label takes the digit branch. */
  lemma DigitLabel(c: char)
    requires IsDigitChar(c)
    ensures HasDigit([c])
  {
    assert [c][0] == c;
  }

  /** A label outside every branch leaves the whole state alone. */
  lemma UnknownButtonIgnored(num: Numerics, s: State, btn: string)
    requires !HasDigit(btn) && btn !in OperatorMap
    requires btn !in {".", "AC", "±", "%", "="}
    ensures Press(num, s, btn) == s
  {
  }

  // ---------------------------------------------------------------------
  // One lemma per button
  // ---------------------------------------------------------------------

  /** A digit label starts a new operand when one is awaited, replaces a lone
      "0", and is appended otherwise; nothing but the display and the
      waiting flag changes. */
  lemma DigitPress(num: Numerics, s: State, btn: string)
    requires HasDigit(btn)
    ensures var r := Press(num, s, btn);
      && r.operator == s.operator && r.value == s.value && !r.waiting
      && (s.waiting ==> r.display == btn)
      && (!s.waiting && s.display == "0" ==> r.display == btn)
      && (!s.waiting && s.display != "0" ==> r.display == s.display + btn)
  {
  }

  /** The decimal point: "0." when an operand is awaited, otherwise appended
      only to a display that has none. */
  lemma DotPress(num: Numerics, s: State)
    ensures var r := Press(num, s, ".");
      && r.operator == s.operator && r.value == s.value && !r.waiting
      && '.' in r.display
      && (s.waiting ==> r.display == "0.")
      && (!s.waiting && '.' in s.display ==> r == s)
      && (!s.waiting && '.' !in s.display ==> r.display == s.display + ".")
  {
  }

  /** A second decimal point does nothing. */
  lemma DotIdempotent(num: Numerics, s: State)
    ensures Press(num, Press(num, s, "."), ".") == Press(num, s, ".")
  {
  }

  /** `AC` from any state gives the state at mount. */
  lemma ClearPress(num: Numerics, s: State)
    ensures Press(num, s, "AC") == Initial
  {
  }

  /** The sign key rewrites the display only. */
  lemma SignPress(num: Numerics, s: State)
    ensures Press(num, s, "±") == s.(display := Negated(s.display))
  {
  }

  /** Negated removes a leading minus sign if there is one, and adds one
      otherwise. */
  lemma NegatedStripsOrPrepends(d: string)
    ensures |d| > 0 && d[0] == '-' ==> "-" + Negated(d) == d
    ensures !(|d| > 0 && d[0] == '-') ==> Negated(d) == "-" + d
  {
  }

  /** Two sign presses restore the display exactly when it does not begin
      with two minus signs. */
  lemma NegatedTwice(d: string)
    ensures Negated(Negated(d)) == d <==> !(|d| >= 2 && d[..2] == "--")
  {
  }

  /** The percent key changes the display only, and not at all when the
      display does not parse as a number. */
  lemma PercentPress(num: Numerics, s: State)
    ensures var r := Press(num, s, "%");
      && r.operator == s.operator && r.value == s.value && r.waiting == s.waiting
      && (num.parse(s.display) == NaN ==> r == s)
      && (num.parse(s.display) != NaN ==>
            r.display == num.show(num.div(num.parse(s.display), Hundred)))
  {
  }

  /** The combine rule by cases; a zero right operand of a division gives
      NaN, whatever the left operand. */
  lemma CombineCases(num: Numerics, op: Op, a: Num, b: Num)
    ensures op == Plus ==> Combine(num, op, a, b) == num.add(a, b)
    ensures op == Minus ==> Combine(num, op, a, b) == num.sub(a, b)
    ensures op == Times ==> Combine(num, op, a, b) == num.mul(a, b)
    ensures op == Divide && !IsZero(b) ==> Combine(num, op, a, b) == num.div(a, b)
    ensures op == Divide && IsZero(b) ==> Combine(num, op, a, b) == NaN
  {
  }

  /** An operator key: the first one stores the display's value, a later one
      combines the accumulator with the display under the operator pending
      before the press; either way the new operator becomes pending and an
      operand is awaited. */
  lemma OperatorPress(num: Numerics, s: State, btn: string)
    requires btn in OperatorMap
    ensures var r := Press(num, s, btn);
      var input := num.parse(s.display);
      && r.operator == Some(OperatorMap[btn]) && r.waiting
      && (s.value.None? ==> r.value == Some(input) && r.display == s.display)
      && (s.value.Some? && s.operator.Some? ==>
            var result := Combine(num, s.operator.value, s.value.value, input);
            r.value == Some(result) && r.display == FormatResult(num, num.show(result)))
      && (s.value.Some? && s.operator.None? ==> r.value == s.value && r.display == s.display)
  {
  }

  /** `=` with nothing pending does nothing; with an operator pending it shows
      the combined result and drops both the operator and the accumulator. */
  lemma EqualsPress(num: Numerics, s: State)
    ensures var r := Press(num, s, "=");
      && (s.operator.None? ==> r == s)
      && (s.operator.Some? ==> r.operator.None? && r.value.None? && r.waiting)
      && (s.operator.Some? && s.value.Some? ==>
            var result := Combine(num, s.operator.value, s.value.value, num.parse(s.display));
            r.display == FormatResult(num, num.show(result)))
      && (s.operator.Some? && s.value.None? ==> r.display == s.display)
  {
  }

  /** `=` cannot be repeated: a second press right after one does nothing. */
  lemma EqualsNotRepeatable(num: Numerics, s: State)
    ensures Press(num, Press(num, s, "="), "=") == Press(num, s, "=")
  {
  }

  // ---------------------------------------------------------------------
  // The operator/accumulator invariant
  // ---------------------------------------------------------------------

  lemma InitialConsistent()
    ensures Consistent(Initial)
  {
  }

  lemma {:induction false} RunKeepsConsistent(num: Numerics, s: State, btns: seq<string>)
    requires Consistent(s)
    ensures Consistent(Run(num, s, btns))
    decreases |btns|
  {
    if btns != [] {
      RunKeepsConsistent(num, s, btns[..|btns| - 1]);
    }
  }

  /** Every state the widget can reach from mount is consistent. */
  lemma ReachableConsistent(num: Numerics, btns: seq<string>)
    ensures Consistent(Run(num, Initial, btns))
  {
    RunKeepsConsistent(num, Initial, btns);
  }

  lemma {:induction false} RunAppend(num: Numerics, s: State, a: seq<string>, b: seq<string>)
    ensures Run(num, s, a + b) == Run(num, Run(num, s, a), b)
    decreases |b|
  {
    if b == [] {
      assert a + b == a;
    } else {
      assert (a + b)[..|a + b| - 1] == a + b[..|b| - 1];
      RunAppend(num, s, a, b[..|b| - 1]);
    }
  }

  /** One more click after a sequence of clicks. */
  lemma RunSnoc(num: Numerics, s: State, btns: seq<string>, btn: string)
    ensures Run(num, s, btns + [btn]) == Press(num, Run(num, s, btns), btn)
  {
  }

  // ---------------------------------------------------------------------
  // Digit entry against a reference text
  // ---------------------------------------------------------------------

  /** The text with its leading zero digits removed. */
  function StripZeros(cs: string): (t: string)
    ensures t == [] || t[0] != '0'
    decreases |cs|
  {
    if |cs| > 0 && cs[0] == '0' then StripZeros(cs[1..]) else cs
  }

  /** What typing the digits `cs` into a fresh operand shows: the digits with
      leading zeros collapsed, or "0" if nothing else is left. */
  function Canonical(cs: string): string {
    var t := StripZeros(cs);
    if t == [] then "0" else t
  }

  /** The one-character labels for the digits `cs`. */
  function DigitButtons(cs: string): (bs: seq<string>)
    ensures |bs| == |cs|
  {
    seq(|cs|, i requires 0 <= i < |cs| => [cs[i]])
  }

  predicate AllDigits(cs: string) {
    forall i :: 0 <= i < |cs| ==> IsDigitChar(cs[i])
  }

  lemma {:induction false} StripZerosAppend(cs: string, c: char)
    ensures StripZeros(cs + [c]) ==
      if StripZeros(cs) == [] then StripZeros([c]) else StripZeros(cs) + [c]
    decreases |cs|
  {
    if |cs| > 0 && cs[0] == '0' {
      assert (cs + [c])[1..] == cs[1..] + [c];
      StripZerosAppend(cs[1..], c);
    } else if cs == [] {
      assert cs + [c] == [c];
    }
  }

  /** Typing digits into an awaited operand, or onto a display of "0", shows
      their canonical text and touches neither operator nor accumulator. */
  lemma {:induction false} DigitRun(num: Numerics, s: State, cs: string)
    requires AllDigits(cs)
    requires (s.waiting && |cs| > 0) || (!s.waiting && s.display == "0")
    ensures var r := Run(num, s, DigitButtons(cs));
      && r.display == Canonical(cs) && !r.waiting
      && r.operator == s.operator && r.value == s.value
    decreases |cs|
  {
    var bs := DigitButtons(cs);
    if cs != [] {
      var n := |cs| - 1;
      var c := cs[n];
      assert bs[..n] == DigitButtons(cs[..n]);
      assert bs[n] == [c];
      DigitLabel(c);
      assert cs[..n] + [c] == cs;
      StripZerosAppend(cs[..n], c);
      if n == 0 {
        assert bs[..n] == [];
      } else {
        DigitRun(num, s, cs[..n]);
      }
    }
  }

  /** `AC` followed by digits shows the digits typed, leading zeros
      collapsed. */
  lemma ClearThenDigits(num: Numerics, s: State, cs: string)
    requires AllDigits(cs)
    ensures Run(num, s, ["AC"] + DigitButtons(cs)).display == Canonical(cs)
  {
    RunAppend(num, s, ["AC"], DigitButtons(cs));
    assert ["AC"][..0] == [];
    DigitRun(num, Initial, cs);
  }

  // ---------------------------------------------------------------------
  // At most one decimal point
  // ---------------------------------------------------------------------

  function DotCount(s: string): nat
    decreases |s|
  {
    if s == [] then 0 else (if s[0] == '.' then 1 else 0) + DotCount(s[1..])
  }

  lemma {:induction false} DotCountAppend(a: string, b: string)
    ensures DotCount(a + b) == DotCount(a) + DotCount(b)
    decreases |a|
  {
    if a == [] {
      assert a + b == b;
    } else {
      assert (a + b)[1..] == a[1..] + b;
      DotCountAppend(a[1..], b);
    }
  }

  lemma {:induction false} NoDotCount(s: string)
    ensures '.' !in s <==> DotCount(s) == 0
    decreases |s|
  {
    if s != [] {
      NoDotCount(s[1..]);
      assert s == [s[0]] + s[1..];
    }
  }

  /** Number-to-text conversions that, like JavaScript's, never write
      more than one decimal point. */
  ghost predicate SingleDotNumerics(num: Numerics) {
    forall x :: DotCount(num.show(x)) <= 1 && DotCount(num.toExponential(x)) <= 1
  }

  /** No keypad label introduces a second decimal point. */
  lemma PressKeepsSingleDot(num: Numerics, s: State, btn: string)
    requires SingleDotNumerics(num)
    requires OnKeypad(btn)
    requires DotCount(s.display) <= 1
    ensures DotCount(Press(num, s, btn).display) <= 1
  {
    KeypadDispatch(btn);
    var r := Press(num, s, btn);
    match Classify(btn)
    case DigitKey =>
      assert DotCount(btn) == 0 by { NoDotCount(btn); }
      DotCountAppend(s.display, btn);
    case DotKey =>
      if !s.waiting && '.' !in s.display {
        NoDotCount(s.display);
        DotCountAppend(s.display, ".");
      }
    case SignKey =>
      if !(|s.display| > 0 && s.display[0] == '-') {
        DotCountAppend("-", s.display);
      }
    case _ =>
  }

  lemma {:induction false} RunKeepsSingleDot(num: Numerics, s: State, btns: seq<string>)
    requires SingleDotNumerics(num)
    requires forall i :: 0 <= i < |btns| ==> OnKeypad(btns[i])
    requires DotCount(s.display) <= 1
    ensures DotCount(Run(num, s, btns).display) <= 1
    decreases |btns|
  {
    if btns != [] {
      var n := |btns| - 1;
      RunKeepsSingleDot(num, s, btns[..n]);
      PressKeepsSingleDot(num, Run(num, s, btns[..n]), btns[n]);
    }
  }

  // ---------------------------------------------------------------------
  // Worked key sequences
  // ---------------------------------------------------------------------

  lemma TypedDigits(num: Numerics, s: State)
    ensures Run(num, s, ["AC", "1", "2", "3"]).display == "123"
  {
    ClearThenDigits(num, s, "123");
    assert DigitButtons("123") == ["1", "2", "3"];
    assert ["AC"] + ["1", "2", "3"] == ["AC", "1", "2", "3"];
  }

  /** "1 . . 2" shows "1.2": the second point is ignored. */
  lemma SecondDotIgnored(num: Numerics)
    ensures Run(num, Initial, ["1", ".", ".", "2"]).display == "1.2"
  {
    DigitLabel('1'); DigitLabel('2');
    RunSnoc(num, Initial, [], "1");
    RunSnoc(num, Initial, ["1"], ".");
    RunSnoc(num, Initial, ["1", "."], ".");
    RunSnoc(num, Initial, ["1", ".", "."], "2");
    var s2 := Run(num, Initial, ["1", "."]);
    assert s2.display == "1." && !s2.waiting;
    assert "1."[1] == '.';
    assert Run(num, Initial, ["1", ".", "."]) == s2;
    assert ["1", ".", "."] + ["2"] == ["1", ".", ".", "2"];
    DigitPress(num, s2, "2");
    assert "1." + "2" == "1.2";
  }

  /** "2 + 3 × 4 =" applies the operators left to right, without precedence. */
  lemma LeftToRight(num: Numerics)
    ensures var p := num.parse;
      Run(num, Initial, ["2", "+", "3", "×", "4", "="]).display ==
        FormatResult(num, num.show(num.mul(num.add(p("2"), p("3")), p("4"))))
  {
    var p := num.parse;
    var sum := num.add(p("2"), p("3"));
    DigitLabel('2'); DigitLabel('3'); DigitLabel('4');
    RunSnoc(num, Initial, [], "2");
    assert Run(num, Initial, ["2"]) == State("2", None, None, false);
    RunSnoc(num, Initial, ["2"], "+");
    OperatorPress(num, State("2", None, None, false), "+");
    assert Run(num, Initial, ["2", "+"]) == State("2", Some(Plus), Some(p("2")), true);
    RunSnoc(num, Initial, ["2", "+"], "3");
    DigitPress(num, State("2", Some(Plus), Some(p("2")), true), "3");
    assert Run(num, Initial, ["2", "+", "3"]) == State("3", Some(Plus), Some(p("2")), false);
    RunSnoc(num, Initial, ["2", "+", "3"], "×");
    assert ["2", "+", "3"] + ["×"] == ["2", "+", "3", "×"];
    OperatorPress(num, State("3", Some(Plus), Some(p("2")), false), "×");
    assert OperatorMap["×"] == Times;
    assert Combine(num, Plus, p("2"), p("3")) == sum;
    var s4 := State(FormatResult(num, num.show(sum)), Some(Times), Some(sum), true);
    assert Run(num, Initial, ["2", "+", "3", "×"]) == s4;
    RunSnoc(num, Initial, ["2", "+", "3", "×"], "4");
    assert ["2", "+", "3", "×"] + ["4"] == ["2", "+", "3", "×", "4"];
    DigitPress(num, s4, "4");
    assert Run(num, Initial, ["2", "+", "3", "×", "4"]) == State("4", Some(Times), Some(sum), false);
    RunSnoc(num, Initial, ["2", "+", "3", "×", "4"], "=");
    assert ["2", "+", "3", "×", "4"] + ["="] == ["2", "+", "3", "×", "4", "="];
    EqualsPress(num, State("4", Some(Times), Some(sum), false));
  }

  /** "5 + +" combines 5 with itself: an operator key does not look at
      whether an operand is awaited. */
  lemma RepeatedOperator(num: Numerics)
    ensures Run(num, Initial, ["5", "+", "+"]).value ==
      Some(num.add(num.parse("5"), num.parse("5")))
  {
    DigitLabel('5');
    RunSnoc(num, Initial, [], "5");
    RunSnoc(num, Initial, ["5"], "+");
    RunSnoc(num, Initial, ["5", "+"], "+");
    assert ["5"] + ["+"] == ["5", "+"];
    assert ["5", "+"] + ["+"] == ["5", "+", "+"];
    OperatorPress(num, Run(num, Initial, ["5"]), "+");
    OperatorPress(num, Run(num, Initial, ["5", "+"]), "+");
  }

  /** "6 ÷ 0 =" shows the text of NaN; nothing is thrown. */
  lemma DivideByZeroShowsNaN(num: Numerics)
    requires IsZero(num.parse("0"))
    ensures Run(num, Initial, ["6", "÷", "0", "="]).display ==
      FormatResult(num, num.show(NaN))
  {
  }

  /** "±" on the initial display gives "-0", and a digit is then appended
      rather than replacing it. */
  lemma NegativeZeroKeepsZero(num: Numerics)
    ensures Run(num, Initial, ["±", "5"]).display == "-05"
  {
  }
}
