/** The calculator's input state machine as pure transitions: one function per
    button handler of the widget, each mapping the state before a press to the
    state after it. */
module Machine {
  import opened Numbers
  import opened Buttons

  datatype Option<T> = None | Some(value: T)

  /** The widget's four state variables. */
  datatype State = State(
    display: string,        // the text shown
    operator: Option<Op>,   // the pending operator
    value: Option<Num>,     // the accumulator
    waiting: bool           // the next digit starts a new operand
  )

  /** The state at mount. */
  const Initial: State := State("0", None, None, false)

  /** The pending operator is set exactly when the accumulator is. */
  predicate Consistent(s: State) {
    s.operator.None? <==> s.value.None?
  }

  /** A result's text, switched to six-digit exponential notation when it is
      longer than twelve characters. */
  function FormatResult(num: Numerics, result: string): (r: string)
    ensures |result| <= 12 ==> r == result
    ensures |result| > 12 ==> r == num.toExponential(num.parse(result))
  {
    if |result| > 12 then num.toExponential(num.parse(result)) else result
  }

  /** The combine rule of a pending operator: division by zero is NaN. */
  function Combine(num: Numerics, op: Op, left: Num, right: Num): (r: Num)
    ensures op == Divide && IsZero(right) ==> r == NaN
  {
    match op
    case Plus => num.add(left, right)
    case Minus => num.sub(left, right)
    case Times => num.mul(left, right)
    case Divide => if IsZero(right) then NaN else num.div(left, right)
  }

  /** A digit key: only the display and the waiting flag change, and the
      display ends with the digit. */
  function InputDigit(s: State, digit: string): (r: State)
    ensures r.operator == s.operator && r.value == s.value && !r.waiting
  {
    if s.waiting then s.(display := digit, waiting := false)
    else s.(display := if s.display == "0" then digit else s.display + digit)
  }

  /** The decimal point: only the display and the waiting flag change, and
      the display then holds a point. */
  function InputDot(s: State): (r: State)
    ensures r.operator == s.operator && r.value == s.value && !r.waiting
    ensures '.' in r.display
  {
    if s.waiting then s.(display := "0.", waiting := false)
    else if '.' !in s.display then s.(display := s.display + ".")
    else s
  }

  /** `AC`: back to the state at mount, whatever came before. */
  function ClearAll(s: State): (r: State)
    ensures r == Initial && Consistent(r)
  {
    s.(display := "0", operator := None, value := None, waiting := false)
  }

  /** The sign key's rewrite of the display text. */
  function Negated(display: string): (r: string)
    ensures r != display
  {
    if |display| > 0 && display[0] == '-' then display[1..] else "-" + display
  }

  /** The sign key: the display always changes, nothing else does. */
  function ToggleSign(s: State): (r: State)
    ensures r.operator == s.operator && r.value == s.value && r.waiting == s.waiting
    ensures r.display != s.display
  {
    s.(display := Negated(s.display))
  }

  /** The percent key: only the display may change, and it does not when
      the display parses as NaN. */
  function InputPercent(num: Numerics, s: State): (r: State)
    ensures r.operator == s.operator && r.value == s.value && r.waiting == s.waiting
    ensures num.parse(s.display) == NaN ==> r == s
  {
    var current := num.parse(s.display);
    if current != NaN then s.(display := num.show(num.div(current, Hundred))) else s
  }

  /** An operator key: afterwards the new operator is pending, an operand is
      awaited and an accumulator is held, from every state. */
  function PerformOperation(num: Numerics, s: State, next: Op): (r: State)
    ensures r.operator == Some(next) && r.waiting && r.value.Some?
    ensures Consistent(r)
  {
    var input := num.parse(s.display);
    var s' :=
      if s.value.None? then s.(value := Some(input))
      else if s.operator.Some? then
        var result := Combine(num, s.operator.value, s.value.value, input);
        s.(value := Some(result), display := FormatResult(num, num.show(result)))
      else s;
    s'.(operator := Some(next), waiting := true)
  }

  /** The `=` key: apply the pending operator, then drop it and the
      accumulator. */
  function Equals(num: Numerics, s: State): (r: State)
    ensures s.operator.None? ==> r == s
    ensures s.operator.Some? ==> r.operator.None? && r.value.None? && r.waiting
    ensures Consistent(s) ==> Consistent(r)
  {
    if s.operator.Some? then
      PerformOperation(num, s, s.operator.value).(operator := None, value := None, waiting := true)
    else s
  }

  /** The click dispatcher. */
  function Press(num: Numerics, s: State, btn: string): (r: State)
    ensures Consistent(s) ==> Consistent(r)
    ensures Classify(btn) == NoKey ==> r == s
  {
    match Classify(btn)
    case DigitKey => InputDigit(s, btn)
    case DotKey => InputDot(s)
    case ClearKey => ClearAll(s)
    case SignKey => ToggleSign(s)
    case PercentKey => InputPercent(num, s)
    case EqualsKey => Equals(num, s)
    case OperatorKey(op) => PerformOperation(num, s, op)
    case NoKey => s
  }

  /** A sequence of clicks, the last one applied last. */
  function Run(num: Numerics, s: State, btns: seq<string>): (r: State)
    decreases |btns|
  {
    if btns == [] then s else Press(num, Run(num, s, btns[..|btns| - 1]), btns[|btns| - 1])
  }
}
