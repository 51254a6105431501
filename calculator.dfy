/** The calculator component: its four state variables as fields, one method
    per button handler, fields written in the order the handlers write them.
    Each method is proved to perform the corresponding transition of
    `Machine`, about which `Properties` states what the keypad promises. */
module Component {
  import opened Numbers
  import opened Buttons
  import opened Machine

  class Calculator {
    const num: Numerics
    var display: string
    var operator: Option<Op>
    var value: Option<Num>
    var waiting: bool

    /** The state as a value. */
    function Snapshot(): State
      reads this
    {
      State(display, operator, value, waiting)
    }

    /** The operator and the accumulator are set together. */
    predicate Valid()
      reads this
    {
      Consistent(Snapshot())
    }

    constructor (num: Numerics)
      ensures this.num == num
      ensures Snapshot() == Initial && Valid()
    {
      this.num := num;
      display := "0";
      operator := None;
      waiting := false;
      value := None;
    }

    method InputDigit(digit: string)
      modifies this
      ensures Snapshot() == Machine.InputDigit(old(Snapshot()), digit)
      ensures old(Valid()) ==> Valid()
    {
      if waiting {
        display := digit;
        waiting := false;
      } else {
        display := if display == "0" then digit else display + digit;
      }
    }

    method InputDot()
      modifies this
      ensures Snapshot() == Machine.InputDot(old(Snapshot()))
      ensures old(Valid()) ==> Valid()
    {
      if waiting {
        display := "0.";
        waiting := false;
      } else if '.' !in display {
        display := display + ".";
      }
    }

    method ClearAll()
      modifies this
      ensures Snapshot() == Initial && Valid()
    {
      display := "0";
      operator := None;
      value := None;
      waiting := false;
    }

    method ToggleSign()
      modifies this
      ensures Snapshot() == Machine.ToggleSign(old(Snapshot()))
      ensures old(Valid()) ==> Valid()
    {
      display := if |display| > 0 && display[0] == '-' then display[1..] else "-" + display;
    }

    method InputPercent()
      modifies this
      ensures Snapshot() == Machine.InputPercent(num, old(Snapshot()))
      ensures old(Valid()) ==> Valid()
    {
      var current := num.parse(display);
      if current != NaN {
        display := num.show(num.div(current, Hundred));
      }
    }

    method PerformOperation(next: Op)
      modifies this
      ensures Snapshot() == Machine.PerformOperation(num, old(Snapshot()), next)
      ensures Valid()
    {
      var input := num.parse(display);
      if value == None {
        value := Some(input);
      } else if operator.Some? {
        var current := value.value;
        var result := current;
        match operator.value {
          case Plus => result := num.add(result, input);
          case Minus => result := num.sub(result, input);
          case Times => result := num.mul(result, input);
          case Divide => result := if IsZero(input) then NaN else num.div(current, input);
        }
        value := Some(result);
        display := FormatResult(num, num.show(result));
      }
      operator := Some(next);
      waiting := true;
    }

    /** The click dispatcher, with the `=` branch written out. */
    method HandleButtonClick(btn: string)
      modifies this
      ensures Snapshot() == Press(num, old(Snapshot()), btn)
      ensures old(Valid()) ==> Valid()
    {
      if HasDigit(btn) {
        InputDigit(btn);
      } else if btn == "." {
        InputDot();
      } else if btn == "AC" {
        ClearAll();
      } else if btn == "±" {
        ToggleSign();
      } else if btn == "%" {
        InputPercent();
      } else if btn == "=" {
        if operator.Some? {
          PerformOperation(operator.value);
          operator := None;
          value := None;
          waiting := true;
        }
      } else if btn in OperatorMap {
        PerformOperation(OperatorMap[btn]);
      }
    }
  }
}
