/** The keypad: its layout, the operator table and the order in which the
    click dispatcher tests a button label. */
module Buttons {

  /** The four binary operators, standing for the codes "+", "-", "*" and "/"
      that the widget stores as its pending operator. */
  datatype Op = Plus | Minus | Times | Divide

  /** The keypad rows, top to bottom. */
  const Layout: seq<seq<string>> := [
    ["AC", "±", "%", "÷"],
    ["7", "8", "9", "×"],
    ["4", "5", "6", "−"],
    ["1", "2", "3", "+"],
    ["0", ".", "="]
  ]

  /** Every label on the keypad. */
  predicate OnKeypad(btn: string) {
    exists row :: row in Layout && btn in row
  }

  /** The table from operator key labels to operator codes. */
  const OperatorMap: map<string, Op> := map[
    "÷" := Divide,
    "×" := Times,
    "−" := Minus,
    "+" := Plus
  ]

  predicate IsDigitChar(c: char) {
    '0' <= c <= '9'
  }

  /** The regular expression test `/\d/.test(btn)`: the label contains an
      ASCII digit somewhere, not necessarily only digits. */
  predicate HasDigit(btn: string) {
    exists i :: 0 <= i < |btn| && IsDigitChar(btn[i])
  }

  /** The branch of the click dispatcher a label takes. */
  datatype Key =
    | DigitKey
    | DotKey
    | ClearKey
    | SignKey
    | PercentKey
    | EqualsKey
    | OperatorKey(op: Op)
    | NoKey

  /** The dispatcher's tests, in the order it makes them. */
  function Classify(btn: string): (k: Key)
    ensures k == DigitKey <==> HasDigit(btn)
    ensures k.OperatorKey? ==> btn in OperatorMap && k.op == OperatorMap[btn]
    ensures k == NoKey ==> !HasDigit(btn) && btn !in OperatorMap
  {
    if HasDigit(btn) then DigitKey
    else if btn == "." then DotKey
    else if btn == "AC" then ClearKey
    else if btn == "±" then SignKey
    else if btn == "%" then PercentKey
    else if btn == "=" then EqualsKey
    else if btn in OperatorMap then OperatorKey(OperatorMap[btn])
    else NoKey
  }
}
