# Calculator input state machine

A model of the button logic of the `Calculator` component in
`zaidangpt/src/app/calc.tsx`: a four-function pocket calculator whose state is
a display string, a pending operator, an accumulator and a flag saying that
the next digit starts a new operand. Every click is dispatched on the button
label to one of seven handlers (digit, decimal point, `AC`, `±`, `%`, an
operator, `=`), each of which rewrites some of those four variables.

The project has five modules:

- `Numbers` (numbers.dfy): the JavaScript numbers the widget computes with,
  as `NaN`, an infinity or a finite real, and a `Numerics` record holding the
  built-ins it calls: `parseFloat`, `String(n)`, `toExponential(6)` and the
  four arithmetic operators. Every result of the model holds for every such
  record, except three that state an assumption about it:
  `Properties.DivideByZeroShowsNaN` assumes that "0" parses to zero, and
  `Properties.PressKeepsSingleDot` and `Properties.RunKeepsSingleDot` assume
  that number-to-text conversion never writes two decimal points. Nothing
  depends on how doubles round.
- `Buttons` (buttons.dfy): the keypad layout, the operator table and
  `Classify`, the order of tests of the click dispatcher.
- `Machine` (machine.dfy): the state as a datatype and one pure transition per
  handler, `Press` for a click and `Run` for a sequence of clicks.
- `Component` (calculator.dfy): the component as a class with the four fields
  and one method per handler, writing the fields in the order the handlers
  write them. Each method is proved to perform the matching `Machine`
  transition and to keep the class invariant `Valid` (the pending operator is
  set exactly when the accumulator is); `ClearAll` and `PerformOperation`
  establish it from any state.
- `Properties` (properties.dfy): what each button does, the invariant that the
  operator and the accumulator are set together, digit entry against a
  reference text, the at-most-one-decimal-point invariant and worked key
  sequences.

Three behaviours of the code that differ from what one might expect of a
calculator, which the model reproduces:

- Two `±` presses restore the display only when it does not begin with
  `--`. They do not restore it for every display.
- The operator and the accumulator are cleared by `=` as well as by `AC`. So
  "no accumulator" does not mean "no operator chosen since the last clear".
- The dispatcher's digit test is `/\d/`. It accepts any label containing a
  digit anywhere, and the whole label is then typed.

## Model

| member | source | states |
|---|---|---|
| `Component.Calculator.constructor` | zaidangpt/src/app/calc.tsx:28-31 | the component mounts in the initial state: display "0", no operator, no accumulator, not waiting, which is consistent |
| `Component.Calculator.InputDigit` | zaidangpt/src/app/calc.tsx:33-40 | the digit handler performs the digit transition (see DigitPress); a consistent component stays consistent |
| `Component.Calculator.InputDot` | zaidangpt/src/app/calc.tsx:42-49 | the decimal-point handler performs the dot transition (see DotPress); a consistent component stays consistent |
| `Component.Calculator.ClearAll` | zaidangpt/src/app/calc.tsx:51-56 | after the clear handler the component is in the initial state, which is consistent, whatever it was before |
| `Component.Calculator.ToggleSign` | zaidangpt/src/app/calc.tsx:58-62 | the sign handler performs the sign transition (see SignPress, NegatedTwice); a consistent component stays consistent |
| `Component.Calculator.InputPercent` | zaidangpt/src/app/calc.tsx:64-69 | the percent handler performs the percent transition (see PercentPress); a consistent component stays consistent |
| `Component.Calculator.PerformOperation` | zaidangpt/src/app/calc.tsx:71-101 | the operator handler, with its in-place update of the result, performs the operator transition (see OperatorPress); the component is consistent afterwards, from every state |
| `Component.Calculator.HandleButtonClick` | zaidangpt/src/app/calc.tsx:103-124 | a click, with the `=` branch's later writes overriding the operator handler's, performs `Press`; a consistent component stays consistent |
| `Numbers.IsZero` | zaidangpt/src/app/calc.tsx:91 | `inputValue === 0`, true of both zeros; no contract of its own, Machine.Combine and Properties.CombineCases use it |
| `Buttons.Layout` | zaidangpt/src/app/calc.tsx:5-11 | the keypad rows; a constant, Properties.KeypadLabels lists its labels |
| `Buttons.OperatorMap` | zaidangpt/src/app/calc.tsx:13-18 | the operator table; a constant, Properties.OperatorMapInjective and Buttons.Classify state its use |
| `Buttons.HasDigit` | zaidangpt/src/app/calc.tsx:104 | the `/\d/` test: some character of the label is an ASCII digit; no contract of its own, Properties.DigitLabel and Properties.KeypadDispatch state which labels pass it |
| `Machine.Initial` | zaidangpt/src/app/calc.tsx:28-31 | the state at mount; a constant, Properties.InitialConsistent and Properties.ClearPress state it |
| `Machine.Consistent` | zaidangpt/src/app/calc.tsx:29-31 | the invariant "no operator exactly when no accumulator"; no contract of its own, Properties.InitialConsistent, Machine.Press and Properties.RunKeepsConsistent prove it |
| `Machine.InputDigit` | zaidangpt/src/app/calc.tsx:33-40 | a digit leaves operator and accumulator unchanged and ends the wait; Properties.DigitPress and Properties.DigitRun state the display |
| `Machine.InputDot` | zaidangpt/src/app/calc.tsx:42-49 | the point leaves operator and accumulator unchanged, ends the wait, and the display then holds a point; Properties.DotPress states the display |
| `Machine.ClearAll` | zaidangpt/src/app/calc.tsx:51-56 | the result is the state at mount, which is consistent, whatever the state before |
| `Machine.Negated` | zaidangpt/src/app/calc.tsx:60 | the sign rewrite always changes the text; Properties.NegatedStripsOrPrepends and Properties.NegatedTwice state how |
| `Machine.ToggleSign` | zaidangpt/src/app/calc.tsx:58-62 | `±` always changes the display and nothing else |
| `Machine.InputPercent` | zaidangpt/src/app/calc.tsx:64-69 | `%` changes at most the display, and nothing when the display parses as NaN; Properties.PercentPress states the new display |
| `Machine.PerformOperation` | zaidangpt/src/app/calc.tsx:71-101 | from every state, the new operator ends pending, an operand is awaited and an accumulator is held, so the invariant holds afterwards; Properties.OperatorPress states value and display |
| `Machine.Equals` | zaidangpt/src/app/calc.tsx:114-120 | with no pending operator nothing changes; with one, operator and accumulator end absent and an operand is awaited; the invariant is kept; Properties.EqualsPress states the display |
| `Machine.Press` | zaidangpt/src/app/calc.tsx:103-124 | every click, on any label, keeps "no operator exactly when no accumulator", and a label no branch recognises changes nothing |
| `Machine.Run` | zaidangpt/src/app/calc.tsx:103-124 | a sequence of clicks, each handled to completion before the next; no contract of its own, Properties.RunAppend, Properties.RunSnoc, Properties.RunKeepsConsistent and Properties.RunKeepsSingleDot state it |
| `Properties.RunAppend` | zaidangpt/src/app/calc.tsx:103-124 | running two click sequences one after the other is running their concatenation |
| `Properties.RunSnoc` | zaidangpt/src/app/calc.tsx:103-124 | one more click after a sequence is that click on the state the sequence reached |
| `Buttons.Classify` | zaidangpt/src/app/calc.tsx:103-124 | the digit branch is taken exactly by labels containing a digit; the operator branch only by keys of the operator table, with their operator; the fall-through only by labels that neither contain a digit nor are operator keys |
| `Properties.KeypadLabels` | zaidangpt/src/app/calc.tsx:5-11 | the keypad carries exactly the nineteen labels AC ± % ÷ 7 8 9 × 4 5 6 − 1 2 3 + 0 . = |
| `Properties.KeypadDispatch` | zaidangpt/src/app/calc.tsx:103-123 | every keypad label takes some branch of the dispatcher, and the digit branch is taken by exactly the ten one-digit labels |
| `Properties.DigitLabel` | zaidangpt/src/app/calc.tsx:104 | a one-character digit label passes the digit test |
| `Properties.OperatorMapInjective` | zaidangpt/src/app/calc.tsx:13-18 | the four operator keys map to four different operators |
| `Properties.UnknownButtonIgnored` | zaidangpt/src/app/calc.tsx:103-124 | a label that no branch recognises leaves the whole state unchanged |
| `Properties.DigitPress` | zaidangpt/src/app/calc.tsx:33-40 | when waiting the display becomes the label; otherwise a display of "0" is replaced by it and any other display gets it appended; waiting ends false; operator and accumulator are unchanged |
| `Properties.DotPress` | zaidangpt/src/app/calc.tsx:42-49 | when waiting the display becomes "0."; otherwise a point is appended only to a display without one, and a display with one leaves the state unchanged; the display afterwards contains a point; operator and accumulator unchanged |
| `Properties.DotIdempotent` | zaidangpt/src/app/calc.tsx:42-49 | pressing the decimal point twice is the same as pressing it once, from every state |
| `Properties.SecondDotIgnored` | zaidangpt/src/app/calc.tsx:42-49 | the keys 1 . . 2 from mount show "1.2" |
| `Properties.PressKeepsSingleDot` | zaidangpt/src/app/calc.tsx:42-49 | if number-to-text conversion never writes two points, no keypad label turns a display with at most one point into one with two |
| `Properties.RunKeepsSingleDot` | zaidangpt/src/app/calc.tsx:103-124 | under the same condition, every sequence of keypad clicks keeps the display at one point or fewer |
| `Properties.ClearPress` | zaidangpt/src/app/calc.tsx:51-56 | `AC` from any state gives exactly the initial state |
| `Properties.SignPress` | zaidangpt/src/app/calc.tsx:58-62 | `±` changes the display only, to its negated text |
| `Properties.NegatedStripsOrPrepends` | zaidangpt/src/app/calc.tsx:58-62 | negation strips a leading minus sign when there is one, and prepends one otherwise (including on the empty display) |
| `Properties.NegatedTwice` | zaidangpt/src/app/calc.tsx:58-62 | negating twice restores the display if and only if it does not begin with two minus signs |
| `Properties.NegativeZeroKeepsZero` | zaidangpt/src/app/calc.tsx:38 | ± then 5 from mount shows "-05": "-0" is not "0", so the digit is appended |
| `Properties.PercentPress` | zaidangpt/src/app/calc.tsx:64-69 | `%` changes the display only: unchanged when it parses as NaN, otherwise the text of the parsed value divided by 100 |
| `Machine.Combine` | zaidangpt/src/app/calc.tsx:91 | dividing by a zero right operand gives NaN, never a failure |
| `Properties.CombineCases` | zaidangpt/src/app/calc.tsx:80-93 | the pending operator combines by cases: sum, difference, product, and quotient unless the right operand is zero, when the result is NaN |
| `Machine.FormatResult` | zaidangpt/src/app/calc.tsx:20-25 | a result text of at most 12 characters is shown unchanged; a longer one is replaced by the six-digit exponential form of its parsed value |
| `Properties.OperatorPress` | zaidangpt/src/app/calc.tsx:71-101 | an operator key sets its operator pending and waiting true; with no accumulator the parsed display becomes the accumulator and the display stays; otherwise the operator pending before the press combines the accumulator with the parsed display, the unformatted result becomes the accumulator and its formatted text the display |
| `Properties.RepeatedOperator` | zaidangpt/src/app/calc.tsx:74-76 | 5 + + from mount accumulates 5 + 5, because an operator key does not look at the waiting flag |
| `Properties.LeftToRight` | zaidangpt/src/app/calc.tsx:71-101 | 2 + 3 × 4 = from mount shows the formatted product of (2 + 3) and 4: operators apply left to right without precedence |
| `Properties.EqualsPress` | zaidangpt/src/app/calc.tsx:114-120 | `=` with no pending operator changes nothing; with one it ends with no operator, no accumulator and waiting true, showing the formatted combination of the accumulator with the parsed display |
| `Properties.EqualsNotRepeatable` | zaidangpt/src/app/calc.tsx:114-120 | a second `=` right after a first does nothing, so the last operation is not repeated |
| `Properties.DivideByZeroShowsNaN` | zaidangpt/src/app/calc.tsx:91 | 6 ÷ 0 = from mount shows the formatted text of NaN when "0" parses to zero |
| `Properties.InitialConsistent` | zaidangpt/src/app/calc.tsx:28-31 | in the initial state operator and accumulator are both absent |
| `Properties.RunKeepsConsistent` | zaidangpt/src/app/calc.tsx:103-124 | every sequence of clicks keeps that invariant |
| `Properties.ReachableConsistent` | zaidangpt/src/app/calc.tsx:28-31 | every state reachable from mount satisfies it |
| `Properties.DigitRun` | zaidangpt/src/app/calc.tsx:33-40 | typing digits into an awaited operand, or onto a display of "0", shows the digits with leading zeros collapsed ("0" if only zeros were typed), and leaves operator and accumulator alone |
| `Properties.ClearThenDigits` | zaidangpt/src/app/calc.tsx:33-56 | `AC` followed by any digits, from any state, shows those digits with leading zeros collapsed |
| `Properties.TypedDigits` | zaidangpt/src/app/calc.tsx:33-40 | AC 1 2 3 from any state shows "123" |

## Left out

- IEEE-754 arithmetic and the conversions between numbers and text (`parseFloat`, `String(n)`, `toString`, `toExponential(6)`) are parameters of the model, not defined: they are floating point and built-in library behaviour. In particular the value of `currentValue / 100` and the text "0.5" for 50 % are not modelled, and no lemma states that 5 + 3 = shows "8".
- The difference between +0 and -0 is not kept: `=== 0` does not see it, and the text of a number is a parameter.
- Operator-table lookup is on the table's own keys only. JavaScript would also find inherited object properties such as "toString" for a label of that name. The keypad has no such label.
- The JSX tree, colours, per-button styling and the font import produce no state change.
- React state hooks, re-rendering and update batching are not modelled. Each handler reads its state before the click and its writes are applied in order, so the last write to a variable wins. This is how the class methods update their fields.
- The regular-expression engine is replaced by the predicate "the label contains an ASCII digit", which is what `/\d/` tests.
- `Properties.DivideByZeroShowsNaN` assumes that `parseFloat("0")` is zero, since parsing is a parameter of the model.
- The display is not proved to be a well-formed number literal, because results reach it through the unspecified number-to-text conversion. Only "at most one decimal point" is proved (`Properties.RunKeepsSingleDot`), and it assumes that conversion never writes two points.
