/** Abstract view of the JavaScript numbers the calculator computes with.

    The widget works with IEEE-754 doubles and with the built-in conversions
    between numbers and text.  None of that is modelled in detail: a number is
    either not-a-number, an infinity or a finite value, and every arithmetic
    operation and conversion is a parameter (a `Numerics` record) over which
    all results of the model are universally quantified.
 */
module Numbers {

  /** A JavaScript number.  Rounding is not modelled, and the two zeros are one
      value, as `=== 0` does not tell them apart. */
  datatype Num = NaN | Infinity(negative: bool) | Finite(value: real)

  /** The built-in number operations the widget calls, each left unspecified. */
  datatype Numerics = Numerics(
    parse: string -> Num,          // parseFloat(text)
    show: Num -> string,           // String(n), n.toString()
    toExponential: Num -> string,  // n.toExponential(6)
    add: (Num, Num) -> Num,        // a + b
    sub: (Num, Num) -> Num,        // a - b
    mul: (Num, Num) -> Num,        // a * b
    div: (Num, Num) -> Num         // a / b
  )

  /** `x === 0` for a JavaScript number. */
  predicate IsZero(x: Num) {
    x == Finite(0.0)
  }

  /** The literal 100 used by the percent key. */
  const Hundred: Num := Finite(100.0)
}
