/** The calculator's numbers and the pure helpers over them: `calculate`,
    `getOperationSymbol` and `formatNumber` of src/components/Calculator.jsx.

    A JavaScript number is modelled as NaN or a finite real. Rounding to
    doubles, infinities and negative zero are not modelled. The conversions
    between numbers and text (`parseFloat`, `String(n)`, `n.toExponential(5)`)
    are not given a definition: a `Conversions` value carries them. */
module Numbers {

  datatype Num = NaN | Finite(value: real)

  function Add(a: Num, b: Num): Num
  {
    if a.Finite? && b.Finite? then Finite(a.value + b.value) else NaN
  }

  function Sub(a: Num, b: Num): Num
  {
    if a.Finite? && b.Finite? then Finite(a.value - b.value) else NaN
  }

  function Mul(a: Num, b: Num): Num
  {
    if a.Finite? && b.Finite? then Finite(a.value * b.value) else NaN
  }

  /** Division by a divisor known to be non-zero (NaN included). */
  function Div(a: Num, b: Num): Num
    requires b != Finite(0.0)
  {
    if a.Finite? && b.Finite? then Finite(a.value / b.value) else NaN
  }

  /** `x || 0`: NaN and zero are falsy, so both give 0; any other number is kept. */
  function OrZero(x: Num): (r: Num)
    ensures x.NaN? ==> r == Finite(0.0)
    ensures x.Finite? ==> r == x
  {
    if x.NaN? || x == Finite(0.0) then Finite(0.0) else x
  }

  /** `calculate(firstValue, secondValue, operation)`. */
  function Calculate(first: Num, second: Num, op: char): (r: Num)
    ensures op == '/' && second == Finite(0.0) ==> r == Finite(0.0)
    ensures op !in "+-*/" ==> r == second
    ensures op in "+-*" && (first.NaN? || second.NaN?) ==> r.NaN?
    ensures op == '/' && second != Finite(0.0) && (first.NaN? || second.NaN?) ==> r.NaN?
    ensures op in "+-*/" && first.Finite? && second.Finite? ==> r.Finite?
  {
    match op
    case '+' => Add(first, second)
    case '-' => Sub(first, second)
    case '*' => Mul(first, second)
    case '/' => if second != Finite(0.0) then Div(first, second) else Finite(0.0)
    case '=' => second
    case _ => second
  }

  /** Dividing by zero yields zero, whatever the first operand. */
  lemma DivisionByZeroIsZero(first: Num)
    ensures Calculate(first, Finite(0.0), '/') == Finite(0.0)
  {
  }

  /** `'='` and every operator the switch does not know return the second operand. */
  lemma UnknownOperatorReturnsSecond(first: Num, second: Num, op: char)
    requires op !in "+-*/"
    ensures Calculate(first, second, op) == second
    ensures Calculate(first, second, '=') == second
  {
  }

  const MinusSign: char := '\U{2212}'
  const TimesSign: char := '\U{00D7}'
  const DivisionSign: char := '\U{00F7}'

  /** `getOperationSymbol(op)`: the sign shown in a history entry. */
  function OperationSymbol(op: char): (s: string)
    ensures |s| == 1
    ensures op !in "-*/" ==> s == [op]
    ensures op in "-*/" ==> s[0] !in "+-*/" && s[0] != op
  {
    match op
    case '+' => "+"
    case '-' => [MinusSign]
    case '*' => [TimesSign]
    case '/' => [DivisionSign]
    case _ => [op]
  }

  /** The four operators are shown with four different signs. */
  lemma OperationSymbolsDistinct(x: char, y: char)
    requires x in "+-*/" && y in "+-*/" && x != y
    ensures OperationSymbol(x) != OperationSymbol(y)
  {
  }

  /** The number conversions of the JavaScript runtime, left undefined:
      `parseFloat(s)`, `String(n)` (the same text as `n.toString()`) and
      `n.toExponential(5)`. */
  datatype Conversions = Conversions(
    parseFloat: string -> Num,
    toString: Num -> string,
    toExponential: Num -> string)

  /** `formatNumber(num)`: the plain text, unless it is longer than ten
      characters, in which case exponential notation with five decimals. */
  function FormatNumber(conv: Conversions, n: Num): (r: string)
    ensures r == conv.toString(n) || r == conv.toExponential(n)
    ensures |r| <= 10 || r == conv.toExponential(n)
    ensures |conv.toString(n)| <= 10 ==> r == conv.toString(n)
  {
    var text := conv.toString(n);
    if |text| > 10 then conv.toExponential(n) else text
  }
}
