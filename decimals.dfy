/** Foundation's `Decimal` as the prices use it: an exact value, or NaN, which is what a
    division by zero produces and what every operation on NaN gives back. The 38-digit
    mantissa and its rounding are not modelled. */
module Decimals {
  datatype Decimal = Num(value: real) | NaN

  function FromInt(i: int): Decimal {
    Num(i as real)
  }

  /** `isZero`: NaN is not zero. */
  predicate IsZero(d: Decimal) {
    d == Num(0.0)
  }

  function Sub(a: Decimal, b: Decimal): (r: Decimal)
    ensures r.Num? <==> a.Num? && b.Num?
    ensures r.Num? ==> r.value + b.value == a.value
  {
    if a.Num? && b.Num? then Num(a.value - b.value) else NaN
  }

  function Mul(a: Decimal, b: Decimal): (r: Decimal)
    ensures r.Num? <==> a.Num? && b.Num?
  {
    if a.Num? && b.Num? then Num(a.value * b.value) else NaN
  }

  /** Division: NaN when the divisor is zero; otherwise the quotient times the divisor is the
      dividend. */
  function Div(a: Decimal, b: Decimal): (r: Decimal)
    ensures r.Num? <==> a.Num? && b.Num? && b.value != 0.0
    ensures r.Num? ==> r.value * b.value == a.value
  {
    if a.Num? && b.Num? && b.value != 0.0 then Num(a.value / b.value) else NaN
  }

  /** Dividing and multiplying back by the same non-zero number returns the dividend. */
  lemma DivMulCancel(a: Decimal, b: Decimal)
    requires b.Num? && b.value != 0.0
    ensures Mul(Div(a, b), b) == a
  {
    if a.Num? {
      assert Div(a, b).value * b.value == a.value;
    }
  }
}
