/**
 * An IEEE-754 double seen through its value: a real number, one of the two infinities,
 * or NaN. Rounding is not modelled; arithmetic on finite values is exact.
 */
module Floats {

  datatype Float = Finite(v: real) | PosInf | NegInf | NaN

  function Neg(x: Float): (r: Float)
    ensures r.NaN? <==> x.NaN?
    ensures x.Finite? ==> r == Finite(-x.v)
  {
    match x
    case Finite(v) => Finite(-v)
    case PosInf => NegInf
    case NegInf => PosInf
    case NaN => NaN
  }

  /** `f64::abs`: NaN stays NaN, both infinities become +inf. */
  function Abs(x: Float): (r: Float)
    ensures r.Finite? ==> r.v >= 0.0
    ensures r.NegInf? == false
  {
    match x
    case Finite(v) => Finite(if v < 0.0 then -v else v)
    case PosInf => PosInf
    case NegInf => PosInf
    case NaN => NaN
  }

  /** `a > b` on doubles where `b` is finite: never true for NaN, always for +inf. */
  predicate Exceeds(x: Float, bound: real)
  {
    match x
    case Finite(v) => v > bound
    case PosInf => true
    case NegInf => false
    case NaN => false
  }

  /**
   * `num / den` for finite operands: dividing by +0.0 gives an infinity with the
   * numerator's sign, or NaN for 0/0.
   */
  function Div(num: real, den: real): (r: Float)
    ensures den != 0.0 ==> r == Finite(num / den)
    ensures r.NaN? <==> den == 0.0 && num == 0.0
  {
    if den != 0.0 then Finite(num / den)
    else if num > 0.0 then PosInf
    else if num < 0.0 then NegInf
    else NaN
  }

  /** Negating the numerator negates the quotient, also at the infinities and NaN. */
  lemma DivNeg(num: real, den: real)
    ensures Div(-num, den) == Neg(Div(num, den))
  {
  }

  lemma AbsNeg(x: Float)
    ensures Abs(Neg(x)) == Abs(x)
  {
  }

  /**
   * `f64`'s `Display`: "NaN", "inf" and "-inf" for the special values, and `show(v)`,
   * the shortest decimal form, for a finite `v`. The decimal formatting itself is not
   * modelled.
   */
  function Display(x: Float, show: real -> string): (s: string)
    ensures x.PosInf? ==> s == "inf"
    ensures x.NegInf? ==> s == "-inf"
    ensures x.NaN? ==> s == "NaN"
  {
    match x
    case Finite(v) => show(v)
    case PosInf => "inf"
    case NegInf => "-inf"
    case NaN => "NaN"
  }
}
