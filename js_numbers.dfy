/**
 * The part of JavaScript number semantics the budget percentages depend on.
 * Operands are exact reals (no rounding); what is kept is how division by
 * zero behaves: a non-zero numerator over zero gives an infinity of the
 * numerator's sign, and 0 / 0 gives NaN, which every comparison rejects.
 */
module JsNumbers {

  datatype Num = Finite(value: real) | PosInf | NegInf | NaN

  /** `part / whole` as JavaScript evaluates it on finite operands. */
  function Div(part: real, whole: real): (r: Num)
    ensures r.Finite? <==> whole != 0.0
    ensures r.Finite? ==> r.value * whole == part
    ensures r.PosInf? <==> whole == 0.0 && part > 0.0
    ensures r.NegInf? <==> whole == 0.0 && part < 0.0
    ensures r.NaN? <==> whole == 0.0 && part == 0.0
  {
    if whole != 0.0 then Finite(part / whole)
    else if part > 0.0 then PosInf
    else if part < 0.0 then NegInf
    else NaN
  }

  /** `n * 100`: infinities and NaN are absorbing. */
  function Times100(n: Num): (r: Num)
    ensures r.Finite? <==> n.Finite?
    ensures r.Finite? ==> r.value == 100.0 * n.value
    ensures !r.Finite? ==> r == n
  {
    match n
    case Finite(x) => Finite(x * 100.0)
    case _ => n
  }

  /** `(part / whole) * 100`, the percentage expression the page renders. */
  function Percent(part: real, whole: real): (r: Num)
    ensures r.Finite? <==> whole != 0.0
    ensures r.Finite? ==> r.value * whole == 100.0 * part
    ensures r.NaN? <==> whole == 0.0 && part == 0.0
    ensures r.PosInf? <==> whole == 0.0 && part > 0.0
  {
    Times100(Div(part, whole))
  }

  /** `n >= bound` for a finite bound; false on NaN. */
  predicate AtLeast(n: Num, bound: real) {
    match n
    case Finite(x) => x >= bound
    case PosInf => true
    case NegInf => false
    case NaN => false
  }

  /** `n < bound` for a finite bound; false on NaN. */
  predicate Below(n: Num, bound: real) {
    match n
    case Finite(x) => x < bound
    case PosInf => false
    case NegInf => true
    case NaN => false
  }

  /** `>=` and `<` against the same bound split every number except NaN. */
  lemma AtLeastBelowSplit(n: Num, bound: real)
    ensures !(AtLeast(n, bound) && Below(n, bound))
    ensures AtLeast(n, bound) || Below(n, bound) <==> !n.NaN?
  {
  }
}
