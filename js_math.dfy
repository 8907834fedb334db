/**
 * The few pieces of JavaScript number semantics the application relies on.
 * JavaScript numbers are IEEE doubles; here they are exact reals, and the
 * non-finite results of a division by zero are kept as separate values.
 */
module JsMath {

  /** `Math.round`: the nearest integer, with halves rounded toward +infinity. */
  function Round(x: real): (n: int)
    ensures x - 0.5 < n as real <= x + 0.5
  {
    (x + 0.5).Floor
  }

  /** The nearest integer is unique: any integer in the half-open window is `Round(x)`. */
  lemma RoundUnique(x: real, n: int)
    requires x - 0.5 < n as real <= x + 0.5
    ensures Round(x) == n
  {
  }

  /** `Math.round` is monotone. */
  lemma RoundMonotone(x: real, y: real)
    requires x <= y
    ensures Round(x) <= Round(y)
  {
  }

  /** A JavaScript number as far as this application can produce one. */
  datatype JsNumber = Finite(value: real) | NaN | PositiveInfinity | NegativeInfinity

  /** JavaScript `a / b` on two finite operands. */
  function Divide(a: real, b: real): (q: JsNumber)
    ensures q.Finite? <==> b != 0.0
    ensures q.Finite? ==> q.value * b == a
    ensures q == NaN <==> a == 0.0 && b == 0.0
  {
    if b != 0.0 then Finite(a / b)
    else if a == 0.0 then NaN
    else if a > 0.0 then PositiveInfinity
    else NegativeInfinity
  }

  /** JavaScript `q * k` for a positive finite factor `k`. */
  function ScaleBy(q: JsNumber, k: real): (r: JsNumber)
    requires k > 0.0
    ensures r.Finite? <==> q.Finite?
    ensures q.Finite? ==> r.value == q.value * k
    ensures !q.Finite? ==> r == q
  {
    match q
    case Finite(v) => Finite(v * k)
    case _ => q
  }
}
