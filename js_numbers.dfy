/**
 * The part of JavaScript's number semantics the front-end relies on when a
 * ratio can have a zero denominator: division yields an infinity or NaN
 * instead of failing, comparisons against NaN are false, and `Math.round`
 * passes non-finite values through.  Finite values are exact reals; IEEE
 * rounding of finite results is not modelled.
 */
module JsNumbers {

  datatype Num = Fin(v: real) | PosInf | NegInf | NaN

  /** `a / b` on JavaScript numbers. */
  function Div(a: real, b: real): (r: Num)
    ensures b != 0.0 ==> r == Fin(a / b)
    ensures b == 0.0 ==> (r == PosInf <==> a > 0.0) && (r == NegInf <==> a < 0.0) && (r == NaN <==> a == 0.0)
  {
    if b != 0.0 then Fin(a / b)
    else if a > 0.0 then PosInf
    else if a < 0.0 then NegInf
    else NaN
  }

  /** `n * k` for a positive finite factor `k`. */
  function Scale(n: Num, k: real): (r: Num)
    requires k > 0.0
    ensures r.Fin? <==> n.Fin?
    ensures n.Fin? ==> r.v == n.v * k
  {
    match n
    case Fin(x) => Fin(x * k)
    case _ => n
  }

  /** `n >= t` for a finite threshold `t`; false whenever `n` is NaN. */
  predicate AtLeast(n: Num, t: real) {
    match n
    case Fin(x) => x >= t
    case PosInf => true
    case NegInf => false
    case NaN => false
  }

  /** `Math.round(x)` on a finite value: the nearest integer, halves rounding up. */
  function RoundReal(x: real): (r: int)
    ensures x - 0.5 < r as real <= x + 0.5
  {
    (x + 0.5).Floor
  }

  function Round(n: Num): (r: Num)
    ensures n.Fin? ==> r == Fin(RoundReal(n.v) as real)
    ensures !n.Fin? ==> r == n
  {
    match n
    case Fin(x) => Fin(RoundReal(x) as real)
    case _ => n
  }

  /** `Math.floor(x)` */
  function Floor(x: real): (r: int)
    ensures r as real <= x < r as real + 1.0
  {
    x.Floor
  }

  /** `Math.trunc(x)`: rounds toward zero. */
  function Trunc(x: real): (r: int)
    ensures x >= 0.0 ==> r == Floor(x)
    ensures x < 0.0 ==> r == -Floor(-x)
  {
    if x >= 0.0 then x.Floor else -((-x).Floor)
  }

  /** `a % 60`: JavaScript's remainder takes the sign of the dividend. */
  function Rem60(a: real): (r: real)
    ensures a >= 0.0 ==> 0.0 <= r < 60.0
    ensures a < 0.0 ==> -60.0 < r <= 0.0
  {
    a - 60.0 * Trunc(a / 60.0) as real
  }

  /** `part / whole * 100` for a positive whole: it scales back to the part, and a part within the whole gives 0..100. */
  lemma PercentOf(part: real, whole: real)
    requires whole > 0.0
    ensures (part / whole) * 100.0 * whole == part * 100.0
    ensures 0.0 <= part <= whole ==> 0.0 <= (part / whole) * 100.0 <= 100.0
    ensures part == whole ==> (part / whole) * 100.0 == 100.0
  {
    var q := part / whole;
    assert q * whole == part;
    assert q * 100.0 * whole == (q * whole) * 100.0;
  }
}
