/** JavaScript numbers, as far as the offset callback tells them apart: the
    finite values (modelled exactly, as reals), the two infinities and NaN. */
module JsNumbers {

  datatype Number = Finite(r: real) | PosInf | NegInf | NaN

  /** The global `isNaN` on a value that is already a number. */
  predicate IsNaN(n: Number) {
    n.NaN?
  }

  /** JavaScript truthiness of a number: false exactly for 0 and NaN. */
  predicate Truthy(n: Number) {
    match n
    case Finite(r) => r != 0.0
    case NaN => false
    case _ => true
  }

  /** `n > bound` for a finite bound; every comparison with NaN is false. */
  predicate Exceeds(n: Number, bound: real) {
    match n
    case Finite(r) => r > bound
    case PosInf => true
    case _ => false
  }

  /** `n / k` for a positive finite divisor. */
  function Over(n: Number, k: real): Number
    requires k > 0.0
  {
    match n
    case Finite(r) => Finite(r / k)
    case _ => n
  }

  /** `n * k` for a positive finite factor: infinities keep their sign and
      NaN stays NaN, and dividing by the factor again gives back `n`. */
  function Times(n: Number, k: real): (m: Number)
    requires k > 0.0
    ensures Over(m, k) == n
    ensures IsNaN(m) <==> IsNaN(n)
    ensures m.Finite? <==> n.Finite?
  {
    match n
    case Finite(r) =>
      assert r * k / k == r;
      Finite(r * k)
    case _ => n
  }

  /** A number greater than a non-negative bound is always truthy, so in
      `x && x > bound` the first conjunct never changes the answer. */
  lemma ExceedsIsTruthy(n: Number, bound: real)
    requires bound >= 0.0
    ensures Truthy(n) && Exceeds(n, bound) <==> Exceeds(n, bound)
  {
  }
}
