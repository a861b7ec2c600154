/**
 * The corner of JavaScript number semantics the model needs: the results of
 * dividing by zero, comparisons against them, and the `x || d` default idiom
 * on numbers. Everything else is exact `real` arithmetic; floating-point
 * rounding is not modelled.
 */
module Numeric {
  import opened Wrappers

  /** A JavaScript number that is finite, or one of the non-finite results of a division. */
  datatype Extended = Finite(value: real) | PosInf | NegInf | NaN

  /** JavaScript `a / b` on finite operands. */
  function Divide(a: real, b: real): (r: Extended)
    ensures r.Finite? <==> b != 0.0
    ensures r.Finite? ==> r.value * b == a
    ensures r == NaN <==> a == 0.0 && b == 0.0
    ensures r == PosInf <==> a > 0.0 && b == 0.0
    ensures r == NegInf <==> a < 0.0 && b == 0.0
  {
    if b != 0.0 then Finite(a / b)
    else if a > 0.0 then PosInf
    else if a < 0.0 then NegInf
    else NaN
  }

  /** JavaScript `x * k` for a positive finite factor. */
  function Scale(x: Extended, k: real): (r: Extended)
    requires k > 0.0
    ensures r.Finite? <==> x.Finite?
    ensures r.Finite? ==> r.value == x.value * k
    ensures !x.Finite? ==> r == x
  {
    match x
    case Finite(v) => Finite(v * k)
    case _ => x
  }

  /** JavaScript `x >= t` for a finite threshold: NaN compares false, infinities by their sign. */
  predicate AtLeast(x: Extended, t: real) {
    match x
    case Finite(v) => v >= t
    case PosInf => true
    case NegInf => false
    case NaN => false
  }

  /** JavaScript truthiness of a number that may be absent: `undefined` and 0 are falsy. */
  predicate Truthy(x: Option<real>) {
    x.Some? && x.value != 0.0
  }

  /** JavaScript `x || d` on a number that may be absent. */
  function OrElse(x: Option<real>, d: real): (r: real)
    ensures Truthy(x) ==> r == x.value
    ensures !Truthy(x) ==> r == d
  {
    if x.Some? && x.value != 0.0 then x.value else d
  }

  function Min(a: real, b: real): (r: real)
    ensures r <= a && r <= b
    ensures r == a || r == b
  {
    if a <= b then a else b
  }

  function Max(a: real, b: real): (r: real)
    ensures r >= a && r >= b
    ensures r == a || r == b
  {
    if a >= b then a else b
  }

  /** Multiplying by a positive factor preserves strict order. */
  lemma ScaleLess(a: real, b: real, p: real)
    requires p > 0.0
    ensures a * p < b * p <==> a < b
  {
    if a < b {
      assert (b - a) * p > 0.0;
    } else {
      assert (a - b) * p >= 0.0;
    }
  }

  /** A nonzero factor can be cancelled from both sides of an equation. */
  lemma CancelFactor(a: real, b: real, p: real)
    requires p != 0.0
    requires a * p == b * p
    ensures a == b
  {
    var q := if p > 0.0 then p else -p;
    assert a * q == b * q;
    ScaleLess(a, b, q);
    ScaleLess(b, a, q);
  }

  /** For a positive divisor, `n / p` is below 0 or 1 exactly when `n` is below 0 or `p`. */
  lemma QuotientBounds(n: real, p: real)
    requires p > 0.0
    ensures n / p < 0.0 <==> n < 0.0
    ensures n / p < 1.0 <==> n < p
  {
    var q := n / p;
    assert q * p == n;
    ScaleLess(q, 0.0, p);
    ScaleLess(q, 1.0, p);
    assert 1.0 * p == p;
  }

  /** If `m * p == k * n` for a positive `p` and a positive `k`, then `m` is below `k` exactly when `n` is below `p`,
      and `m` has the sign of `n`. */
  lemma ProportionBounds(m: real, p: real, k: real, n: real)
    requires p > 0.0 && k > 0.0
    requires m * p == k * n
    ensures m < k <==> n < p
    ensures m < 0.0 <==> n < 0.0
    ensures m == 0.0 <==> n == 0.0
  {
    ScaleLess(m, k, p);
    ScaleLess(n, p, k);
    assert k * p == p * k;
    ScaleLess(m, 0.0, p);
    ScaleLess(n, 0.0, k);
    ScaleLess(0.0, m, p);
    ScaleLess(0.0, n, k);
  }
}
