/** Exact real arithmetic used by the scroll and layout formulas: `Math.min`, `Math.max`, `Math.ceil`, `Math.floor` bands. */
module RealArith {

  function Min(a: real, b: real): real { if a <= b then a else b }
  function Max(a: real, b: real): real { if a >= b then a else b }

  /** `Math.ceil`: the least integer not below `x`. */
  function Ceil(x: real): (n: int)
    ensures x <= n as real < x + 1.0
  {
    -((-x).Floor)
  }

  lemma CeilMonotone(x: real, y: real)
    requires x <= y
    ensures Ceil(x) <= Ceil(y)
  {
  }

  lemma FloorMonotone(x: real, y: real)
    requires x <= y
    ensures x.Floor <= y.Floor
  {
  }

  lemma ScaleLeq(a: real, b: real, factor: real)
    requires factor > 0.0 && a <= b
    ensures a * factor <= b * factor
  {
    assert (b - a) * factor >= 0.0;
  }

  lemma ScaleLess(a: real, b: real, factor: real)
    requires factor > 0.0 && a < b
    ensures a * factor < b * factor
  {
    assert (b - a) * factor > 0.0;
  }

  lemma ScaleLeqIff(a: real, b: real, factor: real)
    requires factor > 0.0
    ensures a <= b <==> a * factor <= b * factor
  {
    if a <= b {
      ScaleLeq(a, b, factor);
    } else {
      ScaleLess(b, a, factor);
    }
  }

  /** For `v = d / e` with `e > 0`, bounds on `v` are bounds on `d` scaled by `e`. */
  lemma ScaledBounds(v: real, e: real, d: real, lo: real, hi: real)
    requires e > 0.0 && v * e == d
    ensures lo <= v <==> lo * e <= d
    ensures v <= hi <==> d <= hi * e
  {
    ScaleLeqIff(lo, v, e);
    ScaleLeqIff(v, hi, e);
  }

  /** Bands of width `h` are ordered like their numbers: band `s` is at least `k` iff it lies at or above `k * h`. */
  lemma BandAtLeast(t: real, h: real, s: int, k: int)
    requires h > 0.0 && s as real * h <= t < (s + 1) as real * h
    ensures s >= k <==> k as real * h <= t
  {
    if s >= k {
      ScaleLeq(k as real, s as real, h);
    } else {
      ScaleLeq((s + 1) as real, k as real, h);
    }
  }

  /** `Math.floor(t / h)` names the band of width `h` that holds `t`. */
  lemma FloorBand(t: real, h: real)
    requires h > 0.0
    ensures (t / h).Floor as real * h <= t
    ensures t < ((t / h).Floor + 1) as real * h
  {
    var q := t / h;
    var f := q.Floor as real;
    assert q * h == t;
    assert f <= q;
    ScaleLeq(f, q, h);
    assert q < f + 1.0;
    ScaleLess(q, f + 1.0, h);
    assert t < (f + 1.0) * h;
    assert ((t / h).Floor + 1) as real * h == (f + 1.0) * h;
  }
}
