/** How often an interval fits into a span, rounded up. */
module Ceilings {
  function Ceiling(x: real): int {
    -((-x).Floor)
  }

  /** ceil(span / interval). */
  function Fits(span: real, interval: real): (n: nat)
    requires span >= 0.0 && interval > 0.0
    ensures span <= n as real * interval
  {
    var x := span / interval;
    assert x * interval == span;
    assert x >= 0.0 && Ceiling(x) as real >= x;
    ScaleUp(x, Ceiling(x) as real, interval);
    Ceiling(x)
  }

  lemma ScaleUp(x: real, y: real, d: real)
    requires x <= y && d >= 0.0
    ensures x * d <= y * d
  {
  }

  /** It is the least such number: one interval less falls short of the span. */
  lemma FitsLeast(span: real, interval: real)
    requires span >= 0.0 && interval > 0.0
    ensures Fits(span, interval) as real * interval < span + interval
  {
    var x, n := span / interval, Fits(span, interval);
    assert n as real < x + 1.0;
    ScaleBelow(n as real, x + 1.0, interval);
    OneMore(x, interval);
  }

  lemma OneMore(x: real, d: real)
    ensures (x + 1.0) * d == x * d + d
  {
  }

  lemma ScaleBelow(x: real, y: real, d: real)
    requires x < y && d > 0.0
    ensures x * d < y * d
  {
  }

  lemma CountBelow(n: nat, m: nat, d: real)
    requires n as real * d < m as real * d && d > 0.0
    ensures n < m
  {
    if n >= m { ScaleUp(m as real, n as real, d); }
  }
}
