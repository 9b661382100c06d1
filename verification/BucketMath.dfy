/** The arithmetic of time buckets: which bucket a time falls into, and an
    average rounded half to even. */
module BucketMath {
  // Bucket i of a series starts here.
  function Edge(start: int, width: int, i: int): int {
    start + i * width
  }

  /** A time in the window falls into exactly one bucket, and its index is
      already within the series. */
  lemma {:induction false} IndexExact(t: int, start: int, width: int, n: nat, i: int)
    requires width > 0 && start <= t < Edge(start, width, n)
    ensures 0 <= (t - start) / width < n
    ensures Edge(start, width, i) <= t < Edge(start, width, i + 1) <==> i == (t - start) / width
  {
    var q, r := (t - start) / width, (t - start) % width;
    assert t - start == q * width + r && 0 <= r < width;
    Apart(q, i, width);
    Apart(i, q, width);
    Apart(q, n, width);
    if q < 0 { Scaled(q, -1, width); }
    if q >= n { Scaled(n, q, width); }
    assert (i + 1) * width == i * width + width;
  }

  lemma Scaled(a: int, b: int, width: int)
    requires a <= b && width > 0
    ensures a * width <= b * width
  {
    assert (b - a) * width >= 0;
    assert (b - a) * width == b * width - a * width;
  }

  lemma Apart(a: int, b: int, width: int)
    requires width > 0
    ensures a < b ==> a * width + width <= b * width
  {
    if a < b {
      Scaled(a + 1, b, width);
      assert (a + 1) * width == a * width + width;
    }
  }

  /** round(total / count), half to even. */
  function Rounded(total: nat, count: nat): nat
    requires count > 0
  {
    var q, r := total / count, total % count;
    if 2 * r < count then q
    else if 2 * r > count then q + 1
    else if q % 2 == 0 then q
    else q + 1
  }

  /** The rounded average lies between any bounds of the values. */
  lemma {:induction false} RoundedBetween(total: nat, count: nat, low: nat, high: nat)
    requires count > 0 && low * count <= total <= high * count
    ensures low <= Rounded(total, count) <= high
  {
    var q, r := total / count, total % count;
    assert total == q * count + r && 0 <= r < count;
    if q < low { Apart(q, low, count); }
    if q > high { Apart(high, q, count); }
    if q == high { assert r == 0; }
  }

  /** It is a nearest integer to the exact quotient. */
  lemma {:induction false} RoundedNearest(total: nat, count: nat)
    requires count > 0
    ensures var a := Rounded(total, count); 2 * total - count <= 2 * a * count <= 2 * total + count
  {
    var q, r := total / count, total % count;
    assert total == q * count + r && 0 <= r < count;
    assert 2 * (q + 1) * count == 2 * (q * count) + 2 * count;
    assert 2 * q * count == 2 * (q * count);
  }

  /** Between two integers it is the even one. */
  lemma HalfToEven(total: nat, count: nat, k: nat)
    requires count > 0 && 2 * total == 2 * (k * count) + count
    ensures Rounded(total, count) == if k % 2 == 0 then k else k + 1
  {
    var q, r := total / count, total % count;
    assert total == q * count + r && 0 <= r < count;
    Apart(q, k, count);
    Apart(k, q, count);
  }
}
