/** Request counts over time: the in-memory path and the database path of the
    bucketed series. */
module TimeBuckets {
  import opened Options
  import opened BucketMath

  datatype Item = Item(finishedAt: int, status: int, durationMs: int, firstByteMs: int, format: string, model: string)

  // Count, total, largest and smallest of the values seen.
  datatype Spread = Spread(count: nat, total: nat, largest: nat, smallest: Option<nat>)

  datatype Bucket = Bucket(start: int, end: int, requests: nat, success: nat, failed: nat,
                           byFormat: map<string, nat>, byStatus: map<int, nat>, byModel: map<string, nat>,
                           duration: Spread, firstByte: Spread)

  const NO_VALUES := Spread(0, 0, 0, None)

  function NewBucket(start: int, width: int): Bucket {
    Bucket(start, start + width, 0, 0, 0, map[], map[], map[], NO_VALUES, NO_VALUES)
  }

  function Bumped<K>(m: map<K, nat>, k: K): map<K, nat> {
    m[k := (if k in m then m[k] else 0) + 1]
  }

  function AtLeast0(x: int): nat {
    if x < 0 then 0 else x
  }

  function Grown(s: Spread, v: nat): Spread {
    Spread(s.count + 1, s.total + v, if v > s.largest then v else s.largest,
           Some(if s.smallest.None? || v < s.smallest.value then v else s.smallest.value))
  }

  predicate Succeeded(x: Item) {
    x.status < 400
  }

  function FormatOf(x: Item): string {
    if x.format == "" then "unknown" else x.format
  }

  /** `_add_to_bucket`, without the usage totals and the attempts. */
  function Added(b: Bucket, x: Item): Bucket {
    b.(requests := b.requests + 1,
       success := b.success + (if Succeeded(x) then 1 else 0),
       failed := b.failed + (if Succeeded(x) then 0 else 1),
       byFormat := Bumped(b.byFormat, FormatOf(x)),
       byStatus := Bumped(b.byStatus, x.status),
       byModel := Bumped(b.byModel, x.model),
       duration := Grown(b.duration, AtLeast0(x.durationMs)),
       firstByte := if x.firstByteMs > 0 then Grown(b.firstByte, x.firstByteMs) else b.firstByte)
  }

  function AddedAll(b: Bucket, xs: seq<Item>): Bucket {
    if xs == [] then b else Added(AddedAll(b, xs[..|xs| - 1]), xs[|xs| - 1])
  }

  predicate Between(x: Item, lo: int, hi: int) {
    lo <= x.finishedAt < hi
  }

  function Members(xs: seq<Item>, lo: int, hi: int): seq<Item> {
    if xs == [] then []
    else Members(xs[..|xs| - 1], lo, hi) + if Between(xs[|xs| - 1], lo, hi) then [xs[|xs| - 1]] else []
  }

  /** The reference series: every bucket sums the items of its own interval. */
  function Expected(xs: seq<Item>, start: int, width: int, i: nat): Bucket {
    AddedAll(NewBucket(Edge(start, width, i), width), Members(xs, Edge(start, width, i), Edge(start, width, i + 1)))
  }

  ghost predicate Filled(series: seq<Bucket>, xs: seq<Item>, start: int, width: int) {
    forall i :: 0 <= i < |series| ==> series[i] == Expected(xs, start, width, i)
  }

  function WindowEnd(now: int, width: int): int
    requires width > 0
  {
    (now / width + 1) * width
  }

  function Index(x: Item, start: int, width: int, n: nat): int
    requires width > 0
  {
    var raw := (x.finishedAt - start) / width;
    var low := if raw < 0 then 0 else raw;
    if n - 1 < low then n - 1 else low
  }

  lemma MembersSnoc(xs: seq<Item>, k: nat, lo: int, hi: int)
    requires k < |xs|
    ensures Members(xs[..k + 1], lo, hi) == Members(xs[..k], lo, hi) + if Between(xs[k], lo, hi) then [xs[k]] else []
  {
    assert xs[..k + 1][..k] == xs[..k];
  }

  lemma AddedSnoc(b: Bucket, xs: seq<Item>, x: Item)
    ensures AddedAll(b, xs + [x]) == Added(AddedAll(b, xs), x)
  {
    assert (xs + [x])[..|xs|] == xs;
  }

  lemma ExpectedSnoc(xs: seq<Item>, k: nat, start: int, width: int, i: nat)
    requires k < |xs|
    ensures Expected(xs[..k + 1], start, width, i) ==
      if Between(xs[k], Edge(start, width, i), Edge(start, width, i + 1))
      then Added(Expected(xs[..k], start, width, i), xs[k]) else Expected(xs[..k], start, width, i)
  {
    var lo, hi := Edge(start, width, i), Edge(start, width, i + 1);
    MembersSnoc(xs, k, lo, hi);
    if Between(xs[k], lo, hi) {
      AddedSnoc(NewBucket(lo, width), Members(xs[..k], lo, hi), xs[k]);
    } else {
      assert Members(xs[..k], lo, hi) + [] == Members(xs[..k], lo, hi);
    }
  }

  /** Adding one item in the window touches exactly the bucket it belongs to;
      the clamp of the index never takes effect. */
  lemma {:induction false} PlaceInWindow(series: seq<Bucket>, xs: seq<Item>, k: nat, start: int, width: int)
    requires width > 0 && k < |xs| && Filled(series, xs[..k], start, width)
    requires Between(xs[k], start, Edge(start, width, |series|))
    ensures var i := Index(xs[k], start, width, |series|);
      0 <= i < |series| && i == (xs[k].finishedAt - start) / width
      && Filled(series[i := Added(series[i], xs[k])], xs[..k + 1], start, width)
  {
    var x := xs[k];
    IndexExact(x.finishedAt, start, width, |series|, 0);
    var i := Index(x, start, width, |series|);
    var next := series[i := Added(series[i], x)];
    forall j | 0 <= j < |next| ensures next[j] == Expected(xs[..k + 1], start, width, j) {
      IndexExact(x.finishedAt, start, width, |series|, j);
      ExpectedSnoc(xs, k, start, width, j);
    }
  }

  lemma {:induction false} SkipOutside(series: seq<Bucket>, xs: seq<Item>, k: nat, start: int, width: int)
    requires width > 0 && k < |xs| && Filled(series, xs[..k], start, width)
    requires !Between(xs[k], start, Edge(start, width, |series|))
    ensures Filled(series, xs[..k + 1], start, width)
  {
    forall j | 0 <= j < |series| ensures series[j] == Expected(xs[..k + 1], start, width, j) {
      ExpectedSnoc(xs, k, start, width, j);
      Scaled(0, j, width);
      Scaled(j + 1, |series|, width);
    }
  }

  /** The buckets, empty, from `start`. */
  method EmptySeries(start: int, width: int, n: nat) returns (series: array<Bucket>)
    ensures fresh(series) && series.Length == n && Filled(series[..], [], start, width)
  {
    series := new Bucket[n](i => NewBucket(Edge(start, width, i), width));
  }

  /** The in-memory path: items outside the window are skipped. */
  method MemorySeries(recent: seq<Item>, start: int, width: int, n: nat) returns (series: array<Bucket>)
    requires width > 0
    ensures fresh(series) && series.Length == n && Filled(series[..], recent, start, width)
  {
    series := EmptySeries(start, width, n);
    var end := Edge(start, width, n);
    for k := 0 to |recent|
      invariant Filled(series[..], recent[..k], start, width)
    {
      var x := recent[k];
      if x.finishedAt < start || x.finishedAt >= end {
        SkipOutside(series[..], recent, k, start, width);
      } else {
        PlaceInWindow(series[..], recent, k, start, width);
        var i := Index(x, start, width, n);
        ghost var before := series[..];
        series[i] := Added(series[i], x);
        assert series[..] == before[i := Added(before[i], x)];
      }
    }
    assert recent[..|recent|] == recent;
  }

  /** The database path: the query returns the rows of the window, in order of
      time, and every row is added. */
  method SqliteSeries(rows: seq<Item>, start: int, width: int, n: nat) returns (series: array<Bucket>)
    requires width > 0 && forall x :: x in rows ==> Between(x, start, Edge(start, width, n))
    ensures fresh(series) && series.Length == n && Filled(series[..], rows, start, width)
  {
    series := EmptySeries(start, width, n);
    for k := 0 to |rows|
      invariant Filled(series[..], rows[..k], start, width)
    {
      assert rows[k] in rows;
      PlaceInWindow(series[..], rows, k, start, width);
      var i := Index(rows[k], start, width, n);
      ghost var before := series[..];
      series[i] := Added(series[i], rows[k]);
      assert series[..] == before[i := Added(before[i], rows[k])];
    }
    assert rows[..|rows|] == rows;
  }
}
