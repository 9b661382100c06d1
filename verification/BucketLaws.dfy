/** What a bucketed series says about the requests it was built from. */
module BucketLaws {
  import opened Options
  import opened BucketMath
  import opened TimeBuckets

  /** The window ends on the first edge after `now` and holds the present. */
  lemma {:induction false} WindowHoldsNow(now: int, width: int, n: nat)
    requires width > 0 && n > 0
    ensures var end := WindowEnd(now, width);
      && now < end <= now + width && end - width * n <= now && Edge(end - width * n, width, n) == end
      && end % width == 0
  {
    var q := now / width;
    assert now == q * width + now % width;
    assert (q + 1) * width == q * width + width;
    Scaled(1, n, width);
    assert n * width == width * n;
    Multiple(q + 1, width);
  }

  lemma Multiple(q: int, width: int)
    requires width > 0
    ensures q * width % width == 0
  {
    var r := q * width % width;
    var d := q * width / width;
    assert q * width == d * width + r && 0 <= r < width;
    Apart(d, q, width);
    Apart(q, d, width);
  }

  /** The buckets of a series follow each other without gap or overlap, from its
      start, each as wide as asked. */
  lemma {:induction false} BucketsAdjoin(series: seq<Bucket>, xs: seq<Item>, start: int, width: int, i: nat)
    requires Filled(series, xs, start, width) && i < |series|
    ensures series[i].end - series[i].start == width
    ensures i == 0 ==> series[i].start == start
    ensures i > 0 ==> series[i].start == series[i - 1].end
  {
    var at := Edge(start, width, i);
    SameInterval(NewBucket(at, width), Members(xs, at, Edge(start, width, i + 1)));
    if i > 0 {
      var lo := Edge(start, width, i - 1);
      SameInterval(NewBucket(lo, width), Members(xs, lo, Edge(start, width, i)));
      assert i * width == (i - 1) * width + width;
    }
  }

  lemma {:induction false} SameInterval(b: Bucket, xs: seq<Item>)
    ensures AddedAll(b, xs).start == b.start && AddedAll(b, xs).end == b.end
  {
    if xs != [] { SameInterval(b, xs[..|xs| - 1]); }
  }

  // ------------------------------------------------------------- conservation

  function Requests(series: seq<Bucket>): nat {
    if series == [] then 0 else Requests(series[..|series| - 1]) + series[|series| - 1].requests
  }

  lemma {:induction false} CountsMembers(b: Bucket, xs: seq<Item>)
    ensures AddedAll(b, xs).requests == b.requests + |xs|
    ensures AddedAll(b, xs).success + AddedAll(b, xs).failed == b.success + b.failed + |xs|
  {
    if xs != [] { CountsMembers(b, xs[..|xs| - 1]); }
  }

  lemma {:induction false} MembersSplit(xs: seq<Item>, lo: int, mid: int, hi: int)
    requires lo <= mid <= hi
    ensures |Members(xs, lo, hi)| == |Members(xs, lo, mid)| + |Members(xs, mid, hi)|
  {
    if xs != [] { MembersSplit(xs[..|xs| - 1], lo, mid, hi); }
  }

  lemma {:induction false} MembersEmpty(xs: seq<Item>, at: int)
    ensures Members(xs, at, at) == []
  {
    if xs != [] { MembersEmpty(xs[..|xs| - 1], at); }
  }

  lemma EdgesOrdered(start: int, width: int, n: nat)
    requires width > 0
    ensures start <= Edge(start, width, n) <= Edge(start, width, n + 1)
  {
    Scaled(0, n, width);
    Scaled(n, n + 1, width);
  }

  /** Bucketing conserves requests: the counts add up to the items of the window. */
  lemma {:induction false} RequestsConserved(series: seq<Bucket>, xs: seq<Item>, start: int, width: int)
    requires width > 0 && Filled(series, xs, start, width)
    ensures Requests(series) == |Members(xs, start, Edge(start, width, |series|))|
  {
    if series == [] {
      MembersEmpty(xs, start);
    } else {
      var n := |series| - 1;
      RequestsConserved(series[..n], xs, start, width);
      EdgesOrdered(start, width, n);
      MembersSplit(xs, start, Edge(start, width, n), Edge(start, width, n + 1));
      CountsMembers(NewBucket(Edge(start, width, n), width),
                    Members(xs, Edge(start, width, n), Edge(start, width, n + 1)));
    }
  }

  /** In every bucket success plus failed equals requests. */
  lemma {:induction false} OutcomesAddUp(series: seq<Bucket>, xs: seq<Item>, start: int, width: int, i: nat)
    requires Filled(series, xs, start, width) && i < |series|
    ensures series[i].success + series[i].failed == series[i].requests
    ensures series[i].requests == |Members(xs, Edge(start, width, i), Edge(start, width, i + 1))|
  {
    CountsMembers(NewBucket(Edge(start, width, i), width),
        Members(xs, Edge(start, width, i), Edge(start, width, i + 1)));
  }

  function Tally<K>(m: map<K, nat>, k: K): nat {
    if k in m then m[k] else 0
  }

  function CountIf(xs: seq<Item>, p: Item -> bool): nat {
    if xs == [] then 0 else CountIf(xs[..|xs| - 1], p) + if p(xs[|xs| - 1]) then 1 else 0
  }

  // The members of a bucket that a breakdown counts under one key.
  function HasModel(k: string): Item -> bool { (x: Item) => x.model == k }
  function HasStatus(k: int): Item -> bool { (x: Item) => x.status == k }
  function HasFormat(k: string): Item -> bool {
    (x: Item) => k != "" && (x.format == k || (k == "unknown" && x.format == ""))
  }

  // An outcome is a success below status 400.
  function Answered(): Item -> bool { (x: Item) => x.status < 400 }

  lemma {:induction false} BreakdownsCount(start: int, width: int, xs: seq<Item>, name: string, status: int)
    ensures var b := AddedAll(NewBucket(start, width), xs);
      && Tally(b.byModel, name) == CountIf(xs, HasModel(name))
      && Tally(b.byFormat, name) == CountIf(xs, HasFormat(name))
      && Tally(b.byStatus, status) == CountIf(xs, HasStatus(status))
      && b.success == CountIf(xs, Answered())
  {
    if xs != [] { BreakdownsCount(start, width, xs[..|xs| - 1], name, status); }
  }

  /** Every breakdown of a bucket counts the items of its interval. */
  lemma {:induction false} BreakdownsExact(series: seq<Bucket>, xs: seq<Item>, start: int, width: int, i: nat,
                                           name: string, status: int)
    requires Filled(series, xs, start, width) && i < |series|
    ensures var own := Members(xs, Edge(start, width, i), Edge(start, width, i + 1));
      && Tally(series[i].byModel, name) == CountIf(own, HasModel(name))
      && Tally(series[i].byFormat, name) == CountIf(own, HasFormat(name))
      && Tally(series[i].byStatus, status) == CountIf(own, HasStatus(status))
      && series[i].success == CountIf(own, Answered())
  {
    BreakdownsCount(Edge(start, width, i), width, Members(xs, Edge(start, width, i), Edge(start, width, i + 1)),
                    name, status);
  }

  // --------------------------------------------------------- the two paths agree

  lemma GrownSwap(s: Spread, v: nat, w: nat)
    ensures Grown(Grown(s, v), w) == Grown(Grown(s, w), v)
  {
  }

  lemma BumpedSwap<K>(m: map<K, nat>, j: K, k: K)
    ensures Bumped(Bumped(m, j), k) == Bumped(Bumped(m, k), j)
  {
    var a, b := Bumped(Bumped(m, j), k), Bumped(Bumped(m, k), j);
    assert a.Keys == b.Keys;
    forall x | x in a ensures a[x] == b[x] {}
  }

  // Two items in a bucket may be added in either order.
  lemma AddedSwap(b: Bucket, x: Item, y: Item)
    ensures Added(Added(b, x), y) == Added(Added(b, y), x)
  {
    BumpedSwap(b.byFormat, FormatOf(x), FormatOf(y));
    BumpedSwap(b.byStatus, x.status, y.status);
    BumpedSwap(b.byModel, x.model, y.model);
    GrownSwap(b.duration, AtLeast0(x.durationMs), AtLeast0(y.durationMs));
    if x.firstByteMs > 0 && y.firstByteMs > 0 { GrownSwap(b.firstByte, x.firstByteMs, y.firstByteMs); }
  }

  lemma {:induction false} AddedLate(b: Bucket, front: seq<Item>, x: Item, back: seq<Item>)
    ensures AddedAll(b, front + [x] + back) == Added(AddedAll(b, front + back), x)
  {
    if back == [] {
      assert front + [x] + back == front + [x] && front + back == front;
      AddedSnoc(b, front, x);
    } else {
      var rest, y := back[..|back| - 1], back[|back| - 1];
      assert front + [x] + back == (front + [x] + rest) + [y];
      assert front + back == (front + rest) + [y];
      AddedSnoc(b, front + [x] + rest, y);
      AddedSnoc(b, front + rest, y);
      AddedLate(b, front, x, rest);
      AddedSwap(AddedAll(b, front + rest), x, y);
    }
  }

  lemma SameWithout(front: seq<Item>, x: Item, ys: seq<Item>, i: nat)
    requires i < |ys| && ys[i] == x && multiset(front + [x]) == multiset(ys)
    ensures ys == ys[..i] + [x] + ys[i + 1..] && multiset(front) == multiset(ys[..i] + ys[i + 1..])
  {
    assert ys == ys[..i] + [x] + ys[i + 1..];
    var rest := multiset(ys[..i]) + multiset(ys[i + 1..]);
    assert multiset(ys) == rest + multiset{x};
    assert multiset(front + [x]) == multiset(front) + multiset{x};
    assert multiset(front) == multiset(front + [x]) - multiset{x};
    assert rest == multiset(ys) - multiset{x};
    assert multiset(ys[..i] + ys[i + 1..]) == rest;
  }

  /** A bucket depends on which items it got, not on their order. */
  lemma {:induction false} AddedAnyOrder(b: Bucket, xs: seq<Item>, ys: seq<Item>)
    requires multiset(xs) == multiset(ys)
    ensures AddedAll(b, xs) == AddedAll(b, ys)
    decreases |xs|
  {
    if xs == [] {
      assert |multiset(ys)| == 0;
      assert ys == [];
    } else {
      var front, x := xs[..|xs| - 1], xs[|xs| - 1];
      assert xs == front + [x];
      assert x in multiset(xs);
      var i :| 0 <= i < |ys| && ys[i] == x;
      SameWithout(front, x, ys, i);
      AddedAnyOrder(b, front, ys[..i] + ys[i + 1..]);
      AddedLate(b, ys[..i], x, ys[i + 1..]);
    }
  }

  lemma {:induction false} MembersCount(xs: seq<Item>, lo: int, hi: int, x: Item)
    ensures multiset(Members(xs, lo, hi))[x] == if Between(x, lo, hi) then multiset(xs)[x] else 0
  {
    if xs != [] {
      assert xs == xs[..|xs| - 1] + [xs[|xs| - 1]];
      MembersCount(xs[..|xs| - 1], lo, hi, x);
    }
  }

  // An item as the history table stores it.
  function Stored(x: Item): Item {
    x.(durationMs := AtLeast0(x.durationMs), firstByteMs := AtLeast0(x.firstByteMs), format := FormatOf(x))
  }

  function StoredAll(xs: seq<Item>): seq<Item> {
    if xs == [] then [] else StoredAll(xs[..|xs| - 1]) + [Stored(xs[|xs| - 1])]
  }

  lemma {:induction false} StoredAdds(b: Bucket, xs: seq<Item>)
    ensures AddedAll(b, StoredAll(xs)) == AddedAll(b, xs)
  {
    if xs != [] {
      var front, x := xs[..|xs| - 1], xs[|xs| - 1];
      StoredAdds(b, front);
      AddedSnoc(b, StoredAll(front), Stored(x));
      assert Added(AddedAll(b, front), Stored(x)) == Added(AddedAll(b, front), x);
    }
  }

  lemma {:induction false} StoredMembers(xs: seq<Item>, lo: int, hi: int)
    ensures Members(StoredAll(xs), lo, hi) == StoredAll(Members(xs, lo, hi))
  {
    if xs != [] {
      var front, x := xs[..|xs| - 1], xs[|xs| - 1];
      StoredMembers(front, lo, hi);
      assert StoredAll(xs)[..|StoredAll(front)|] == StoredAll(front);
      var own := Members(front, lo, hi);
      assert (own + [x])[..|own|] == own;
      assert own + [] == own && StoredAll(own) + [] == StoredAll(own);
    }
  }

  /** Whatever the order of the memory list, the database path, which reads the
      rows that the items of the window were stored as, gives the same series. */
  lemma {:induction false} PathsAgree(recent: seq<Item>, rows: seq<Item>, start: int, width: int, n: nat,
                                      memory: seq<Bucket>, sqlite: seq<Bucket>)
    requires width > 0 && |memory| == |sqlite| == n
    requires multiset(rows) == multiset(StoredAll(Members(recent, start, Edge(start, width, n))))
    requires Filled(memory, recent, start, width) && Filled(sqlite, rows, start, width)
    ensures memory == sqlite
  {
    forall i | 0 <= i < n ensures memory[i] == Expected(StoredAll(recent), start, width, i) {
      var lo, hi := Edge(start, width, i), Edge(start, width, i + 1);
      StoredMembers(recent, lo, hi);
      StoredAdds(NewBucket(lo, width), Members(recent, lo, hi));
    }
    StoredMembers(recent, start, Edge(start, width, n));
    SameItemsAgree(StoredAll(recent), rows, start, width, n, memory, sqlite);
  }

  lemma {:induction false} SameItemsAgree(recent: seq<Item>, rows: seq<Item>, start: int, width: int, n: nat,
                                          memory: seq<Bucket>, sqlite: seq<Bucket>)
    requires width > 0 && |memory| == |sqlite| == n
    requires multiset(rows) == multiset(Members(recent, start, Edge(start, width, n)))
    requires Filled(memory, recent, start, width) && Filled(sqlite, rows, start, width)
    ensures memory == sqlite
  {
    forall i | 0 <= i < n ensures memory[i] == sqlite[i] {
      var lo, hi := Edge(start, width, i), Edge(start, width, i + 1);
      Scaled(0, i, width);
      Scaled(i + 1, n, width);
      SameMembers(recent, rows, start, Edge(start, width, n), lo, hi);
      AddedAnyOrder(NewBucket(lo, width), Members(recent, lo, hi), Members(rows, lo, hi));
    }
  }

  lemma SameMembers(recent: seq<Item>, rows: seq<Item>, start: int, end: int, lo: int, hi: int)
    requires start <= lo && hi <= end && multiset(rows) == multiset(Members(recent, start, end))
    ensures multiset(Members(recent, lo, hi)) == multiset(Members(rows, lo, hi))
  {
    forall x: Item ensures multiset(Members(recent, lo, hi))[x] == multiset(Members(rows, lo, hi))[x] {
      MembersCount(recent, lo, hi, x);
      MembersCount(rows, lo, hi, x);
      MembersCount(recent, start, end, x);
    }
  }

  // -------------------------------------------------------------- the averages

  // The spread of a list of values.
  function SpreadOf(vs: seq<nat>): Spread {
    if vs == [] then NO_VALUES else Grown(SpreadOf(vs[..|vs| - 1]), vs[|vs| - 1])
  }

  function Durations(xs: seq<Item>): seq<nat> {
    if xs == [] then [] else
    var front, ms := Durations(xs[..|xs| - 1]), xs[|xs| - 1].durationMs;
    front + [if ms >= 0 then ms else 0]
  }

  function FirstBytes(xs: seq<Item>): seq<nat> {
    if xs == [] then [] else
    var front, x := FirstBytes(xs[..|xs| - 1]), xs[|xs| - 1];
    if x.firstByteMs > 0 then front + [x.firstByteMs] else front
  }

  lemma {:induction false} SpreadsOfMembers(start: int, width: int, xs: seq<Item>)
    ensures AddedAll(NewBucket(start, width), xs).duration == SpreadOf(Durations(xs))
    ensures AddedAll(NewBucket(start, width), xs).firstByte == SpreadOf(FirstBytes(xs))
  {
    if xs != [] {
      SpreadsOfMembers(start, width, xs[..|xs| - 1]);
    }
  }

  function Sum(vs: seq<nat>): nat {
    if vs == [] then 0 else Sum(vs[..|vs| - 1]) + vs[|vs| - 1]
  }

  /** The spread holds the count, the sum, the largest and the smallest value. */
  lemma {:induction false} SpreadMeans(vs: seq<nat>)
    ensures SpreadOf(vs).count == |vs| && SpreadOf(vs).total == Sum(vs)
    ensures vs != [] ==> SpreadOf(vs).smallest.Some? && SpreadOf(vs).smallest.value in vs && SpreadOf(vs).largest in vs
    ensures forall v :: v in vs ==>
              SpreadOf(vs).smallest.Some? && SpreadOf(vs).smallest.value <= v <= SpreadOf(vs).largest
  {
    if vs != [] {
      var front, v := vs[..|vs| - 1], vs[|vs| - 1];
      assert vs == front + [v];
      SpreadMeans(front);
      if front == [] { assert SpreadOf(front) == NO_VALUES; }
    }
  }

  lemma {:induction false} SumBetween(vs: seq<nat>, low: nat, high: nat)
    requires forall v :: v in vs ==> low <= v <= high
    ensures low * |vs| <= Sum(vs) <= high * |vs|
  {
    if vs != [] {
      var front, v := vs[..|vs| - 1], vs[|vs| - 1];
      assert v in vs && forall w :: w in front ==> w in vs;
      SumBetween(front, low, high);
      OneMore(low, |front|);
      OneMore(high, |front|);
    }
  }

  lemma OneMore(x: nat, n: nat)
    ensures x * (n + 1) == x * n + x
  {
  }

  /** A finished row of the series, with the averages and a zero for a missing
      minimum. */
  datatype Row = Row(bucket: Bucket, durationAvg: nat, durationMin: nat, firstByteAvg: nat, firstByteMin: nat)

  function Average(s: Spread): nat {
    if s.count == 0 then 0 else Rounded(s.total, s.count)
  }

  function Smallest(s: Spread): nat {
    if s.smallest.None? then 0 else s.smallest.value
  }

  /** min <= rounded average <= max, and the average is a nearest integer to the
      exact mean of the values. */
  lemma {:induction false} AverageBetween(vs: seq<nat>)
    requires vs != []
    ensures var s := SpreadOf(vs);
      Smallest(s) <= Average(s) <= s.largest
      && 2 * Sum(vs) - |vs| <= 2 * Average(s) * |vs| <= 2 * Sum(vs) + |vs|
  {
    var s := SpreadOf(vs);
    SpreadMeans(vs);
    SumBetween(vs, s.smallest.value, s.largest);
    RoundedBetween(s.total, s.count, s.smallest.value, s.largest);
    RoundedNearest(s.total, s.count);
  }

  /** In every bucket with requests the reported duration average lies between
      the smallest and the largest duration; likewise for the first byte. */
  lemma {:induction false} AveragesInBucket(series: seq<Bucket>, xs: seq<Item>, start: int, width: int, i: nat)
    requires Filled(series, xs, start, width) && i < |series|
    ensures series[i].requests > 0 ==>
      Smallest(series[i].duration) <= Average(series[i].duration) <= series[i].duration.largest
    ensures series[i].firstByte.count > 0 ==>
      Smallest(series[i].firstByte) <= Average(series[i].firstByte) <= series[i].firstByte.largest
    ensures series[i].duration.count == series[i].requests >= series[i].firstByte.count
  {
    var own := Members(xs, Edge(start, width, i), Edge(start, width, i + 1));
    SpreadsOfMembers(Edge(start, width, i), width, own);
    CountsMembers(NewBucket(Edge(start, width, i), width), own);
    ValuesCount(own);
    SpreadMeans(Durations(own));
    SpreadMeans(FirstBytes(own));
    if own != [] { AverageBetween(Durations(own)); }
    if FirstBytes(own) != [] { AverageBetween(FirstBytes(own)); }
  }

  lemma {:induction false} ValuesCount(xs: seq<Item>)
    ensures |Durations(xs)| == |xs| >= |FirstBytes(xs)|
  {
    if xs != [] { ValuesCount(xs[..|xs| - 1]); }
  }

  // What a published triple says of the values behind it.
  predicate Summarises(average: nat, smallest: nat, largest: nat, vs: seq<nat>) {
    if vs == [] then average == 0 && smallest == 0
    else
      && smallest in vs && largest in vs && (forall v :: v in vs ==> smallest <= v <= largest)
      && smallest <= average <= largest
      && 2 * Sum(vs) - |vs| <= 2 * average * |vs| <= 2 * Sum(vs) + |vs|
  }

  lemma {:induction false} SpreadSummarises(vs: seq<nat>)
    ensures Summarises(Average(SpreadOf(vs)), Smallest(SpreadOf(vs)), SpreadOf(vs).largest, vs)
  {
    SpreadMeans(vs);
    if vs != [] { AverageBetween(vs); }
  }

  // The row of a bucket is true of the bucket's own items.
  predicate Honest(row: Row, own: seq<Item>) {
    && Summarises(row.durationAvg, row.durationMin, row.bucket.duration.largest, Durations(own))
    && Summarises(row.firstByteAvg, row.firstByteMin, row.bucket.firstByte.largest, FirstBytes(own))
  }

  lemma RowHonest(series: seq<Bucket>, xs: seq<Item>, start: int, width: int, i: nat)
    requires Filled(series, xs, start, width) && i < |series|
    ensures Honest(RowOf(series[i]), Members(xs, Edge(start, width, i), Edge(start, width, i + 1)))
  {
    var own := Members(xs, Edge(start, width, i), Edge(start, width, i + 1));
    SpreadsOfMembers(Edge(start, width, i), width, own);
    SpreadSummarises(Durations(own));
    SpreadSummarises(FirstBytes(own));
  }

  function RowOf(b: Bucket): Row {
    Row(b, Average(b.duration), Smallest(b.duration), Average(b.firstByte), Smallest(b.firstByte))
  }

  /** The closing loop: every published row keeps its bucket and summarises the
      items of the bucket's interval, with zeros where there are none. */
  method Finish(series: array<Bucket>, ghost xs: seq<Item>, ghost start: int, ghost width: int) returns (rows: seq<Row>)
    requires Filled(series[..], xs, start, width)
    ensures |rows| == series.Length
    ensures forall i :: 0 <= i < |rows| ==>
      rows[i].bucket == series[i] && Honest(rows[i], Members(xs, Edge(start, width, i), Edge(start, width, i + 1)))
  {
    rows := [];
    for i := 0 to series.Length
      invariant |rows| == i
      invariant forall j :: 0 <= j < i ==>
        rows[j].bucket == series[j] && Honest(rows[j], Members(xs, Edge(start, width, j), Edge(start, width, j + 1)))
    {
      RowHonest(series[..], xs, start, width, i);
      var b := series[i];
      rows := rows + [Row(b, Average(b.duration), Smallest(b.duration), Average(b.firstByte), Smallest(b.firstByte))];
    }
  }
}
