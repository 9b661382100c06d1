/** Grouping a list of names by a label, in the order of first occurrence. The
    label of a name is whatever function the caller passes. */
module Grouping {
  type Labelling = string -> string

  // The labels of a list; a blank one is not a class.
  function Classes(f: Labelling, raws: seq<string>): set<string> {
    if raws == [] then {} else
    var front, c := Classes(f, raws[..|raws| - 1]), f(raws[|raws| - 1]);
    if c == "" then front else front + {c}
  }

  // The distinct names of a class, in the order of their first occurrence.
  function Bucket(f: Labelling, raws: seq<string>, k: string): seq<string> {
    if raws == [] then [] else
    var front, r := Bucket(f, raws[..|raws| - 1], k), raws[|raws| - 1];
    if f(r) == k && r !in front then front + [r] else front
  }

  // The first of the shortest names of a class.
  function Primary(f: Labelling, raws: seq<string>, k: string): string {
    if raws == [] then "" else
    var front, r := Primary(f, raws[..|raws| - 1], k), raws[|raws| - 1];
    if f(r) == k && (front == "" || |r| < |front|) then r else front
  }

  predicate Distinct(s: seq<string>) {
    forall i, j :: 0 <= i < j < |s| ==> s[i] != s[j]
  }

  /** The buckets partition the list: a bucket holds each name of its class
      once, and nothing else. */
  lemma {:induction false} BucketExactly(f: Labelling, raws: seq<string>, k: string)
    ensures Distinct(Bucket(f, raws, k))
    ensures forall r :: r in Bucket(f, raws, k) <==> r in raws && f(r) == k
  {
    if raws != [] {
      var front, last := raws[..|raws| - 1], raws[|raws| - 1];
      BucketExactly(f, front, k);
      assert raws == front + [last];
    }
  }

  lemma {:induction false} ClassesExactly(f: Labelling, raws: seq<string>, k: string)
    ensures k in Classes(f, raws) <==> k != "" && exists r :: r in raws && f(r) == k
  {
    if raws != [] {
      var front, last := raws[..|raws| - 1], raws[|raws| - 1];
      ClassesExactly(f, front, k);
      assert raws == front + [last];
      assert last in raws;
    }
  }

  // Index i holds the first of the shortest names of class k.
  ghost predicate FirstShortest(f: Labelling, raws: seq<string>, k: string, i: nat) {
    && i < |raws| && f(raws[i]) == k
    && (forall j :: 0 <= j < |raws| && f(raws[j]) == k ==> |raws[i]| <= |raws[j]|)
    && (forall j :: 0 <= j < i && f(raws[j]) == k ==> |raws[i]| < |raws[j]|)
  }

  /** The primary name is the first of the shortest of its class. */
  lemma {:induction false} PrimaryIsFirstShortest(f: Labelling, raws: seq<string>, k: string) returns (i: nat)
    requires k in Classes(f, raws) && f("") == ""
    ensures FirstShortest(f, raws, k, i) && raws[i] == Primary(f, raws, k)
  {
    var n := |raws| - 1;
    var front, last := raws[..n], raws[n];
    assert raws == front + [last];
    ClassesExactly(f, raws, k);
    if k in Classes(f, front) {
      i := PrimaryIsFirstShortest(f, front, k);
      if f(last) == k && |last| < |front[i]| { i := n; }
    } else {
      ClassesExactly(f, front, k);
      PrimaryNone(f, front, k);
      i := n;
      forall j | 0 <= j < n ensures f(raws[j]) != k { assert front[j] in front; }
    }
  }

  lemma {:induction false} PrimaryNone(f: Labelling, raws: seq<string>, k: string)
    requires forall r :: r in raws ==> f(r) != k
    ensures Primary(f, raws, k) == "" && Bucket(f, raws, k) == []
  {
    if raws != [] {
      assert raws[|raws| - 1] in raws;
      PrimaryNone(f, raws[..|raws| - 1], k);
    }
  }

  // The two maps kept while the names are read.
  ghost predicate PrimariesOf(f: Labelling, raws: seq<string>, primaries: map<string, string>) {
    primaries.Keys == Classes(f, raws) && forall k :: k in primaries ==> primaries[k] == Primary(f, raws, k)
  }

  ghost predicate BucketsOf(f: Labelling, raws: seq<string>, buckets: map<string, seq<string>>) {
    buckets.Keys == Classes(f, raws) && forall k :: k in buckets ==> buckets[k] == Bucket(f, raws, k)
  }

  function Added(bucket: seq<string>, raw: string): seq<string> {
    if raw in bucket then bucket else bucket + [raw]
  }

  /** Reading one more name of class `key` keeps the primaries: the new name
      takes over only when it is strictly shorter. */
  lemma PrimariesStep(f: Labelling, seen: seq<string>, raw: string, key: string, primaries: map<string, string>)
    requires PrimariesOf(f, seen, primaries) && f("") == "" && key == f(raw) != ""
    ensures PrimariesOf(f, seen + [raw],
              if key !in primaries || |raw| < |primaries[key]| then primaries[key := raw] else primaries)
  {
    var now := seen + [raw];
    assert now[..|now| - 1] == seen && now[|now| - 1] == raw;
    if key in primaries {
      var i := PrimaryIsFirstShortest(f, seen, key);
    } else {
      ClassesExactly(f, seen, key);
      PrimaryNone(f, seen, key);
    }
  }

  lemma BucketsStep(f: Labelling, seen: seq<string>, raw: string, key: string, buckets: map<string, seq<string>>)
    requires BucketsOf(f, seen, buckets) && key == f(raw) != ""
    ensures BucketsOf(f, seen + [raw], buckets[key := Added(if key in buckets then buckets[key] else [], raw)])
  {
    var now := seen + [raw];
    assert now[..|now| - 1] == seen && now[|now| - 1] == raw;
    if key !in buckets {
      ClassesExactly(f, seen, key);
      PrimaryNone(f, seen, key);
    }
  }

  lemma SkipKeeps(f: Labelling, seen: seq<string>, raw: string,
                  primaries: map<string, string>, buckets: map<string, seq<string>>)
    requires PrimariesOf(f, seen, primaries) && BucketsOf(f, seen, buckets) && f(raw) == ""
    ensures PrimariesOf(f, seen + [raw], primaries) && BucketsOf(f, seen + [raw], buckets)
  {
    var now := seen + [raw];
    assert now[..|now| - 1] == seen && now[|now| - 1] == raw;
    ClassesExactly(f, seen, "");
  }
}
