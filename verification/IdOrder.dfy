/** The order in which the copies of a model are tried. */
module IdOrder {
  import opened Grouping

  // ------------------------------------------------------- ordering a bucket

  predicate LexLess(a: string, b: string) {
    b != "" && (a == "" || a[0] < b[0] || (a[0] == b[0] && LexLess(a[1..], b[1..])))
  }

  // The sort key (len(item), item).
  predicate Before(a: string, b: string) {
    |a| < |b| || (|a| == |b| && LexLess(a, b))
  }

  predicate Ordered(s: seq<string>) {
    forall i, j :: 0 <= i < j < |s| ==> Before(s[i], s[j])
  }

  lemma LexTotal(a: string, b: string)
    requires a != b
    ensures LexLess(a, b) || LexLess(b, a)
  {
    if a != "" && b != "" && a[0] == b[0] {
      assert a == [a[0]] + a[1..] && b == [b[0]] + b[1..];
      LexTotal(a[1..], b[1..]);
    }
  }

  lemma LexTransitive(a: string, b: string, c: string)
    requires LexLess(a, b) && LexLess(b, c)
    ensures LexLess(a, c)
  {
    if a != "" && a[0] == b[0] && b[0] == c[0] { LexTransitive(a[1..], b[1..], c[1..]); }
  }

  /** The order of names is by code point at the first difference; a proper
      prefix comes first. */
  lemma {:induction false} LexExactly(a: string, b: string)
    ensures LexLess(a, b) <==>
      (|a| < |b| && b[..|a|] == a) || exists i :: 0 <= i < |a| && i < |b| && a[..i] == b[..i] && a[i] < b[i]
  {
    if a == "" {
      assert b[..0] == "";
    } else if b != "" {
      assert a[..0] == b[..0];
      if a[0] == b[0] {
        LexExactly(a[1..], b[1..]);
        LexPrefix(a, b);
        LexFirst(a, b);
      } else {
        forall i | 0 < i < |a| && i < |b| ensures a[..i] != b[..i] { assert a[..i][0] != b[..i][0]; }
        if |a| < |b| { assert b[..|a|][0] != a[0]; }
      }
    }
  }

  lemma LexPrefix(a: string, b: string)
    requires a != "" && b != "" && a[0] == b[0]
    ensures |a| < |b| && b[..|a|] == a <==> |a[1..]| < |b[1..]| && b[1..][..|a| - 1] == a[1..]
  {
    if |a| < |b| {
      assert b[..|a|] == [b[0]] + b[1..][..|a| - 1] && a == [a[0]] + a[1..];
      assert b[..|a|][1..] == b[1..][..|a| - 1];
    }
  }

  lemma LexFirst(a: string, b: string)
    requires a != "" && b != "" && a[0] == b[0]
    ensures (exists i :: 0 <= i < |a| && i < |b| && a[..i] == b[..i] && a[i] < b[i])
       <==> exists i :: 0 <= i < |a[1..]| && i < |b[1..]| && a[1..][..i] == b[1..][..i] && a[1..][i] < b[1..][i]
  {
    forall i | 0 < i < |a| && i < |b| ensures a[..i] == b[..i] <==> a[1..][..i - 1] == b[1..][..i - 1] {
      assert a[..i] == [a[0]] + a[1..][..i - 1] && b[..i] == [b[0]] + b[1..][..i - 1];
      assert a[..i][1..] == a[1..][..i - 1] && b[..i][1..] == b[1..][..i - 1];
    }
    if i :| 0 <= i < |a| && i < |b| && a[..i] == b[..i] && a[i] < b[i] {
      assert a[1..][i - 1] == a[i] && b[1..][i - 1] == b[i];
    }
    if i :| 0 <= i < |a[1..]| && i < |b[1..]| && a[1..][..i] == b[1..][..i] && a[1..][i] < b[1..][i] {
      assert a[..i + 1] == [a[0]] + a[1..][..i] && b[..i + 1] == [b[0]] + b[1..][..i];
    }
  }

  lemma LexStrict(a: string)
    ensures !LexLess(a, a)
  {
  }

  lemma BeforeTransitive(a: string, b: string, c: string)
    requires Before(a, b) && Before(b, c)
    ensures Before(a, c)
  {
    if |a| == |b| == |c| { LexTransitive(a, b, c); }
  }

  function Insert(x: string, s: seq<string>): seq<string> {
    if s == [] then [x]
    else if Before(x, s[0]) then [x] + s
    else [s[0]] + Insert(x, s[1..])
  }

  lemma {:induction false} InsertKeeps(x: string, s: seq<string>)
    requires Ordered(s) && x !in s
    ensures Ordered(Insert(x, s))
    ensures forall y :: y in Insert(x, s) <==> y == x || y in s
  {
    if s == [] {
    } else if Before(x, s[0]) {
      forall j | 0 < j < |s| ensures Before(x, s[j]) { BeforeTransitive(x, s[0], s[j]); }
    } else {
      assert s == [s[0]] + s[1..];
      LexTotal(x, s[0]);
      InsertKeeps(x, s[1..]);
      ConsOrdered(s[0], Insert(x, s[1..]));
    }
  }

  lemma ConsOrdered(x: string, s: seq<string>)
    requires Ordered(s) && forall y :: y in s ==> Before(x, y)
    ensures Ordered([x] + s)
  {
    forall i, j | 0 <= i < j < |[x] + s| ensures Before(([x] + s)[i], ([x] + s)[j]) {
      assert s[j - 1] in s;
    }
  }

  lemma {:induction false} OrderedDistinct(s: seq<string>)
    requires Ordered(s)
    ensures Distinct(s)
  {
    forall i, j | 0 <= i < j < |s| ensures s[i] != s[j] { LexStrict(s[i]); }
  }

  /** A strictly ordered list is the only one with its elements: the order of a
      bucket does not depend on the order of the upstream list. */
  lemma {:induction false} OrderedUnique(a: seq<string>, b: seq<string>)
    requires Ordered(a) && Ordered(b) && (forall x :: x in a <==> x in b)
    ensures a == b
  {
    BothEmpty(a, b);
    BothEmpty(b, a);
    if a != [] {
      assert a == [a[0]] + a[1..] && b == [b[0]] + b[1..];
      HeadLeast(a, b);
      OrderedDistinct(a);
      OrderedDistinct(b);
      forall x ensures x in a[1..] <==> x in b[1..] { TailIn(a, x); TailIn(b, x); }
      OrderedUnique(a[1..], b[1..]);
    }
  }

  lemma BothEmpty(a: seq<string>, b: seq<string>)
    requires forall x :: x in a ==> x in b
    ensures b == [] ==> a == []
  {
    if a != [] { assert a[0] in b; }
  }

  lemma TailIn(s: seq<string>, x: string)
    requires Distinct(s) && s != []
    ensures x in s[1..] <==> x in s && x != s[0]
  {
    assert s == [s[0]] + s[1..];
  }

  lemma HeadLeast(a: seq<string>, b: seq<string>)
    requires a != [] && b != [] && Ordered(a) && Ordered(b)
    requires forall x :: x in a <==> x in b
    ensures a[0] == b[0]
  {
    assert a[0] in a && b[0] in b;
    var i :| 0 <= i < |b| && b[i] == a[0];
    var j :| 0 <= j < |a| && a[j] == b[0];
    if i > 0 && j > 0 {
      BeforeTransitive(a[0], b[0], a[0]);
      LexStrict(a[0]);
      assert false;
    }
  }

  /** sorted(raws, key=lambda item: (len(item), item)), without the primary. */
  method SortedRest(raws: seq<string>, primary: string) returns (ordered: seq<string>)
    requires Distinct(raws)
    ensures Ordered(ordered)
    ensures forall r :: r in ordered <==> r in raws && r != primary
  {
    ordered := [];
    for i := 0 to |raws|
      invariant Ordered(ordered)
      invariant forall r :: r in ordered <==> r in raws[..i] && r != primary
    {
      assert raws[..i + 1] == raws[..i] + [raws[i]];
      assert raws[i] !in raws[..i];
      if raws[i] != primary {
        InsertKeeps(raws[i], ordered);
        ordered := Insert(raws[i], ordered);
      }
    }
    assert raws[..|raws|] == raws;
  }
}
