/** Appending what every element contributes. */
module Sequences {

  function FlatMap<A, B>(f: A -> seq<B>, s: seq<A>): seq<B> {
    if s == [] then [] else FlatMap(f, s[..|s| - 1]) + f(s[|s| - 1])
  }

  lemma FlatMapSnoc<A, B>(f: A -> seq<B>, s: seq<A>, x: A)
    ensures FlatMap(f, s + [x]) == FlatMap(f, s) + f(x)
  {
    assert (s + [x])[..|s|] == s;
  }

  lemma FlatMapOne<A, B>(f: A -> seq<B>, x: A)
    ensures FlatMap(f, [x]) == f(x)
  {
    assert [x][..0] == [];
    assert [] + f(x) == f(x);
  }

  lemma {:induction false} FlatMapConcat<A, B>(f: A -> seq<B>, a: seq<A>, b: seq<A>)
    ensures FlatMap(f, a + b) == FlatMap(f, a) + FlatMap(f, b)
  {
    if b == [] {
      assert a + b == a;
      assert FlatMap(f, a) + [] == FlatMap(f, a);
    } else {
      var front, last := b[..|b| - 1], b[|b| - 1];
      assert a + b == (a + front) + [last];
      FlatMapConcat(f, a, front);
      FlatMapSnoc(f, a + front, last);
      Associate(FlatMap(f, a), FlatMap(f, front), f(last));
    }
  }

  lemma Associate<T>(x: seq<T>, y: seq<T>, z: seq<T>)
    ensures (x + y) + z == x + (y + z)
  {
  }

  // Nothing comes of elements that contribute nothing.
  lemma {:induction false} FlatMapNone<A, B>(f: A -> seq<B>, s: seq<A>)
    requires forall x :: x in s ==> f(x) == []
    ensures FlatMap(f, s) == []
  {
    if s != [] {
      FlatMapNone(f, s[..|s| - 1]);
      assert s[|s| - 1] in s;
    }
  }

  // Filtering the parts filters the whole.
  lemma {:induction false} FlatMapThrough<A, B, C>(f: A -> seq<B>, g: B -> seq<C>, h: A -> seq<C>, s: seq<A>)
    requires forall x :: x in s ==> FlatMap(g, f(x)) == h(x)
    ensures FlatMap(g, FlatMap(f, s)) == FlatMap(h, s)
  {
    if s != [] {
      var front, last := s[..|s| - 1], s[|s| - 1];
      FlatMapThrough(f, g, h, front);
      FlatMapConcat(g, FlatMap(f, front), f(last));
      assert last in s;
    }
  }

  // Two ways to contribute that agree on every element agree on the whole.
  lemma {:induction false} FlatMapAgree<A, B>(f: A -> seq<B>, g: A -> seq<B>, s: seq<A>)
    requires forall x :: x in s ==> f(x) == g(x)
    ensures FlatMap(f, s) == FlatMap(g, s)
  {
    if s != [] {
      FlatMapAgree(f, g, s[..|s| - 1]);
      assert s[|s| - 1] in s;
    }
  }

  lemma {:induction false} FlatMapFrom<A, B>(f: A -> seq<B>, s: seq<A>, y: B)
    requires y in FlatMap(f, s)
    ensures exists x :: x in s && y in f(x)
  {
    var front, last := s[..|s| - 1], s[|s| - 1];
    if y in f(last) {
      assert last in s;
    } else {
      FlatMapFrom(f, front, y);
    }
  }
}
