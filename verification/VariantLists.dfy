/** The variant list of a model as the admin API accepts it: checked, without
    repeats, by falling priority. */
module VariantLists {
  import opened Json
  import opened Options
  import opened Text
  import opened IdText

  const MAX_VARIANTS := 32
  const MAX_PRIORITY := 1000

  /** A submitted entry: an id, or an object with an id and what int() makes of
      its priority, or anything else. */
  datatype Entry = Id(s: string) | Ranked(s: string, priority: Option<int>) | Junk

  datatype Variant = Variant(model: string, priority: int, index: nat)

  predicate EntryValid(e: Entry) {
    match e
    case Id(s) => ValidIdText(Strip(s))
    case Ranked(s, priority) =>
      ValidIdText(Strip(s)) && priority.Some? && -MAX_PRIORITY <= priority.value <= MAX_PRIORITY
    case Junk => false
  }

  predicate Accepted(entries: seq<Entry>) {
    |entries| <= MAX_VARIANTS && forall e :: e in entries ==> EntryValid(e)
  }

  function ModelOf(e: Entry): string {
    if e.Junk? then "" else Strip(e.s)
  }

  function VariantOf(e: Entry, index: nat): Variant
    requires EntryValid(e)
  {
    Variant(ModelOf(e), if e.Id? then 0 else e.priority.value, index)
  }

  // The entries as they are read.
  function Read(entries: seq<Entry>): seq<Variant>
    requires forall e :: e in entries ==> EntryValid(e)
  {
    seq(|entries|, i requires 0 <= i < |entries| => VariantOf(entries[i], i))
  }

  // The first variant of each model, in the order submitted.
  function Firsts(vs: seq<Variant>): seq<Variant> {
    if vs == [] then [] else
    var front, v := Firsts(vs[..|vs| - 1]), vs[|vs| - 1];
    if Has(front, v.model) then front else front + [v]
  }

  predicate Has(vs: seq<Variant>, model: string) {
    exists v :: v in vs && v.model == model
  }

  // The sort key (-priority, index).
  predicate Before(a: Variant, b: Variant) {
    a.priority > b.priority || (a.priority == b.priority && a.index < b.index)
  }

  predicate Ordered(vs: seq<Variant>) {
    forall i, j :: 0 <= i < j < |vs| ==> Before(vs[i], vs[j])
  }

  function Insert(x: Variant, vs: seq<Variant>): seq<Variant> {
    if vs == [] then [x]
    else if Before(x, vs[0]) then [x] + vs
    else [vs[0]] + Insert(x, vs[1..])
  }

  function Arranged(vs: seq<Variant>): seq<Variant> {
    if vs == [] then [] else Insert(vs[|vs| - 1], Arranged(vs[..|vs| - 1]))
  }

  lemma {:induction false} InsertOrdered(x: Variant, vs: seq<Variant>)
    requires Ordered(vs) && forall v :: v in vs ==> v.index != x.index
    ensures Ordered(Insert(x, vs))
    ensures multiset(Insert(x, vs)) == multiset(vs) + multiset{x}
  {
    if vs != [] && !Before(x, vs[0]) {
      assert vs == [vs[0]] + vs[1..];
      InsertOrdered(x, vs[1..]);
      InsertAfter(vs[0], x, vs[1..]);
    }
  }

  // What follows the head still follows it.
  lemma InsertAfter(head: Variant, x: Variant, tail: seq<Variant>)
    requires Ordered([head] + tail) && !Before(x, head) && x.index != head.index
    requires Ordered(Insert(x, tail)) && multiset(Insert(x, tail)) == multiset(tail) + multiset{x}
    ensures Ordered([head] + Insert(x, tail))
  {
    var rest := Insert(x, tail);
    forall j | 0 <= j < |rest| ensures Before(head, rest[j]) {
      assert rest[j] in multiset(rest);
      if rest[j] != x {
        assert rest[j] in multiset(tail);
        var i :| 0 <= i < |tail| && tail[i] == rest[j];
        assert ([head] + tail)[0] == head && ([head] + tail)[i + 1] == rest[j];
      }
    }
  }

  predicate Indexed(vs: seq<Variant>) {
    forall i, j :: 0 <= i < j < |vs| ==> vs[i].index < vs[j].index
  }

  /** The stored list has exactly the accepted variants, by falling priority, and
      those of one priority in the order submitted. */
  lemma {:induction false} ArrangedOrdered(vs: seq<Variant>)
    requires Indexed(vs)
    ensures Ordered(Arranged(vs)) && multiset(Arranged(vs)) == multiset(vs)
  {
    if vs != [] {
      var front, x := vs[..|vs| - 1], vs[|vs| - 1];
      ArrangedOrdered(front);
      assert vs == front + [x];
      forall v | v in Arranged(front) ensures v.index != x.index {
        assert v in multiset(front);
      }
      InsertOrdered(x, Arranged(front));
    }
  }

  // A variant is the first of its model.
  predicate FirstOf(vs: seq<Variant>, v: Variant) {
    v in vs && forall u :: u in vs && u.model == v.model ==> v.index <= u.index
  }

  /** Each model is listed once: the listed variants are exactly the first ones
      of their models. */
  lemma {:induction false} FirstsExactly(vs: seq<Variant>)
    requires Indexed(vs)
    ensures Indexed(Firsts(vs))
    ensures forall v :: v in Firsts(vs) <==> FirstOf(vs, v)
  {
    if vs != [] {
      var front, x := vs[..|vs| - 1], vs[|vs| - 1];
      assert vs == front + [x];
      FirstsExactly(front);
      forall v | v in front ensures v.index < x.index {}
      ModelsListed(front);
      forall v ensures v in Firsts(vs) <==> FirstOf(vs, v) { LastFirst(front, x, v); }
    }
  }

  lemma {:induction false} ModelsListed(vs: seq<Variant>)
    ensures forall v :: v in vs ==> Has(Firsts(vs), v.model)
    ensures forall v :: v in Firsts(vs) ==> v in vs
  {
    if vs != [] {
      var front, x := vs[..|vs| - 1], vs[|vs| - 1];
      assert vs == front + [x];
      ModelsListed(front);
      HasMore(Firsts(front), x);
    }
  }

  lemma LastFirst(front: seq<Variant>, x: Variant, v: Variant)
    requires forall u :: u in front ==> u.index < x.index && Has(Firsts(front), u.model)
    requires forall u :: u in Firsts(front) <==> FirstOf(front, u)
    ensures v in Firsts(front + [x]) <==> FirstOf(front + [x], v)
  {
    assert (front + [x])[..|front|] == front;
    assert v in front + [x] <==> v in front || v == x;
    assert x in front + [x];
    if v in Firsts(front) { assert FirstOf(front, v); }
  }

  function Stored(vs: seq<Variant>): seq<Json> {
    seq(|vs|, i requires 0 <= i < |vs| =>
      Obj(map[Name("model") := Str(vs[i].model), Name("priority") := Num(vs[i].priority, 0)]))
  }

  /** A list is accepted when it has at most 32 entries and each of them names a
      valid id, with a whole priority from -1000 to 1000 where it gives one. */
  lemma AcceptedExactly(entries: seq<Entry>)
    ensures Accepted(entries) <==>
      |entries| <= 32 && forall i :: 0 <= i < |entries| ==>
        match entries[i]
        case Id(s) => ValidIdText(Strip(s))
        case Ranked(s, priority) =>
          ValidIdText(Strip(s)) && priority.Some? && priority.value <= 1000 && priority.value >= -1000
        case Junk => false
  {
    if Accepted(entries) {
      forall i | 0 <= i < |entries| ensures EntryValid(entries[i]) { assert entries[i] in entries; }
    }
  }

  // The list as it is stored.
  function Cleaned(entries: seq<Entry>): seq<Json>
    requires Accepted(entries)
  {
    Stored(Arranged(Firsts(Read(entries))))
  }

  // ------------------------------------------------- the stored list, by entry

  // The id an entry names.
  function Names(e: Entry): Option<string> {
    match e
    case Id(s) => Some(Strip(s))
    case Ranked(s, _) => Some(Strip(s))
    case Junk => None
  }

  // A plain id has priority 0.
  function Given(e: Entry): int {
    if e.Ranked? && e.priority.Some? then e.priority.value else 0
  }

  // No earlier entry names the same model.
  predicate FirstMention(entries: seq<Entry>, i: nat) {
    i < |entries| && forall j :: 0 <= j < i ==> Names(entries[j]) != Names(entries[i])
  }

  // What is stored for an entry.
  predicate Shows(v: Json, e: Entry) {
    Names(e).Some? && v == Obj(map[Name("model") := Str(Names(e).value), Name("priority") := Num(Given(e), 0)])
  }

  // Entry i ranks before entry j.
  predicate Outranks(entries: seq<Entry>, i: nat, j: nat) {
    && i < |entries| && j < |entries|
    && (Given(entries[i]) > Given(entries[j]) || (Given(entries[i]) == Given(entries[j]) && i < j))
  }

  lemma ReadAt(entries: seq<Entry>, i: nat)
    requires Accepted(entries) && i < |entries|
    ensures EntryValid(entries[i]) && Read(entries)[i] == VariantOf(entries[i], i)
    ensures Some(Read(entries)[i].model) == Names(entries[i]) && Read(entries)[i].priority == Given(entries[i])
  {
    assert entries[i] in entries;
  }

  lemma FirstRead(entries: seq<Entry>, v: Variant)
    requires Accepted(entries) && FirstOf(Read(entries), v)
    ensures v.index < |entries| && v == Read(entries)[v.index] && FirstMention(entries, v.index)
  {
    var i :| 0 <= i < |entries| && Read(entries)[i] == v;
    ReadAt(entries, i);
    forall j | 0 <= j < i ensures Names(entries[j]) != Names(entries[i]) {
      ReadAt(entries, j);
      assert Read(entries)[j] in Read(entries);
    }
  }

  lemma MentionFirst(entries: seq<Entry>, i: nat)
    requires Accepted(entries) && FirstMention(entries, i)
    ensures FirstOf(Read(entries), Read(entries)[i])
  {
    var read := Read(entries);
    ReadAt(entries, i);
    forall u | u in read && u.model == read[i].model ensures read[i].index <= u.index {
      var j :| 0 <= j < |read| && read[j] == u;
      ReadAt(entries, j);
    }
  }

  // Which entry each arranged variant comes from.
  function Places(vs: seq<Variant>): (at: seq<nat>)
    ensures |at| == |vs|
  {
    seq(|vs|, a requires 0 <= a < |vs| => vs[a].index)
  }

  lemma ArrangedFrom(entries: seq<Entry>, a: nat)
    requires Accepted(entries) && a < |Arranged(Firsts(Read(entries)))|
    ensures var v := Arranged(Firsts(Read(entries)))[a];
      v.index < |entries| && v == Read(entries)[v.index] && FirstMention(entries, v.index)
  {
    var read := Read(entries);
    ReadIndexed(entries);
    FirstsExactly(read);
    ArrangedOrdered(Firsts(read));
    assert Arranged(Firsts(read))[a] in multiset(Firsts(read));
    FirstRead(entries, Arranged(Firsts(read))[a]);
  }

  lemma ReadIndexed(entries: seq<Entry>)
    requires Accepted(entries)
    ensures Indexed(Read(entries))
  {
    forall i | 0 <= i < |entries| ensures Read(entries)[i].index == i { ReadAt(entries, i); }
  }

  lemma MentionArranged(entries: seq<Entry>, i: nat)
    requires Accepted(entries) && FirstMention(entries, i)
    ensures Read(entries)[i] in Arranged(Firsts(Read(entries)))
  {
    var read := Read(entries);
    MentionFirst(entries, i);
    ReadIndexed(entries);
    FirstsExactly(read);
    ArrangedOrdered(Firsts(read));
    assert read[i] in multiset(Firsts(read));
    assert read[i] in multiset(Arranged(Firsts(read)));
  }

  /** The stored list holds, for each model that is submitted, its first entry
      with the priority given there, by falling priority and then in the order
      submitted: `at` tells which entry each stored variant comes from. */
  lemma {:induction false} CleanedExactly(entries: seq<Entry>) returns (at: seq<nat>)
    requires Accepted(entries)
    ensures |at| == |Cleaned(entries)|
    ensures forall a :: 0 <= a < |at| ==> FirstMention(entries, at[a]) && Shows(Cleaned(entries)[a], entries[at[a]])
    ensures forall i: nat :: FirstMention(entries, i) ==> i in at
    ensures forall a, b :: 0 <= a < b < |at| ==> Outranks(entries, at[a], at[b])
  {
    var vs := Arranged(Firsts(Read(entries)));
    at := Places(vs);
    forall a | 0 <= a < |at| ensures FirstMention(entries, at[a]) && Shows(Cleaned(entries)[a], entries[at[a]]) {
      ArrangedFrom(entries, a);
      ReadAt(entries, at[a]);
    }
    forall i: nat | FirstMention(entries, i) ensures i in at {
      MentionArranged(entries, i);
      ReadAt(entries, i);
      var a :| 0 <= a < |vs| && vs[a] == Read(entries)[i];
      assert at[a] == i;
    }
    forall a, b | 0 <= a < b < |at| ensures Outranks(entries, at[a], at[b]) { RanksKept(entries, a, b); }
  }

  lemma RanksKept(entries: seq<Entry>, a: nat, b: nat)
    requires Accepted(entries) && a < b < |Arranged(Firsts(Read(entries)))|
    ensures var vs := Arranged(Firsts(Read(entries))); Outranks(entries, vs[a].index, vs[b].index)
  {
    var vs := Arranged(Firsts(Read(entries)));
    ReadIndexed(entries);
    FirstsExactly(Read(entries));
    ArrangedOrdered(Firsts(Read(entries)));
    assert Before(vs[a], vs[b]);
    ArrangedFrom(entries, a);
    ArrangedFrom(entries, b);
    ReadAt(entries, vs[a].index);
    ReadAt(entries, vs[b].index);
  }

  lemma {:induction false} CleanedEmpty(entries: seq<Entry>)
    requires Accepted(entries)
    ensures Cleaned(entries) == [] <==> entries == []
  {
    var at := CleanedExactly(entries);
    if entries != [] {
      assert entries[0] in entries;
      assert FirstMention(entries, 0);
      assert 0 in at;
    }
  }

  /** The loop of `update_provider_model_variants`, then its sort. */
  method CleanVariants(entries: seq<Entry>) returns (ok: bool, clean: seq<Variant>)
    ensures ok <==> Accepted(entries)
    ensures ok ==> clean == Arranged(Firsts(Read(entries))) && Stored(clean) == Cleaned(entries)
  {
    if |entries| > MAX_VARIANTS { return false, []; }
    var found: seq<Variant>, seen: set<string> := [], {};
    for i := 0 to |entries|
      invariant forall e :: e in entries[..i] ==> EntryValid(e)
      invariant found == Firsts(Read(entries[..i]))
      invariant forall model :: model in seen <==> Has(found, model)
    {
      if !EntryValid(entries[i]) {
        assert entries[i] in entries;
        return false, [];
      }
      assert entries[..i + 1] == entries[..i] + [entries[i]];
      var v := VariantOf(entries[i], i);
      FirstsMore(entries, i);
      if v.model !in seen {
        HasMore(found, v);
        seen := seen + {v.model};
        found := found + [v];
      }
    }
    assert entries[..|entries|] == entries;
    clean := SortVariants(found);
    ok := true;
  }

  lemma ReadMore(entries: seq<Entry>, i: nat)
    requires i < |entries| && forall e :: e in entries[..i + 1] ==> EntryValid(e)
    requires forall e :: e in entries[..i] ==> EntryValid(e)
    ensures EntryValid(entries[i])
    ensures var read := Read(entries[..i + 1]);
      read == Read(entries[..i]) + [VariantOf(entries[i], i)] && read[..|read| - 1] == Read(entries[..i])
  {
    assert entries[..i + 1][i] == entries[i];
  }

  // One more entry adds its variant unless its model is listed.
  lemma FirstsMore(entries: seq<Entry>, i: nat)
    requires i < |entries| && forall e :: e in entries[..i + 1] ==> EntryValid(e)
    requires forall e :: e in entries[..i] ==> EntryValid(e)
    ensures EntryValid(entries[i])
    ensures var front, v := Firsts(Read(entries[..i])), VariantOf(entries[i], i);
            Firsts(Read(entries[..i + 1])) == if Has(front, v.model) then front else front + [v]
  {
    ReadMore(entries, i);
  }

  lemma HasMore(vs: seq<Variant>, v: Variant)
    ensures forall model :: Has(vs + [v], model) <==> Has(vs, model) || model == v.model
  {
    forall model ensures Has(vs + [v], model) <==> Has(vs, model) || model == v.model {
      if Has(vs, model) {
        var u :| u in vs && u.model == model;
        assert u in vs + [v];
      }
      assert v in vs + [v];
    }
  }

  method SortVariants(vs: seq<Variant>) returns (out: seq<Variant>)
    ensures out == Arranged(vs)
  {
    out := [];
    for i := 0 to |vs|
      invariant out == Arranged(vs[..i])
    {
      assert vs[..i + 1][..i] == vs[..i];
      out := Insert(vs[i], out);
    }
    assert vs[..|vs|] == vs;
  }
}
