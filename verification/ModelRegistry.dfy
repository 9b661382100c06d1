/** Parsing a provider's model list into a catalogue, and resolving a canonical
    id to the raw ids that are still enabled. */
module ModelRegistry {
  import opened Text
  import opened ModelIds
  import opened Grouping
  import opened IdOrder

  /** What `parse_provider_models` returns: the canonical ids, the primary raw
      id of each, every raw id read, and the vendor copies of each. */
  datatype Catalogue = Catalogue(union: set<string>, canonicalMap: map<string, string>,
                                 rawIds: seq<string>, variantMap: map<string, seq<string>>)

  function NonEmpty(raws: seq<string>): seq<string> {
    if raws == [] then [] else
    var front, r := NonEmpty(raws[..|raws| - 1]), raws[|raws| - 1];
    if r == "" then front else front + [r]
  }

  // ------------------------------------------------------------------ parsing

  /** A bucket as it is published: every raw id of the class once, the first
      shortest at the head, the others by length and then by name. */
  ghost predicate Arranged(raws: seq<string>, k: string, copies: seq<string>) {
    && copies != [] && copies[0] == Primary(Canonical, raws, k)
    && Ordered(copies[1..]) && Distinct(copies)
    && forall r :: r in copies <==> r in raws && Canonical(r) == k
  }

  ghost predicate Published(items: seq<string>, cat: Catalogue) {
    && cat.union == cat.canonicalMap.Keys == cat.variantMap.Keys == Classes(Canonical, items)
    && (forall k :: k in cat.canonicalMap ==> cat.canonicalMap[k] == Primary(Canonical, items, k))
    && (forall k :: k in cat.variantMap ==> Arranged(items, k, cat.variantMap[k]))
  }

  lemma {:induction false} ClassesNormal(raws: seq<string>)
    ensures forall k :: k in Classes(Canonical, raws) ==> NormalForm(k)
  {
    if raws != [] {
      ClassesNormal(raws[..|raws| - 1]);
      CanonicalNormal(raws[|raws| - 1]);
    }
  }

  /** The candidate probe: the first candidate that is already a key, else the
      canonical id. It always finds the canonical id. */
  method Matched(raw: string, union: set<string>) returns (matched: string)
    requires Canonical(raw) != "" && forall k :: k in union ==> NormalForm(k)
    ensures matched == Canonical(raw)
  {
    matched := Canonical(raw);
    var candidates := Candidates(raw);
    for i := 0 to |candidates|
      invariant matched == Canonical(raw)
    {
      if candidates[i] in union {
        matched := candidates[i];
        CandidateNeverDiverts(raw, matched);
        break;
      }
    }
  }

  // What the parsing loop has gathered from the ids read so far.
  ghost predicate Gathered(seen: seq<string>, primaries: map<string, string>, rawIds: seq<string>,
                           buckets: map<string, seq<string>>) {
    PrimariesOf(Canonical, seen, primaries) && BucketsOf(Canonical, seen, buckets) && rawIds == NonEmpty(seen)
  }

  method Group(items: seq<string>)
    returns (primaries: map<string, string>, rawIds: seq<string>, buckets: map<string, seq<string>>)
    ensures Gathered(items, primaries, rawIds, buckets)
  {
    primaries, rawIds, buckets := map[], [], map[];
    for i := 0 to |items|
      invariant Gathered(items[..i], primaries, rawIds, buckets)
    {
      primaries, rawIds, buckets := Place(items, i, primaries, rawIds, buckets);
    }
    assert items[..|items|] == items;
  }

  lemma TakeOne(items: seq<string>, i: nat)
    requires i < |items|
    ensures items[..i + 1] == items[..i] + [items[i]]
  {
  }

  lemma NonEmptyTake(items: seq<string>, i: nat)
    requires i < |items|
    ensures NonEmpty(items[..i + 1])
         == if items[i] == "" then NonEmpty(items[..i]) else NonEmpty(items[..i]) + [items[i]]
  {
    assert items[..i + 1][..i] == items[..i];
  }

  /** One round of the parsing loop. */
  method Place(items: seq<string>, i: nat, primaries: map<string, string>, rawIds: seq<string>,
               buckets: map<string, seq<string>>)
    returns (primaries': map<string, string>, rawIds': seq<string>, buckets': map<string, seq<string>>)
    requires i < |items| && Gathered(items[..i], primaries, rawIds, buckets)
    ensures Gathered(items[..i + 1], primaries', rawIds', buckets')
  {
    var raw := items[i];
    ghost var seen := items[..i];
    TakeOne(items, i);
    NonEmptyTake(items, i);
    primaries', rawIds', buckets' := primaries, rawIds, buckets;
    if raw != "" { rawIds' := rawIds' + [raw]; }
    if Canonical(raw) == "" {
      SkipKeeps(Canonical, seen, raw, primaries, buckets);
    } else {
      ClassesNormal(seen);
      var key := Matched(raw, primaries.Keys);
      PrimariesStep(Canonical, seen, raw, key, primaries);
      BucketsStep(Canonical, seen, raw, key, buckets);
      if key !in primaries || |raw| < |primaries[key]| { primaries' := primaries'[key := raw]; }
      var bucket := if key in buckets then buckets[key] else [];
      buckets' := buckets'[key := Added(bucket, raw)];
    }
  }

  lemma Arrange(raws: seq<string>, k: string, rest: seq<string>)
    requires k in Classes(Canonical, raws) && Ordered(rest)
    requires forall r :: r in rest <==> r in Bucket(Canonical, raws, k) && r != Primary(Canonical, raws, k)
    ensures Arranged(raws, k, [Primary(Canonical, raws, k)] + rest)
  {
    BucketExactly(Canonical, raws, k);
    var i := PrimaryIsFirstShortest(Canonical, raws, k);
    OrderedDistinct(rest);
    var copies := [Primary(Canonical, raws, k)] + rest;
    assert copies[1..] == rest;
    assert raws[i] in raws;
  }

  // One bucket: its primary, then the others sorted.
  method ArrangeBucket(ghost items: seq<string>, ghost k: string, bucket: seq<string>, primary: string)
    returns (copies: seq<string>)
    requires k in Classes(Canonical, items)
    requires bucket == Bucket(Canonical, items, k) && primary == Primary(Canonical, items, k)
    ensures Arranged(items, k, copies)
  {
    BucketExactly(Canonical, items, k);
    ghost var i := PrimaryIsFirstShortest(Canonical, items, k);
    var rest := SortedRest(bucket, primary);
    Arrange(items, k, rest);
    copies := [primary] + rest;
  }

  /** `parse_provider_models`: the keys are the canonical ids of the list, and
      every bucket is published arranged. */
  method ParseProviderModels(items: seq<string>) returns (cat: Catalogue)
    ensures Published(items, cat) && cat.rawIds == NonEmpty(items)
  {
    var primaries, rawIds, buckets := Group(items);
    var variants: map<string, seq<string>> := map[];
    var todo := buckets.Keys;
    while todo != {}
      invariant todo <= buckets.Keys && variants.Keys == buckets.Keys - todo
      invariant forall k :: k in variants ==> Arranged(items, k, variants[k])
    {
      var k :| k in todo;
      var copies := ArrangeBucket(items, k, buckets[k], primaries[k]);
      variants := variants[k := copies];
      todo := todo - {k};
    }
    cat := Catalogue(primaries.Keys, primaries, rawIds, variants);
  }

  // --------------------------------------------------------------- resolution

  /** `provider_model_disabled`, on the provider's own table. */
  predicate Disabled(table: map<string, bool>, id: string) {
    var m := Strip(id);
    m != "" && ((m in table && table[m]) || (Lower(m) in table && table[Lower(m)]))
  }

  // dict.get(c) or dict.get(c.lower()) or default.
  function TextOf(m: map<string, string>, c: string): string {
    if c in m && m[c] != "" then m[c] else if Lower(c) in m then m[Lower(c)] else ""
  }

  function CopiesOf(m: map<string, seq<string>>, c: string): seq<string> {
    if c in m && m[c] != [] then m[c] else if Lower(c) in m then m[Lower(c)] else []
  }

  /** `canonical_model_visible`. */
  predicate Visible(table: map<string, bool>, cat: Catalogue, c: string) {
    !Disabled(table, c) &&
    var raw := Strip(TextOf(cat.canonicalMap, c));
    raw == "" || !Disabled(table, raw) ||
    exists r :: r in CopiesOf(cat.variantMap, c) && Strip(r) != "" && !Disabled(table, Strip(r))
  }

  // The primary raw id, as the resolver looks it up.
  function PrimaryOf(cat: Catalogue, c: string): string {
    if c in cat.canonicalMap then cat.canonicalMap[c]
    else if Lower(c) in cat.canonicalMap then cat.canonicalMap[Lower(c)]
    else ""
  }

  // The primary, then the copies in their order, each id once.
  function Collected(primary: string, copies: seq<string>): seq<string> {
    if copies == [] then (if primary == "" then [] else [primary]) else
    var front, raw := Collected(primary, copies[..|copies| - 1]), Strip(copies[|copies| - 1]);
    if raw == "" then front else Added(front, raw)
  }

  function Enabled(table: map<string, bool>, ids: seq<string>): seq<string> {
    if ids == [] then [] else
    var front, id := Enabled(table, ids[..|ids| - 1]), ids[|ids| - 1];
    if Disabled(table, id) then front else front + [id]
  }

  // The enabled raw ids the discovered catalogue offers for c, in order.
  function Offers(table: map<string, bool>, cat: Catalogue, c: string): seq<string> {
    Enabled(table, Collected(PrimaryOf(cat, c), CopiesOf(cat.variantMap, c)))
  }

  /** The part of `resolve_provider_model_candidates` that reads the discovered
      catalogue; it falls back to the canonical id when nothing is offered. */
  method ResolveDiscovered(table: map<string, bool>, cat: Catalogue, c: string) returns (out: seq<string>)
    ensures out == if Offers(table, cat, c) != [] then Offers(table, cat, c) else [c]
  {
    var primary := PrimaryOf(cat, c);
    var raws := CopiesOf(cat.variantMap, c);
    var all := if primary != "" then [primary] else [];
    for i := 0 to |raws|
      invariant all == Collected(primary, raws[..i])
    {
      var raw := Strip(raws[i]);
      assert raws[..i + 1][..i] == raws[..i];
      if raw != "" && raw !in all { all := all + [raw]; }
    }
    assert raws[..|raws|] == raws;
    out := KeepEnabled(table, all);
    if out == [] { out := [c]; }
  }

  method KeepEnabled(table: map<string, bool>, all: seq<string>) returns (out: seq<string>)
    ensures out == Enabled(table, all)
  {
    out := [];
    for i := 0 to |all|
      invariant out == Enabled(table, all[..i])
    {
      assert all[..i + 1][..i] == all[..i];
      if !Disabled(table, all[i]) { out := out + [all[i]]; }
    }
    assert all[..|all|] == all;
  }

  /** `provider_supports_model` for a model that only the discovered catalogue
      knows, after a successful discovery. */
  predicate Supports(table: map<string, bool>, cat: Catalogue, c: string) {
    c == "" || (Visible(table, cat, c) && (c in cat.canonicalMap || Lower(c) in cat.canonicalMap))
  }

  // ------------------------------------------------- what resolution promises

  /** An id is disabled by a switch under its own spelling or in lower case,
      blanks at the ends aside, and by no other switch. */
  lemma DisabledBySpelling(table: map<string, bool>, id: string, k: string, off: bool)
    ensures !Disabled(map[], id)
    ensures Strip(id) != "" && k in [Strip(id), Lower(Strip(id))] ==> Disabled(table[k := true], id)
    ensures k !in [Strip(id), Lower(Strip(id))] ==> Disabled(table[k := off], id) == Disabled(table, id)
  {
  }

  lemma {:induction false} CollectedExactly(primary: string, copies: seq<string>)
    ensures Distinct(Collected(primary, copies))
    ensures forall r :: r in Collected(primary, copies) <==>
      r != "" && (r == primary || exists v :: v in copies && Strip(v) == r)
  {
    if copies != [] {
      var front, last := copies[..|copies| - 1], copies[|copies| - 1];
      CollectedExactly(primary, front);
      assert copies == front + [last];
      assert last in copies;
    }
  }

  lemma {:induction false} EnabledExactly(table: map<string, bool>, ids: seq<string>)
    requires Distinct(ids)
    ensures Distinct(Enabled(table, ids))
    ensures forall r :: r in Enabled(table, ids) <==> r in ids && !Disabled(table, r)
  {
    if ids != [] {
      var front, last := ids[..|ids| - 1], ids[|ids| - 1];
      EnabledExactly(table, front);
      assert ids == front + [last];
    }
  }

  lemma DisabledStripped(table: map<string, bool>, id: string)
    ensures Disabled(table, Strip(id)) == Disabled(table, id)
  {
    StripTwice(id);
  }

  /** What is offered: the distinct enabled ids among the primary and the copies. */
  lemma {:induction false} OffersExactly(table: map<string, bool>, cat: Catalogue, c: string)
    ensures Distinct(Offers(table, cat, c))
    ensures forall r :: r in Offers(table, cat, c) <==>
      && !Disabled(table, r) && r != ""
      && (r == PrimaryOf(cat, c) || exists v :: v in CopiesOf(cat.variantMap, c) && Strip(v) == r)
  {
    CollectedExactly(PrimaryOf(cat, c), CopiesOf(cat.variantMap, c));
    EnabledExactly(table, Collected(PrimaryOf(cat, c), CopiesOf(cat.variantMap, c)));
  }

  /** With a primary raw id that is not blank, a canonical id is visible exactly
      when it is not disabled itself and some raw id is offered for it. */
  lemma {:induction false} VisibleExactly(table: map<string, bool>, cat: Catalogue, c: string)
    requires Strip(PrimaryOf(cat, c)) != ""
    ensures Visible(table, cat, c) <==> !Disabled(table, c) && Offers(table, cat, c) != []
  {
    var primary := PrimaryOf(cat, c);
    var offers := Offers(table, cat, c);
    OffersExactly(table, cat, c);
    DisabledStripped(table, primary);
    assert TextOf(cat.canonicalMap, c) == primary;
    if offers != [] {
      assert offers[0] in offers;
    } else {
      assert primary !in offers;
      forall v | v in CopiesOf(cat.variantMap, c) && Strip(v) != "" ensures Disabled(table, Strip(v)) {
        assert Strip(v) !in offers;
      }
    }
  }

  // The key a published catalogue serves c under.
  function KeyOf(cat: Catalogue, c: string): string {
    if c in cat.canonicalMap then c else Lower(c)
  }

  lemma PublishedEntry(items: seq<string>, cat: Catalogue, c: string)
    requires Published(items, cat) && KeyOf(cat, c) in cat.canonicalMap
    ensures Arranged(items, KeyOf(cat, c), CopiesOf(cat.variantMap, c))
    ensures CopiesOf(cat.variantMap, c)[0] == PrimaryOf(cat, c)
    ensures forall v :: v in CopiesOf(cat.variantMap, c) ==> Strip(v) != ""
  {
    var k := KeyOf(cat, c);
    assert Arranged(items, k, cat.variantMap[k]);
    if c in cat.canonicalMap { assert Arranged(items, c, cat.variantMap[c]); }
    ClassesNormal(items);
    forall v | v in cat.variantMap[k] ensures Strip(v) != "" { LabelBlank(v); }
  }

  lemma LabelBlank(raw: string)
    ensures Canonical(raw) != "" ==> Strip(raw) != ""
  {
  }

  /** A model reported as supported is always served by enabled upstream copies
      of it, never under its own canonical name by default: every id offered is,
      up to surrounding blanks, an upstream id with that normal form. */
  lemma {:induction false} SupportedIsServed(items: seq<string>, table: map<string, bool>, cat: Catalogue, c: string)
    requires Published(items, cat) && c != "" && Supports(table, cat, c)
    ensures Offers(table, cat, c) != []
    ensures forall r :: r in Offers(table, cat, c) ==> !Disabled(table, r) && ServedBy(items, KeyOf(cat, c), r)
  {
    PublishedEntry(items, cat, c);
    OffersExactly(table, cat, c);
    var copies := CopiesOf(cat.variantMap, c);
    assert copies[0] in copies;
    VisibleExactly(table, cat, c);
    forall r | r in Offers(table, cat, c) ensures ServedBy(items, KeyOf(cat, c), r) {
      if r == PrimaryOf(cat, c) {
        assert copies[0] in items;
      } else {
        var v :| v in copies && Strip(v) == r;
        assert v in items;
      }
    }
  }

  ghost predicate ServedBy(items: seq<string>, key: string, r: string) {
    exists v :: v in items && Canonical(v) == key && (r == v || r == Strip(v))
  }

  /** Nothing is withheld either: the ids offered for a catalogued model are
      exactly the enabled ones among its first shortest upstream id and all
      upstream ids with that normal form, stripped. */
  lemma {:induction false} OffersAll(items: seq<string>, table: map<string, bool>, cat: Catalogue, c: string, r: string)
    requires Published(items, cat) && KeyOf(cat, c) in cat.canonicalMap
    ensures var key := KeyOf(cat, c);
      r in Offers(table, cat, c) <==>
        && !Disabled(table, r)
        && ((exists i: nat :: FirstShortest(Canonical, items, key, i) && r == items[i])
            || exists v :: v in items && Canonical(v) == key && Strip(v) == r)
  {
    var key := KeyOf(cat, c);
    PublishedEntry(items, cat, c);
    OffersExactly(table, cat, c);
    var first := PrimaryIsFirstShortest(Canonical, items, key);
    forall i: nat | FirstShortest(Canonical, items, key, i) ensures i == first {}
    PrimaryShown(items, cat, c);
    ClassesNormal(items);
    forall v | v in items && Canonical(v) == key ensures v in CopiesOf(cat.variantMap, c) && Strip(v) != "" {
      LabelBlank(v);
    }
    assert items[first] in items;
  }

  lemma PrimaryShown(items: seq<string>, cat: Catalogue, c: string)
    requires Published(items, cat) && KeyOf(cat, c) in cat.canonicalMap
    ensures PrimaryOf(cat, c) == Primary(Canonical, items, KeyOf(cat, c))
  {
  }

  /** Within a bucket the shorter copies come first. */
  lemma {:induction false} ShorterFirst(items: seq<string>, cat: Catalogue, k: string, a: nat, b: nat)
    requires Published(items, cat) && k in cat.variantMap && a < b < |cat.variantMap[k]|
    ensures |cat.variantMap[k][a]| <= |cat.variantMap[k][b]|
    ensures a > 0 && |cat.variantMap[k][a]| == |cat.variantMap[k][b]| ==>
              LexLess(cat.variantMap[k][a], cat.variantMap[k][b])
  {
    var copies := cat.variantMap[k];
    assert Arranged(items, k, copies);
    if a == 0 {
      var i := PrimaryIsFirstShortest(Canonical, items, k);
      assert copies[b] in copies;
      var j :| 0 <= j < |items| && items[j] == copies[b];
    } else {
      assert copies[1..][a - 1] == copies[a] && copies[1..][b - 1] == copies[b];
    }
  }

  /** When the upstream ids carry no surrounding blanks, the copies are tried
      in the published order: the first shortest, then by length and name. */
  lemma {:induction false} OffersInOrder(items: seq<string>, table: map<string, bool>, cat: Catalogue, c: string)
    requires Published(items, cat) && KeyOf(cat, c) in cat.canonicalMap
    requires forall r :: r in items ==> Strip(r) == r
    ensures Offers(table, cat, c) == Enabled(table, cat.variantMap[KeyOf(cat, c)])
  {
    PublishedEntry(items, cat, c);
    CollectedPlain(CopiesOf(cat.variantMap, c));
  }

  lemma {:induction false} CollectedPlain(copies: seq<string>)
    requires copies != [] && Distinct(copies)
    requires forall v :: v in copies ==> v != "" && Strip(v) == v
    ensures Collected(copies[0], copies) == copies
  {
    var n := |copies| - 1;
    assert copies == copies[..n] + [copies[n]];
    if n == 0 {
      assert copies[..0] == [];
    } else {
      assert forall v :: v in copies[..n] ==> v in copies;
      CollectedPlain(copies[..n]);
      assert copies[n] in copies && copies[n] !in copies[..n];
    }
  }
}
