/** What a reader finds in the effective configuration, path by path: the
    overlay's values, and the base file's where the overlay says nothing. */
module ConfigReads {
  import opened Options
  import opened Json
  import opened ConfigOverlay

  // The value at the end of a path of object keys.
  function Get(v: Json, path: seq<Key>): Option<Json> {
    if path == [] then Some(v)
    else if v.Obj? && path[0] in v.fields then Get(v.fields[path[0]], path[1..])
    else None
  }

  // The layer has no value on the way: it ends at an object without the key.
  predicate Untouched(s: Section, path: seq<Key>)
    decreases |path|
  {
    path != [] && (path[0] !in s || (s[path[0]].Obj? && Untouched(s[path[0]].fields, path[1..])))
  }

  /** A value in the overlay that is no object is the merged value. */
  lemma {:induction false} OverlayWins(b: Section, s: Section, path: seq<Key>)
    requires Get(Obj(s), path).Some? && !Get(Obj(s), path).value.Obj?
    ensures Get(Obj(DeepMerge(b, s)), path) == Get(Obj(s), path)
    decreases |path|
  {
    var k := path[0];
    assert DeepMerge(b, s)[k] == MergeAt(b, s, k);
    if s[k].Obj? && k in b && b[k].Obj? {
      OverlayWins(b[k].fields, s[k].fields, path[1..]);
    }
  }

  /** Where the overlay has no value on the way, the base value is the merged
      one. */
  lemma {:induction false} BaseShows(b: Section, s: Section, path: seq<Key>)
    requires Untouched(s, path)
    ensures Get(Obj(DeepMerge(b, s)), path) == Get(Obj(b), path)
    decreases |path|
  {
    var k := path[0];
    if k in b || k in s { assert DeepMerge(b, s)[k] == MergeAt(b, s, k); }
    if k in s {
      if k in b && b[k].Obj? {
        BaseShows(b[k].fields, s[k].fields, path[1..]);
      } else {
        UntouchedMissing(s[k].fields, path[1..]);
        assert k in b ==> Get(b[k], path[1..]) == None;
      }
    }
  }

  lemma {:induction false} UntouchedMissing(s: Section, path: seq<Key>)
    requires Untouched(s, path)
    ensures Get(Obj(s), path) == None
    decreases |path|
  {
    if path[0] in s { UntouchedMissing(s[path[0]].fields, path[1..]); }
  }

  /** The settings outside providers and models are read from the merge of the
      two layers, whatever normalisation and compaction do elsewhere. */
  lemma SettingsShow(base: Section, o: Section, np: EntryNormalizer, k: Key, rest: seq<Key>)
    requires k.Name?
    ensures Get(Obj(Effective(base, o, np)), [k] + rest) == Get(Obj(DeepMerge(base, o)), [k] + rest)
  {
    EffectiveShown(base, o, np, k);
    assert Lookup(Effective(base, o, np), k) == Merged(base, o, k) == Lookup(DeepMerge(base, o), k);
    assert ([k] + rest)[0] == k && ([k] + rest)[1..] == rest;
  }

  // What the two layers say about one provider.
  function ProviderFields(base: Section, o: Section, p: Key): Option<Section> {
    var b, s := Sub(base, Providers), Sub(o, Providers);
    if p !in s then (if p in b && b[p].Obj? then Some(b[p].fields) else None)
    else if !s[p].Obj? then None
    else if p in b && b[p].Obj? then Some(DeepMerge(b[p].fields, s[p].fields))
    else Some(s[p].fields)
  }

  /** Every provider is shown as its own merged entry, normalised; one whose
      overlay entry is a tombstone is not shown. */
  lemma ProviderShows(base: Section, o: Section, np: EntryNormalizer, p: Key)
    requires SectionOk(base, Providers) && (Providers in o ==> o[Providers].Obj?)
    ensures var f := ProviderFields(base, o, p);
      Lookup(Sub(Effective(base, o, np), Providers), p) == if f.Some? then Some(Obj(np(p, f.value))) else None
  {
    ProviderSections(base, o);
    ProvidersEffective(base, o, np);
    EntryMerged(Sub(base, Providers), Sub(o, Providers), p);
    NormalizedEntry(DeepMerge(Sub(base, Providers), Sub(o, Providers)), np, p);
  }

  lemma ProvidersEffective(base: Section, o: Section, np: EntryNormalizer)
    ensures Sub(Effective(base, o, np), Providers) == NormalizeProviders(Sub(DeepMerge(base, o), Providers), np)
  {
    EffectiveShown(base, o, np, Providers);
    var shown := NormalizeProviders(Sub(DeepMerge(base, o), Providers), np);
    assert Lookup(Effective(base, o, np), Providers) == if shown == map[] then None else Some(Obj(shown));
  }

  lemma EntryMerged(b: Section, s: Section, p: Key)
    ensures Lookup(DeepMerge(b, s), p)
         == if p !in s then Lookup(b, p)
            else if s[p].Obj? && p in b && b[p].Obj? then Some(Obj(DeepMerge(b[p].fields, s[p].fields)))
            else Some(s[p])
  {
  }

  lemma NormalizedEntry(entries: Section, np: EntryNormalizer, p: Key)
    ensures Lookup(NormalizeProviders(entries, np), p)
         == if p in entries && entries[p].Obj? then Some(Obj(np(p, entries[p].fields))) else None
  {
  }

  lemma ProviderSections(base: Section, o: Section)
    requires SectionOk(base, Providers) && (Providers in o ==> o[Providers].Obj?)
    ensures Sub(DeepMerge(base, o), Providers) == DeepMerge(Sub(base, Providers), Sub(o, Providers))
  {
    if Providers in o { MergeEmptyBase(o[Providers].fields); } else { MergeEmpty(Sub(base, Providers)); }
  }

  /** A consumer that reads sections as `cfg.get(k) or {}` cannot tell a
      configuration from its compact form. */
  lemma CompactReads(cfg: Section, k: Key)
    ensures !k.Models? ==> Sub(Compact(cfg), k) == Sub(cfg, k)
    ensures !k.Models? && k in cfg && !Falsy(cfg[k]) ==> Lookup(Compact(cfg), k) == Lookup(cfg, k)
  {
    CompactAt(cfg, k);
  }

  lemma CompactModelReads(cfg: Section, k: Key)
    ensures !k.MapField? ==> Sub(Sub(Compact(cfg), Models), k) == Sub(Sub(cfg, Models), k)
    ensures k.MapField? ==> forall p ::
              Sub(Sub(Sub(Compact(cfg), Models), k), p) == Sub(Sub(Sub(cfg, Models), k), p)
  {
    CompactAt(cfg, Models);
    var m := Sub(cfg, Models);
    assert Sub(Compact(cfg), Models) == CompactModels(m) by {
      if Models !in cfg || !cfg[Models].Obj? { assert CompactModels(map[]) == map[]; }
    }
    assert Lookup(CompactModels(m), k)
        == if k !in m || Droppable(k, CompactSub(k, m[k])) then None else Some(CompactSub(k, m[k]));
    if k.MapField? {
      forall p ensures Sub(Sub(CompactModels(m), k), p) == Sub(Sub(m, k), p) {
        if k in m && m[k].Obj? { CompactEntryReads(m[k].fields, p); }
      }
    }
  }

  lemma CompactEntryReads(e: Section, p: Key)
    ensures Sub(CompactEntries(e), p) == Sub(e, p)
    ensures CompactEntries(e) == map[] ==> Sub(e, p) == map[]
  {
    if p in e && p !in CompactEntries(e) { assert e[p] == Obj(map[]); }
  }

  /** The provider's entry for a model route, as both layers give it: a
      tombstone hides it, and a tombstoned format preference is left out. */
  lemma RouteShows(base: Section, o: Section, np: EntryNormalizer, m: Key)
    requires BaseOk(base) && (Models in o ==> o[Models].Obj?)
    requires Routes in Sub(o, Models) ==> Sub(o, Models)[Routes].Obj?
    ensures var v := Merged(Sub(Sub(base, Models), Routes), Sub(Sub(o, Models), Routes), m);
      Lookup(Sub(Sub(Normalized(base, o, np), Models), Routes), m)
      == if v.None? || v.value == Null then None
         else if v.value.Obj? && Get(v.value, [FormatPreference]) == Some(Null) then
           Some(Obj(v.value.fields - {FormatPreference}))
         else v
  {
    var bm, m' := Sub(base, Models), Sub(o, Models);
    ModelsShow(base, o, np);
    RoutesStripped(DeepMerge(bm, m'));
    RouteSections(bm, m');
    RouteStripped(DeepMerge(Sub(bm, Routes), Sub(m', Routes)), m);
  }

  lemma ModelsShow(base: Section, o: Section, np: EntryNormalizer)
    requires BaseOk(base) && (Models in o ==> o[Models].Obj?)
    ensures Sub(Normalized(base, o, np), Models) == StripModels(DeepMerge(Sub(base, Models), Sub(o, Models)))
  {
    var n := NormalizeConfig(DeepMerge(base, o), np);
    NormalizedAt(base, o, np, Models);
    StripConfigModels(n);
    assert n[Models] == Lookup(n, Models).value;
    ModelSections(base, o);
  }

  lemma RoutesStripped(m: Section)
    ensures Sub(StripModels(m), Routes) == StripRoutes(Sub(m, Routes))
  {
  }

  lemma RouteStripped(r: Section, m: Key)
    ensures Lookup(StripRoutes(r), m)
         == if m !in r || r[m] == Null then None
            else if r[m].Obj? && Get(r[m], [FormatPreference]) == Some(Null) then
              Some(Obj(r[m].fields - {FormatPreference}))
            else Some(r[m])
  {
    if m in r && r[m].Obj? && FormatPreference in r[m].fields {
      assert [FormatPreference][1..] == [];
      assert Get(r[m], [FormatPreference]) == Get(r[m].fields[FormatPreference], []);
    }
  }

  lemma ModelSections(base: Section, o: Section)
    requires BaseOk(base) && (Models in o ==> o[Models].Obj?)
    ensures Sub(DeepMerge(base, o), Models) == DeepMerge(Sub(base, Models), Sub(o, Models))
  {
    if Models in o { MergeEmptyBase(o[Models].fields); } else { MergeEmpty(Sub(base, Models)); }
  }

  lemma RouteSections(bm: Section, m: Section)
    requires ModelsOk(bm) && (Routes in m ==> m[Routes].Obj?)
    ensures Sub(DeepMerge(bm, m), Routes) == DeepMerge(Sub(bm, Routes), Sub(m, Routes))
  {
    if Routes in m { MergeEmptyBase(m[Routes].fields); } else { MergeEmpty(Sub(bm, Routes)); }
  }

  // --------------------------------------------------- what pruning takes away

  /** After pruning, every tombstone of a provider, a route or a discovered
      capability masks something in the base file. */
  lemma NoIdleTombstone(base: Section, o: Section, k: Key, p: Key)
    requires Models in o ==> o[Models].Obj?
    ensures Lookup(Sub(Prune(base, o), Providers), p) == Some(Null) ==> p in Sub(base, Providers)
    ensures k.Routes? || k.DiscoveryField? ==>
              (Lookup(Sub(Sub(Prune(base, o), Models), k), p) == Some(Null) ==> p in Sub(Sub(base, Models), k))
  {
    if Models in o {
      assert Sub(Prune(base, o), Models) == PruneModels(Sub(base, Models), o[Models].fields);
    }
  }

  /** The same for the editable maps: a whole provider's tombstone, and one name
      of a provider. */
  lemma NoIdleName(base: Section, o: Section, f: Field, p: Key, name: Key)
    requires Models in o ==> o[Models].Obj?
    ensures var e := Sub(Sub(Prune(base, o), Models), MapField(f));
            var b := Sub(Sub(base, Models), MapField(f));
            && (Lookup(e, p) == Some(Null) ==> p in b)
            && (Lookup(Sub(e, p), name) == Some(Null) ==> name in Sub(b, p))
  {
    if Models in o {
      var bm, m := Sub(base, Models), o[Models].fields;
      assert Sub(Prune(base, o), Models) == PruneModels(bm, m);
      EntriesLeft(bm, m, f);
      PrunedEntry(Sub(bm, MapField(f)), Sub(m, MapField(f)), p);
    }
  }

  lemma EntriesLeft(bm: Section, m: Section, f: Field)
    ensures Sub(PruneModels(bm, m), MapField(f)) == PruneEntries(Sub(bm, MapField(f)), Sub(m, MapField(f)))
  {
  }

  lemma PrunedEntry(b: Section, e: Section, p: Key)
    ensures Lookup(PruneEntries(b, e), p) == Some(Null) ==> p in b
    ensures forall name :: Lookup(Sub(PruneEntries(b, e), p), name) == Some(Null) ==> name in Sub(b, p)
  {
  }

  /** The tombstone of a discovered capability stays when the base file has that
      provider, although the concrete values beside it are discarded. */
  lemma DiscoveryTombstoneStays(base: Section, o: Section, level: bool, p: Key)
    requires Models in o && o[Models].Obj?
    requires Lookup(Sub(Sub(o, Models), DiscoveryField(level)), p) == Some(Null)
    requires p in Sub(Sub(base, Models), DiscoveryField(level))
    ensures Lookup(Sub(Sub(Prune(base, o), Models), DiscoveryField(level)), p) == Some(Null)
  {
    var k, bm, m := DiscoveryField(level), Sub(base, Models), o[Models].fields;
    var kept := PruneNulls(Sub(bm, k), OnlyNulls(m[k].fields));
    assert p in kept;
    assert k in PruneModels(bm, m);
    assert Sub(Prune(base, o), Models) == PruneModels(bm, m);
  }

  /** And no concrete value of a discovered capability stays. */
  lemma NoDiscoveryStays(base: Section, o: Section, level: bool, p: Key)
    requires Models in o && o[Models].Obj?
    ensures var left := Lookup(Sub(Sub(Prune(base, o), Models), DiscoveryField(level)), p);
            left.Some? ==> left == Some(Null)
  {
    var k, bm, m := DiscoveryField(level), Sub(base, Models), o[Models].fields;
    assert Sub(Prune(base, o), Models) == PruneModels(bm, m);
  }
}
