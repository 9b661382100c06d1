/** The runtime configuration as two layers: a base file and an editable
    overlay whose nulls are tombstones.  This file models how the effective
    configuration is computed and how a stored overlay is pruned, and proves
    that pruning is invisible. */
module ConfigOverlay {
  import opened Options
  import opened Json

  // _normalize_provider_entry, whose URL and format rules are not modelled.
  type EntryNormalizer = (Key, Section) -> Section

  // ---------------------------------------------------------------- effective

  function NormalizeProviders(p: Section, np: EntryNormalizer): Section {
    map k | k in p && p[k].Obj? :: Obj(np(k, p[k].fields))
  }

  function NormalizeConfig(cfg: Section, np: EntryNormalizer): Section {
    var withModels := if Models in cfg then cfg else cfg[Models := Obj(map[])];
    withModels[Providers := Obj(NormalizeProviders(Sub(cfg, Providers), np))]
  }

  function StripRoute(v: Json): Json {
    if v.Obj? && FormatPreference in v.fields && v.fields[FormatPreference] == Null then
      Obj(v.fields - {FormatPreference})
    else v
  }

  function StripRoutes(r: Section): Section {
    map k | k in r && r[k] != Null :: StripRoute(r[k])
  }

  function StripEntry(v: Json): Json {
    if v.Obj? then Obj(StripNulls(v.fields)) else v
  }

  function StripEntries(e: Section): Section {
    map p | p in e && e[p] != Null :: StripEntry(e[p])
  }

  function StripSub(k: Key, v: Json): Json {
    if !v.Obj? then v else
    match k
    case Routes => Obj(StripRoutes(v.fields))
    case MapField(_) => Obj(StripEntries(v.fields))
    case DiscoveryField(_) => Obj(StripNulls(v.fields))
    case _ => v
  }

  function StripModels(m: Section): Section {
    map k | k in m :: StripSub(k, m[k])
  }

  function StripConfig(cfg: Section): Section {
    if Models in cfg && cfg[Models].Obj? then cfg[Models := Obj(StripModels(cfg[Models].fields))]
    else cfg
  }

  /** `_normalized_config_for_overlay`. */
  function Normalized(base: Section, overlay: Section, np: EntryNormalizer): Section {
    StripConfig(NormalizeConfig(DeepMerge(base, overlay), np))
  }

  // -------------------------------------------- configurations up to empties
  //
  // Every consumer reads a section as `cfg.get(k) or {}`, so a section that is
  // missing and one that is empty are the same configuration.

  function CompactEntries(e: Section): Section {
    map p | p in e && e[p] != Obj(map[]) :: e[p]
  }

  function CompactSub(k: Key, v: Json): Json {
    if k.MapField? && v.Obj? then Obj(CompactEntries(v.fields)) else v
  }

  predicate Droppable(k: Key, v: Json) {
    !k.Name? && !k.UnionSnapshot? && Falsy(v)
  }

  function CompactModels(m: Section): Section {
    map k | k in m && !Droppable(k, CompactSub(k, m[k])) :: CompactSub(k, m[k])
  }

  function CompactTop(k: Key, v: Json): Json {
    if k.Models? && v.Obj? then Obj(CompactModels(v.fields)) else v
  }

  function Compact(cfg: Section): Section {
    map k | k in cfg && !Droppable(k, CompactTop(k, cfg[k])) :: CompactTop(k, cfg[k])
  }

  function Effective(base: Section, overlay: Section, np: EntryNormalizer): Section {
    Compact(Normalized(base, overlay, np))
  }

  // ------------------------------------------------------------------ pruning

  // Drop the tombstones that mask nothing in the base.
  function PruneNulls(base: Section, s: Section): (r: Section)
    ensures r.Keys <= s.Keys
  {
    map k | k in s && !(s[k] == Null && k !in base) :: s[k]
  }

  // One provider's entry of an editable map, given the base entries.
  function PruneEntry(baseEntries: Section, p: Key, v: Json): Json {
    if v.Obj? then Obj(PruneNulls(Sub(baseEntries, p), v.fields)) else v
  }

  function PruneEntries(baseEntries: Section, e: Section): Section {
    map p | p in e && !(p !in baseEntries && (e[p] == Null || PruneEntry(baseEntries, p, e[p]) == Obj(map[])))
      :: PruneEntry(baseEntries, p, e[p])
  }

  function OnlyNulls(s: Section): Section {
    map k | k in s && s[k] == Null :: s[k]
  }

  function PruneSub(baseModels: Section, k: Key, v: Json): Json {
    if !v.Obj? then v else
    match k
    case Routes => Obj(PruneNulls(Sub(baseModels, k), v.fields))
    case MapField(_) => Obj(PruneEntries(Sub(baseModels, k), v.fields))
    case DiscoveryField(_) => Obj(PruneNulls(Sub(baseModels, k), OnlyNulls(v.fields)))
    case _ => v
  }

  predicate PrunedAway(baseModels: Section, k: Key, v: Json) {
    k.UnionSnapshot? ||
    (v.Obj? && (k.Routes? || k.MapField? || k.DiscoveryField?) && PruneSub(baseModels, k, v) == Obj(map[]))
  }

  function PruneModels(baseModels: Section, m: Section): Section {
    map k | k in m && !PrunedAway(baseModels, k, m[k]) :: PruneSub(baseModels, k, m[k])
  }

  function PruneTop(base: Section, k: Key, v: Json): Json {
    if !v.Obj? then v
    else if k.Providers? then Obj(PruneNulls(Sub(base, k), v.fields))
    else if k.Models? then Obj(PruneModels(Sub(base, k), v.fields))
    else v
  }

  /** `_prune_overlay_tombstones`. */
  function Prune(base: Section, overlay: Section): Section {
    map k | k in overlay
              && !((k.Providers? || k.Models?) && PruneTop(base, k, overlay[k]) == Obj(map[]))
      :: PruneTop(base, k, overlay[k])
  }

  // ------------------------------------- what pruning discards on purpose

  function DropDiscoverySub(k: Key, v: Json): Json {
    if k.DiscoveryField? && v.Obj? then Obj(OnlyNulls(v.fields)) else v
  }

  function DropDiscoveryModels(m: Section): Section {
    map k | k in m && !k.UnionSnapshot? :: DropDiscoverySub(k, m[k])
  }

  /** The overlay without the discovery snapshots it may still carry: concrete
      capability values and the union snapshot are runtime state, not
      configuration. */
  function DropDiscovery(overlay: Section): Section {
    if Models in overlay && overlay[Models].Obj? then
      overlay[Models := Obj(DropDiscoveryModels(overlay[Models].fields))]
    else overlay
  }

  /** The base files the manager can work with: the sections it indexes are
      absent, empty or objects. */
  predicate BaseOk(base: Section) {
    && SectionOk(base, Models)
    && SectionOk(base, Providers)
    && ModelsOk(Sub(base, Models))
  }

  predicate ModelsOk(m: Section) {
    forall k :: k in m && (k.Routes? || k.MapField? || k.DiscoveryField?) ==> SectionOk(m, k)
  }

  // ------------------------------------------------- pruning keeps the meaning

  // Merging a pruned layer only loses tombstones that masked nothing.
  lemma MergePruned(b: Section, s: Section)
    ensures var full, cut := DeepMerge(b, s), DeepMerge(b, PruneNulls(b, s));
            forall k :: (k in cut <==> k in full && !(k in s && s[k] == Null && k !in b))
                        && (k in cut ==> cut[k] == full[k])
  {
    var p := PruneNulls(b, s);
    forall k | k in DeepMerge(b, p) ensures MergeAt(b, p, k) == MergeAt(b, s, k) {}
  }

  lemma NormalizePruned(b: Section, s: Section, np: EntryNormalizer)
    ensures NormalizeProviders(DeepMerge(b, PruneNulls(b, s)), np) == NormalizeProviders(DeepMerge(b, s), np)
  {
    MergePruned(b, s);
  }

  lemma StripRoutesPruned(b: Section, s: Section)
    ensures StripRoutes(DeepMerge(b, PruneNulls(b, s))) == StripRoutes(DeepMerge(b, s))
  {
    MergePruned(b, s);
  }

  lemma StripNullsPruned(b: Section, s: Section)
    ensures StripNulls(DeepMerge(b, PruneNulls(b, s))) == StripNulls(DeepMerge(b, s))
  {
    MergePruned(b, s);
  }

  lemma MergeEmptyBase(s: Section)
    ensures DeepMerge(map[], s) == s
  {
    assert forall k :: k in s ==> DeepMerge(map[], s)[k] == s[k];
  }

  function Lookup(s: Section, k: Key): Option<Json> {
    if k in s then Some(s[k]) else None
  }

  lemma SameSection(a: Section, b: Section)
    requires forall k :: Lookup(a, k) == Lookup(b, k)
    ensures a == b
  {
    assert forall k :: k in a <==> Lookup(a, k).Some?;
    assert forall k :: k in b <==> Lookup(b, k).Some?;
    forall k | k in a && k in b ensures a[k] == b[k] {
      assert Lookup(a, k) == Lookup(b, k);
    }
  }

  // What the merge of two layers holds under a key, if anything.
  function Merged(b: Section, s: Section, k: Key): Option<Json> {
    if k in b || k in s then Some(MergeAt(b, s, k)) else None
  }

  // An entry as consumers see it: tombstones stripped, empty as missing.
  function Seen(v: Option<Json>): Option<Json> {
    if v.None? || v.value == Null || StripEntry(v.value) == Obj(map[]) then None
    else Some(StripEntry(v.value))
  }

  lemma StripPrunedAlone(f: Section)
    ensures StripNulls(PruneNulls(map[], f)) == StripNulls(f)
    ensures PruneNulls(map[], f) == map[] ==> StripNulls(f) == map[]
  {
    assert forall k :: k in f && f[k] != Null ==> k in PruneNulls(map[], f);
  }

  lemma SeenPruned(b: Section, e: Section, p: Key)
    ensures Seen(Merged(b, PruneEntries(b, e), p)) == Seen(Merged(b, e, p))
  {
    if p in e && e[p].Obj? {
      var f := e[p].fields;
      if p in b && b[p].Obj? {
        StripNullsPruned(b[p].fields, f);
      } else {
        SeenPrunedAlone(b, e, p);
      }
    }
  }

  lemma SeenPrunedAlone(b: Section, e: Section, p: Key)
    requires p in e && e[p].Obj? && !(p in b && b[p].Obj?)
    ensures Seen(Merged(b, PruneEntries(b, e), p)) == Seen(Merged(b, e, p))
  {
    var f := e[p].fields;
    StripPrunedAlone(f);
    assert PruneEntry(b, p, e[p]) == Obj(PruneNulls(map[], f));
  }

  // The compact map of a field is exactly what is seen provider by provider.
  lemma EntriesSeen(b: Section, e: Section, p: Key)
    ensures Lookup(CompactEntries(StripEntries(DeepMerge(b, e))), p) == Seen(Merged(b, e, p))
  {
  }

  lemma EntriesPruned(b: Section, e: Section)
    ensures CompactEntries(StripEntries(DeepMerge(b, PruneEntries(b, e))))
         == CompactEntries(StripEntries(DeepMerge(b, e)))
  {
    var cut := CompactEntries(StripEntries(DeepMerge(b, PruneEntries(b, e))));
    var full := CompactEntries(StripEntries(DeepMerge(b, e)));
    forall p ensures Lookup(cut, p) == Lookup(full, p) {
      EntriesSeen(b, e, p);
      EntriesSeen(b, PruneEntries(b, e), p);
      SeenPruned(b, e, p);
    }
    SameSection(cut, full);
  }

  // A model section as consumers see it.
  function SeenSub(k: Key, v: Option<Json>): Option<Json> {
    if v.None? then None
    else
      var c := CompactSub(k, StripSub(k, v.value));
      if Droppable(k, c) then None else Some(c)
  }

  function EffectiveModels(bm: Section, m: Section): Section {
    CompactModels(StripModels(DeepMerge(bm, m)))
  }

  lemma ModelsSeen(bm: Section, m: Section, k: Key)
    ensures Lookup(EffectiveModels(bm, m), k) == SeenSub(k, Merged(bm, m, k))
  {
  }

  // An object section is seen as the merge of its two layers, whether or not
  // either layer has it.
  lemma SectionSeen(bm: Section, m: Section, k: Key)
    requires k.Routes? || k.MapField? || k.DiscoveryField?
    requires SectionOk(bm, k) && (k in m ==> m[k].Obj?)
    ensures SeenSub(k, Merged(bm, m, k)) == SeenSub(k, Some(Obj(DeepMerge(Sub(bm, k), Sub(m, k)))))
  {
    if k in m {
      MergeEmptyBase(m[k].fields);
    } else {
      MergeEmpty(Sub(bm, k));
    }
  }

  lemma SectionPruned(b: Section, s: Section, k: Key)
    requires k.Routes? || k.MapField?
    ensures SeenSub(k, Some(Obj(DeepMerge(b, PruneSubFields(b, k, s))))) == SeenSub(k, Some(Obj(DeepMerge(b, s))))
  {
    if k.Routes? { StripRoutesPruned(b, s); } else { EntriesPruned(b, s); }
  }

  function PruneSubFields(b: Section, k: Key, s: Section): Section {
    if k.Routes? then PruneNulls(b, s)
    else if k.MapField? then PruneEntries(b, s)
    else PruneNulls(b, OnlyNulls(s))
  }

  lemma SubPruned(bm: Section, m: Section, k: Key)
    requires ModelsOk(bm)
    ensures SeenSub(k, Merged(bm, PruneModels(bm, m), k)) == SeenSub(k, Merged(bm, DropDiscoveryModels(m), k))
  {
    if k in m && m[k].Obj? {
      if k.DiscoveryField? {
        DiscoveryPruned(bm, m, k);
      } else if k.Routes? || k.MapField? {
        EditablePruned(bm, m, k);
      }
    }
  }

  lemma DiscoveryPruned(bm: Section, m: Section, k: Key)
    requires SectionOk(bm, k) && k.DiscoveryField? && k in m && m[k].Obj?
    ensures SeenSub(k, Merged(bm, PruneModels(bm, m), k)) == SeenSub(k, Merged(bm, DropDiscoveryModels(m), k))
  {
    var nulls := OnlyNulls(m[k].fields);
    SectionSeen(bm, PruneModels(bm, m), k);
    SectionSeen(bm, DropDiscoveryModels(m), k);
    assert Sub(PruneModels(bm, m), k) == PruneNulls(Sub(bm, k), nulls);
    assert Sub(DropDiscoveryModels(m), k) == nulls;
    StripNullsPruned(Sub(bm, k), nulls);
  }

  lemma EditablePruned(bm: Section, m: Section, k: Key)
    requires SectionOk(bm, k) && (k.Routes? || k.MapField?) && k in m && m[k].Obj?
    ensures SeenSub(k, Merged(bm, PruneModels(bm, m), k)) == SeenSub(k, Merged(bm, DropDiscoveryModels(m), k))
  {
    EditableSubs(bm, m, k);
    SectionSeen(bm, PruneModels(bm, m), k);
    SectionSeen(bm, DropDiscoveryModels(m), k);
    SectionPruned(Sub(bm, k), m[k].fields, k);
  }

  lemma EditableSubs(bm: Section, m: Section, k: Key)
    requires (k.Routes? || k.MapField?) && k in m && m[k].Obj?
    ensures k in PruneModels(bm, m) ==> PruneModels(bm, m)[k].Obj?
    ensures k in DropDiscoveryModels(m) ==> DropDiscoveryModels(m)[k].Obj?
    ensures Sub(PruneModels(bm, m), k) == PruneSubFields(Sub(bm, k), k, m[k].fields)
    ensures Sub(DropDiscoveryModels(m), k) == m[k].fields
  {
  }

  lemma ModelsPruned(bm: Section, m: Section)
    requires ModelsOk(bm)
    ensures EffectiveModels(bm, PruneModels(bm, m)) == EffectiveModels(bm, DropDiscoveryModels(m))
  {
    var cut, kept := EffectiveModels(bm, PruneModels(bm, m)), EffectiveModels(bm, DropDiscoveryModels(m));
    forall k ensures Lookup(cut, k) == Lookup(kept, k) {
      ModelsSeen(bm, PruneModels(bm, m), k);
      ModelsSeen(bm, DropDiscoveryModels(m), k);
      SubPruned(bm, m, k);
    }
    SameSection(cut, kept);
  }

  // ------------------------------------------------------------- top level

  lemma ProvidersPruned(base: Section, o: Section, np: EntryNormalizer)
    requires SectionOk(base, Providers)
    ensures NormalizeProviders(Sub(DeepMerge(base, Prune(base, o)), Providers), np)
         == NormalizeProviders(Sub(DeepMerge(base, o), Providers), np)
  {
    if Providers in o && o[Providers].Obj? {
      var b, f := Sub(base, Providers), o[Providers].fields;
      NormalizePruned(b, f, np);
      ProvidersMerged(base, o);
      PrunedProvidersMerged(base, o);
    }
  }

  lemma ProvidersMerged(base: Section, o: Section)
    requires SectionOk(base, Providers) && Providers in o && o[Providers].Obj?
    ensures Sub(DeepMerge(base, o), Providers) == DeepMerge(Sub(base, Providers), o[Providers].fields)
  {
    MergeEmptyBase(o[Providers].fields);
  }

  lemma PrunedProvidersMerged(base: Section, o: Section)
    requires SectionOk(base, Providers) && Providers in o && o[Providers].Obj?
    ensures var b := Sub(base, Providers);
            Sub(DeepMerge(base, Prune(base, o)), Providers) == DeepMerge(b, PruneNulls(b, o[Providers].fields))
  {
    var b := Sub(base, Providers);
    if PruneNulls(b, o[Providers].fields) == map[] {
      MergeEmpty(b);
      assert Providers !in Prune(base, o);
    } else {
      ProvidersMerged(base, Prune(base, o));
    }
  }

  // The models section as the effective configuration shows it.
  function ModelsShown(base: Section, o: Section): Option<Json> {
    var v := if Models in base || Models in o then MergeAt(base, o, Models) else Obj(map[]);
    var c := CompactTop(Models, if v.Obj? then Obj(StripModels(v.fields)) else v);
    if Falsy(c) then None else Some(c)
  }

  lemma ModelsShownMerged(base: Section, o: Section)
    requires SectionOk(base, Models) && (Models in o ==> o[Models].Obj?)
    ensures var e := EffectiveModels(Sub(base, Models), Sub(o, Models));
            ModelsShown(base, o) == if e == map[] then None else Some(Obj(e))
  {
    if Models in o { MergeEmptyBase(o[Models].fields); } else { MergeEmpty(Sub(base, Models)); }
  }

  lemma ModelsShownPruned(base: Section, o: Section)
    requires BaseOk(base)
    ensures ModelsShown(base, Prune(base, o)) == ModelsShown(base, DropDiscovery(o))
  {
    if Models in o && o[Models].Obj? {
      ModelsShownMerged(base, Prune(base, o));
      ModelsShownMerged(base, DropDiscovery(o));
      assert Sub(Prune(base, o), Models) == PruneModels(Sub(base, Models), o[Models].fields);
      ModelsPruned(Sub(base, Models), o[Models].fields);
    }
  }

  function ProvidersShown(base: Section, o: Section, np: EntryNormalizer): Option<Json> {
    var n := NormalizeProviders(Sub(DeepMerge(base, o), Providers), np);
    if n == map[] then None else Some(Obj(n))
  }

  // The effective configuration, key by key.
  function Shown(base: Section, o: Section, np: EntryNormalizer, k: Key): Option<Json> {
    if k.Providers? then ProvidersShown(base, o, np)
    else if k.Models? then ModelsShown(base, o)
    else
      var v := Merged(base, o, k);
      if v.None? || Droppable(k, v.value) then None else v
  }

  lemma EffectiveShown(base: Section, o: Section, np: EntryNormalizer, k: Key)
    ensures Lookup(Effective(base, o, np), k) == Shown(base, o, np, k)
  {
    var n := NormalizeConfig(DeepMerge(base, o), np);
    NormalizedAt(base, o, np, k);
    CompactAt(StripConfig(n), k);
    if k.Models? {
      StripConfigModels(n);
    } else {
      StripConfigOther(n, k);
    }
  }

  lemma NormalizedAt(base: Section, o: Section, np: EntryNormalizer, k: Key)
    ensures var n := NormalizeConfig(DeepMerge(base, o), np);
            Lookup(n, k) == if k.Providers? then Some(Obj(NormalizeProviders(Sub(DeepMerge(base, o), Providers), np)))
                            else if k.Models? && Merged(base, o, k).None? then Some(Obj(map[]))
                            else Merged(base, o, k)
  {
  }

  lemma CompactAt(cfg: Section, k: Key)
    ensures Lookup(Compact(cfg), k) == if k !in cfg || Droppable(k, CompactTop(k, cfg[k])) then None
                                       else Some(CompactTop(k, cfg[k]))
  {
  }

  lemma StripConfigModels(n: Section)
    requires Models in n
    ensures Lookup(StripConfig(n), Models)
         == Some(if n[Models].Obj? then Obj(StripModels(n[Models].fields)) else n[Models])
  {
  }

  lemma StripConfigOther(n: Section, k: Key)
    requires !k.Models?
    ensures Lookup(StripConfig(n), k) == Lookup(n, k)
  {
  }

  /** Pruning a stored overlay never changes the effective configuration, for
      every base and every overlay, beyond the discovery state it discards. */
  lemma PruneKeepsEffective(base: Section, o: Section, np: EntryNormalizer)
    requires BaseOk(base)
    ensures Effective(base, Prune(base, o), np) == Effective(base, DropDiscovery(o), np)
  {
    var pruned, kept := Effective(base, Prune(base, o), np), Effective(base, DropDiscovery(o), np);
    forall k ensures Lookup(pruned, k) == Lookup(kept, k) {
      EffectiveShown(base, Prune(base, o), np, k);
      EffectiveShown(base, DropDiscovery(o), np, k);
      ShownPruned(base, o, np, k);
    }
    SameSection(pruned, kept);
  }

  lemma SubMergeAgrees(base: Section, x: Section, y: Section, k: Key)
    requires Lookup(x, k) == Lookup(y, k)
    ensures Sub(DeepMerge(base, x), k) == Sub(DeepMerge(base, y), k)
  {
  }

  lemma ShownPruned(base: Section, o: Section, np: EntryNormalizer, k: Key)
    requires BaseOk(base)
    ensures Shown(base, Prune(base, o), np, k) == Shown(base, DropDiscovery(o), np, k)
  {
    if k.Providers? {
      ProvidersPruned(base, o, np);
      SubMergeAgrees(base, DropDiscovery(o), o, k);
    } else if k.Models? {
      ModelsShownPruned(base, o);
    } else {
      assert Lookup(Prune(base, o), k) == Lookup(DropDiscovery(o), k);
    }
  }

  // --------------------------------------------------------------- idempotence

  lemma PruneSubTwice(bm: Section, k: Key, v: Json)
    ensures PruneSub(bm, k, PruneSub(bm, k, v)) == PruneSub(bm, k, v)
  {
    if v.Obj? {
      var b, f := Sub(bm, k), v.fields;
      match k
      case Routes => assert PruneNulls(b, PruneNulls(b, f)) == PruneNulls(b, f);
      case MapField(_) => PruneEntriesTwice(b, f);
      case DiscoveryField(_) =>
        assert PruneNulls(b, OnlyNulls(PruneNulls(b, OnlyNulls(f)))) == PruneNulls(b, OnlyNulls(f));
      case _ =>
    }
  }

  lemma PruneEntriesTwice(b: Section, e: Section)
    ensures PruneEntries(b, PruneEntries(b, e)) == PruneEntries(b, e)
  {
    forall p | p in e ensures PruneEntry(b, p, PruneEntry(b, p, e[p])) == PruneEntry(b, p, e[p]) {
      if e[p].Obj? {
        var s := Sub(b, p);
        assert PruneNulls(s, PruneNulls(s, e[p].fields)) == PruneNulls(s, e[p].fields);
      }
    }
  }

  lemma PruneModelsTwice(bm: Section, m: Section)
    ensures PruneModels(bm, PruneModels(bm, m)) == PruneModels(bm, m)
  {
    forall k | k in m ensures PruneSub(bm, k, PruneSub(bm, k, m[k])) == PruneSub(bm, k, m[k]) {
      PruneSubTwice(bm, k, m[k]);
    }
  }

  lemma PruneTopTwice(base: Section, k: Key, v: Json)
    ensures PruneTop(base, k, PruneTop(base, k, v)) == PruneTop(base, k, v)
  {
    if v.Obj? {
      if k.Providers? {
        assert PruneNulls(Sub(base, k), PruneNulls(Sub(base, k), v.fields)) == PruneNulls(Sub(base, k), v.fields);
      } else if k.Models? {
        PruneModelsTwice(Sub(base, k), v.fields);
      }
    }
  }

  /** A pruned overlay is a fixed point: compacting it again writes it back
      unchanged. */
  lemma PruneIdempotent(base: Section, o: Section)
    ensures Prune(base, Prune(base, o)) == Prune(base, o)
  {
    forall k | k in o ensures PruneTop(base, k, PruneTop(base, k, o[k])) == PruneTop(base, k, o[k]) {
      PruneTopTwice(base, k, o[k]);
    }
  }
}
