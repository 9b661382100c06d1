/** The per-model edits of the admin API (rename, enable/disable, variants).
    Each rewrites one provider's entry of the overlay; here it is shown to be an
    edit of the one plain map that the two layers present together. */
module ConfigEdits {
  import opened Options
  import opened Json
  import opened ConfigOverlay

  // ------------------------------------------------------ one provider's names

  function Entries(layer: Section, f: Field): Section {
    Sub(Sub(layer, Models), MapField(f))
  }

  function NamesOf(v: Option<Json>): Section {
    if v.Some? && v.value.Obj? then StripNulls(v.value.fields) else map[]
  }

  /** The names a provider's map offers, as the two layers define them. */
  function NamesAt(base: Section, overlay: Section, f: Field, p: Key): Section {
    NamesOf(Merged(Entries(base, f), Entries(overlay, f), p))
  }

  // What a consumer of the effective configuration reads.
  function ReadNames(config: Section, f: Field, p: Key): Section {
    Sub(Entries(config, f), p)
  }

  // Overlays whose editable sections are objects or absent.
  predicate Shaped(overlay: Section) {
    && (Models in overlay ==> overlay[Models].Obj?)
    && forall f: Field :: MapField(f) in Sub(overlay, Models) ==> Sub(overlay, Models)[MapField(f)].Obj?
  }

  // The provider has no tombstone of its own in the overlay.
  predicate EntryOk(overlay: Section, f: Field, p: Key) {
    p in Entries(overlay, f) ==> Entries(overlay, f)[p].Obj?
  }

  // ----------------------------------------------------------------- the edits

  datatype Change = Put(key: Key, value: Json) | Remove(key: Key)

  // A removal masks a base name with a tombstone and forgets any other.
  function Apply(b: Section, m: Section, c: Change): Section {
    match c
    case Put(k, v) => m[k := v]
    case Remove(k) => if k in b then m[k := Null] else m - {k}
  }

  function PlainApply(names: Section, c: Change): Section {
    match c
    case Put(k, v) => names[k := v]
    case Remove(k) => names - {k}
  }

  datatype Edit =
    | Mapping(provider: Key, model: string, raw: string, former: string)
    | Disable(provider: Key, id: Key, off: bool)
    | DisableMany(provider: Key, states: seq<(Key, bool)>)
    | SetVariants(provider: Key, id: Key, variants: seq<Json>)

  function Target(e: Edit): Field {
    match e
    case Mapping(_, _, _, _) => ModelMap
    case SetVariants(_, _, _) => Variants
    case _ => Disabled
  }

  function Toggle(k: Key, off: bool): Change {
    if off then Put(k, Bool(true)) else Remove(k)
  }

  // The old name points at another raw model than the one submitted.
  predicate Guarded(names: Section, raw: string, former: string) {
    Name(former) in names && names[Name(former)] != Null && raw != "" && names[Name(former)] != Str(raw)
  }

  // `update_provider_model_mapping`, on the provider's overlay entry.
  function MappingMap(b: Section, m: Section, model: string, raw: string, former: string): Section {
    var released :=
      if former != "" && former != model && !Guarded(DeepMerge(b, m), raw, former) then
        Apply(b, m, Remove(Name(former)))
      else m;
    if model != "" then Apply(b, released, Put(Name(model), Str(raw)))
    else if former != "" then Apply(b, released, Remove(Name(former)))
    else released
  }

  function ToggleAll(b: Section, m: Section, states: seq<(Key, bool)>): Section {
    if states == [] then m
    else
      var last := states[|states| - 1];
      Apply(b, ToggleAll(b, m, states[..|states| - 1]), Toggle(last.0, last.1))
  }

  function VariantsChange(k: Key, variants: seq<Json>): Change {
    if variants != [] then Put(k, List(variants)) else Remove(k)
  }

  // The provider's overlay entry after an edit.
  function EditMap(b: Section, m: Section, e: Edit): Section {
    match e
    case Mapping(_, model, raw, former) => MappingMap(b, m, model, raw, former)
    case Disable(_, model, off) => Apply(b, m, Toggle(model, off))
    case DisableMany(_, states) => ToggleAll(b, m, states)
    case SetVariants(_, model, variants) => Apply(b, m, VariantsChange(model, variants))
  }

  // Write a provider's entry back; an empty one is removed.
  function WithEntry(overlay: Section, f: Field, p: Key, m: Section): Section {
    var models, entries := Sub(overlay, Models), Entries(overlay, f);
    var entries' := if m == map[] then entries - {p} else entries[p := Obj(m)];
    overlay[Models := Obj(models[MapField(f) := Obj(entries')])]
  }

  function EditOverlay(base: Section, overlay: Section, e: Edit): Section {
    var f, p := Target(e), e.provider;
    WithEntry(overlay, f, p, EditMap(Sub(Entries(base, f), p), Sub(Entries(overlay, f), p), e))
  }

  // ------------------------------------------------ the same edits on one map

  /** The edits as an operator understands them: on a plain map of names, with
      no layers and no tombstones. */
  function PlainMapping(names: Section, model: string, raw: string, former: string): Section {
    if model == "" then (if former != "" then names - {Name(former)} else names)
    else
      var kept := if former != "" && former != model && !Guarded(names, raw, former) then names - {Name(former)}
          else names;
      kept[Name(model) := Str(raw)]
  }

  function PlainToggleAll(names: Section, states: seq<(Key, bool)>): Section {
    if states == [] then names
    else
      var last := states[|states| - 1];
      PlainApply(PlainToggleAll(names, states[..|states| - 1]), Toggle(last.0, last.1))
  }

  function PlainEdit(names: Section, e: Edit): Section {
    match e
    case Mapping(_, model, raw, former) => PlainMapping(names, model, raw, former)
    case Disable(_, model, off) => PlainApply(names, Toggle(model, off))
    case DisableMany(_, states) => PlainToggleAll(names, states)
    case SetVariants(_, model, variants) => PlainApply(names, VariantsChange(model, variants))
  }

  // ------------------------------------------------------------- refinement

  function Plain(b: Section, m: Section): Section {
    StripNulls(DeepMerge(b, m))
  }

  lemma ApplyRefines(b: Section, m: Section, c: Change)
    requires c.Put? ==> c.value != Null && !c.value.Obj?
    ensures Plain(b, Apply(b, m, c)) == PlainApply(Plain(b, m), c)
  {
    var m' := Apply(b, m, c);
    forall k | k != c.key ensures Lookup(Plain(b, m'), k) == Lookup(Plain(b, m), k) {
      PlainAt(b, m, k);
      PlainAt(b, m', k);
    }
    PlainAt(b, m', c.key);
    forall k ensures Lookup(Plain(b, m'), k) == Lookup(PlainApply(Plain(b, m), c), k) {
      if k != c.key { assert Lookup(Plain(b, m'), k) == Lookup(Plain(b, m), k); }
    }
    SameSection(Plain(b, m'), PlainApply(Plain(b, m), c));
  }

  lemma PlainAt(b: Section, m: Section, k: Key)
    ensures Lookup(Plain(b, m), k) == if Merged(b, m, k) == Some(Null) then None else Merged(b, m, k)
  {
  }

  lemma ToggleRefines(b: Section, m: Section, states: seq<(Key, bool)>)
    ensures Plain(b, ToggleAll(b, m, states)) == PlainToggleAll(Plain(b, m), states)
  {
    if states != [] {
      var last := states[|states| - 1];
      ToggleRefines(b, m, states[..|states| - 1]);
      ApplyRefines(b, ToggleAll(b, m, states[..|states| - 1]), Toggle(last.0, last.1));
    }
  }

  lemma MappingRefines(b: Section, m: Section, model: string, raw: string, former: string)
    ensures Plain(b, MappingMap(b, m, model, raw, former)) == PlainMapping(Plain(b, m), model, raw, former)
  {
    PlainAt(b, m, Name(former));
    assert Guarded(DeepMerge(b, m), raw, former) == Guarded(Plain(b, m), raw, former);
    var released :=
      if former != "" && former != model && !Guarded(DeepMerge(b, m), raw, former) then
        Apply(b, m, Remove(Name(former)))
      else m;
    if released != m { ApplyRefines(b, m, Remove(Name(former))); }
    if model != "" {
      ApplyRefines(b, released, Put(Name(model), Str(raw)));
    } else if former != "" {
      ApplyRefines(b, released, Remove(Name(former)));
    }
  }

  lemma EditRefines(b: Section, m: Section, e: Edit)
    ensures Plain(b, EditMap(b, m, e)) == PlainEdit(Plain(b, m), e)
  {
    match e
    case Mapping(_, model, raw, former) => MappingRefines(b, m, model, raw, former);
    case Disable(_, model, off) => ApplyRefines(b, m, Toggle(model, off));
    case DisableMany(_, states) => ToggleRefines(b, m, states);
    case SetVariants(_, model, variants) => ApplyRefines(b, m, VariantsChange(model, variants));
  }

  // An entry that is no tombstone shows the merge of the provider's two maps.
  lemma NamesMerged(base: Section, o: Section, f: Field, p: Key)
    requires EntryOk(o, f, p)
    ensures NamesAt(base, o, f, p) == Plain(Sub(Entries(base, f), p), Sub(Entries(o, f), p))
  {
    if p in Entries(o, f) {
      MergeEmptyBase(Entries(o, f)[p].fields);
    } else {
      MergeEmpty(Sub(Entries(base, f), p));
    }
  }

  lemma EntriesWritten(o: Section, f: Field, p: Key, m: Section, g: Field)
    ensures var e := Entries(WithEntry(o, f, p, m), g);
            e == if g != f then Entries(o, g)
                 else if m == map[] then Entries(o, f) - {p} else Entries(o, f)[p := Obj(m)]
  {
  }

  lemma EditKeepsShape(base: Section, o: Section, e: Edit, g: Field, q: Key)
    requires Shaped(o)
    ensures Shaped(EditOverlay(base, o, e))
    ensures EntryOk(EditOverlay(base, o, e), Target(e), e.provider)
    ensures EntryOk(o, g, q) ==> EntryOk(EditOverlay(base, o, e), g, q)
  {
    var f, p := Target(e), e.provider;
    var m := EditMap(Sub(Entries(base, f), p), Sub(Entries(o, f), p), e);
    EntriesWritten(o, f, p, m, f);
    EntriesWritten(o, f, p, m, g);
  }

  // The edited provider's own names.
  lemma EditedNames(base: Section, o: Section, e: Edit)
    requires Shaped(o) && EntryOk(o, Target(e), e.provider)
    ensures NamesAt(base, EditOverlay(base, o, e), Target(e), e.provider)
         == PlainEdit(NamesAt(base, o, Target(e), e.provider), e)
  {
    var f, p := Target(e), e.provider;
    var b, m := Sub(Entries(base, f), p), Sub(Entries(o, f), p);
    EntriesWritten(o, f, p, EditMap(b, m, e), f);
    EditKeepsShape(base, o, e, f, p);
    NamesMerged(base, o, f, p);
    NamesMerged(base, EditOverlay(base, o, e), f, p);
    EditRefines(b, m, e);
    assert Sub(Entries(EditOverlay(base, o, e), f), p) == EditMap(b, m, e);
  }

  lemma EntryKept(o: Section, f: Field, p: Key, m: Section, g: Field, q: Key)
    requires g != f || q != p
    ensures Lookup(Entries(WithEntry(o, f, p, m), g), q) == Lookup(Entries(o, g), q)
  {
    EntriesWritten(o, f, p, m, g);
  }

  lemma SameEntryNames(base: Section, x: Section, y: Section, f: Field, p: Key)
    requires Lookup(Entries(x, f), p) == Lookup(Entries(y, f), p)
    ensures NamesAt(base, x, f, p) == NamesAt(base, y, f, p)
  {
  }

  // An edit rewrites the edited provider's names as the plain edit does, and
  // no other provider's and no other map's.
  lemma EditNames(base: Section, o: Section, e: Edit, g: Field, q: Key)
    requires Shaped(o) && EntryOk(o, Target(e), e.provider)
    ensures NamesAt(base, EditOverlay(base, o, e), g, q)
         == if g == Target(e) && q == e.provider then PlainEdit(NamesAt(base, o, g, q), e)
            else NamesAt(base, o, g, q)
  {
    if g == Target(e) && q == e.provider {
      EditedNames(base, o, e);
    } else {
      var f, p := Target(e), e.provider;
      EntryKept(o, f, p, EditMap(Sub(Entries(base, f), p), Sub(Entries(o, f), p), e), g, q);
      SameEntryNames(base, o, EditOverlay(base, o, e), g, q);
    }
  }

  // ------------------------------------------------- the same after a commit

  lemma PrunedEntries(base: Section, o: Section, f: Field)
    requires Shaped(o)
    ensures Entries(Prune(base, o), f) == PruneEntries(Entries(base, f), Entries(o, f))
    ensures Shaped(Prune(base, o))
  {
    if Models in o {
      var bm, m := Sub(base, Models), Sub(o, Models);
      PrunedModels(base, o);
      assert Sub(PruneModels(bm, m), MapField(f)) == PruneEntries(Sub(bm, MapField(f)), Sub(m, MapField(f)));
    }
  }

  lemma PruneNames(base: Section, o: Section, f: Field, p: Key)
    requires Shaped(o)
    ensures NamesAt(base, Prune(base, o), f, p) == NamesAt(base, o, f, p)
    ensures EntryOk(o, f, p) ==> EntryOk(Prune(base, o), f, p)
  {
    PrunedEntries(base, o, f);
    SeenPruned(Entries(base, f), Entries(o, f), p);
    NamesSeen(Merged(Entries(base, f), Entries(o, f), p));
    NamesSeen(Merged(Entries(base, f), PruneEntries(Entries(base, f), Entries(o, f)), p));
  }

  lemma NamesSeen(v: Option<Json>)
    ensures NamesOf(v) == if Seen(v).Some? && Seen(v).value.Obj? then Seen(v).value.fields else map[]
  {
  }

  // One committed edit.
  function Commit(base: Section, o: Section, e: Edit): Section {
    Prune(base, EditOverlay(base, o, e))
  }

  lemma CommitNames(base: Section, o: Section, e: Edit, g: Field, q: Key)
    requires Shaped(o) && EntryOk(o, Target(e), e.provider)
    ensures Shaped(Commit(base, o, e))
    ensures EntryOk(o, g, q) ==> EntryOk(Commit(base, o, e), g, q)
    ensures NamesAt(base, Commit(base, o, e), g, q)
         == if g == Target(e) && q == e.provider then PlainEdit(NamesAt(base, o, g, q), e)
            else NamesAt(base, o, g, q)
  {
    EditKeepsShape(base, o, e, g, q);
    EditNames(base, o, e, g, q);
    PrunedEntries(base, EditOverlay(base, o, e), g);
    PruneNames(base, EditOverlay(base, o, e), g, q);
  }

  function RunCommits(base: Section, o: Section, edits: seq<Edit>): Section
    decreases |edits|
  {
    if edits == [] then o else RunCommits(base, Commit(base, o, edits[0]), edits[1..])
  }

  // The edits aimed at one provider's map, run on that map alone.
  function RunPlain(names: Section, f: Field, p: Key, edits: seq<Edit>): Section
    decreases |edits|
  {
    if edits == [] then names
    else if Target(edits[0]) == f && edits[0].provider == p then
      RunPlain(PlainEdit(names, edits[0]), f, p, edits[1..])
    else RunPlain(names, f, p, edits[1..])
  }

  /** Any sequence of committed edits leaves each provider's effective names as
      if the edits aimed at it had run on one plain map, provided none of the
      edited providers starts out tombstoned as a whole. */
  lemma {:induction false} LayersRefineOneMap(base: Section, o: Section, edits: seq<Edit>, f: Field, p: Key)
    requires Shaped(o)
    requires forall e :: e in edits ==> EntryOk(o, Target(e), e.provider)
    ensures NamesAt(base, RunCommits(base, o, edits), f, p) == RunPlain(NamesAt(base, o, f, p), f, p, edits)
    decreases |edits|
  {
    if edits != [] {
      var e, o' := edits[0], Commit(base, o, edits[0]);
      CommitNames(base, o, e, f, p);
      forall x | x in edits[1..] ensures EntryOk(o', Target(x), x.provider) {
        CommitNames(base, o, e, Target(x), x.provider);
      }
      LayersRefineOneMap(base, o', edits[1..], f, p);
    }
  }

  // ------------------------------------ what the effective configuration shows

  /** Consumers of the normalised configuration read exactly the names defined
      by the two layers. */
  lemma ConfigShowsNames(base: Section, o: Section, np: EntryNormalizer, f: Field, p: Key)
    requires BaseOk(base) && Shaped(o)
    ensures ReadNames(Normalized(base, o, np), f, p) == NamesAt(base, o, f, p)
  {
    EntriesNormalized(base, o, np, f);
    StrippedNames(Entries(base, f), Entries(o, f), p);
  }

  lemma StrippedNames(b: Section, e: Section, p: Key)
    ensures Sub(StripEntries(DeepMerge(b, e)), p) == NamesOf(Merged(b, e, p))
  {
  }

  lemma EntriesNormalized(base: Section, o: Section, np: EntryNormalizer, f: Field)
    requires BaseOk(base) && Shaped(o)
    ensures Entries(Normalized(base, o, np), f) == StripEntries(DeepMerge(Entries(base, f), Entries(o, f)))
  {
    ModelsNormalized(base, o, np);
    FieldMerged(Sub(base, Models), Sub(o, Models), f);
  }

  lemma ModelsNormalized(base: Section, o: Section, np: EntryNormalizer)
    requires BaseOk(base) && Shaped(o)
    ensures Sub(Normalized(base, o, np), Models) == StripModels(DeepMerge(Sub(base, Models), Sub(o, Models)))
  {
    var n := NormalizeConfig(DeepMerge(base, o), np);
    NormalizedAt(base, o, np, Models);
    StripConfigModels(n);
    ModelsMerged(base, o);
    assert n[Models] == Lookup(n, Models).value;
  }

  lemma ModelsMerged(base: Section, o: Section)
    requires BaseOk(base) && Shaped(o)
    ensures Sub(DeepMerge(base, o), Models) == DeepMerge(Sub(base, Models), Sub(o, Models))
  {
    if Models in o { MergeEmptyBase(o[Models].fields); } else { MergeEmpty(Sub(base, Models)); }
  }

  lemma FieldMerged(bm: Section, m: Section, f: Field)
    requires ModelsOk(bm) && (MapField(f) in m ==> m[MapField(f)].Obj?)
    ensures var k := MapField(f);
            Sub(StripModels(DeepMerge(bm, m)), k) == StripEntries(DeepMerge(Sub(bm, k), Sub(m, k)))
  {
    SubFieldMerged(bm, m, f);
    FieldStripped(DeepMerge(bm, m), f);
  }

  lemma SubFieldMerged(bm: Section, m: Section, f: Field)
    requires MapField(f) in m ==> m[MapField(f)].Obj?
    ensures var k := MapField(f); Sub(DeepMerge(bm, m), k) == DeepMerge(Sub(bm, k), Sub(m, k))
  {
    var k := MapField(f);
    if k in m { MergeEmptyBase(m[k].fields); } else { MergeEmpty(Sub(bm, k)); }
  }

  lemma FieldStripped(m: Section, f: Field)
    ensures Sub(StripModels(m), MapField(f)) == StripEntries(Sub(m, MapField(f)))
  {
  }

  /** A committed edit touches nothing but the edited map: every other section
      of the effective configuration stays, save the discovery state that every
      commit discards. */
  lemma EditKeepsSections(base: Section, o: Section, e: Edit, np: EntryNormalizer, k: Key)
    requires BaseOk(base) && Shaped(o)
    ensures !k.Models? ==>
              Lookup(Effective(base, Commit(base, o, e), np), k) == Lookup(Effective(base, o, np), k)
    ensures k != MapField(Target(e)) && !k.DiscoveryField? && !k.UnionSnapshot? ==>
              Lookup(EffectiveModels(Sub(base, Models), Sub(Commit(base, o, e), Models)), k)
              == Lookup(EffectiveModels(Sub(base, Models), Sub(o, Models)), k)
  {
    var o' := EditOverlay(base, o, e);
    if !k.Models? {
      EffectiveShown(base, Commit(base, o, e), np, k);
      EffectiveShown(base, o, np, k);
      ShownPruned(base, o', np, k);
      ShownAgrees(base, o, DropDiscovery(o'), np, k);
    }
    if k != MapField(Target(e)) && !k.DiscoveryField? && !k.UnionSnapshot? {
      PrunedModels(base, o');
      EditedModel(base, o, e, k);
      ModelsKept(Sub(base, Models), Sub(o, Models), Sub(o', Models), k);
    }
  }

  lemma ShownAgrees(base: Section, x: Section, y: Section, np: EntryNormalizer, k: Key)
    requires !k.Models? && Lookup(x, k) == Lookup(y, k)
    ensures Shown(base, x, np, k) == Shown(base, y, np, k)
  {
    SubMergeAgrees(base, x, y, k);
  }

  lemma ModelsKept(bm: Section, m: Section, m': Section, k: Key)
    requires ModelsOk(bm) && Lookup(DropDiscoveryModels(m'), k) == Lookup(m, k)
    ensures Lookup(EffectiveModels(bm, PruneModels(bm, m')), k) == Lookup(EffectiveModels(bm, m), k)
  {
    ModelsSeen(bm, PruneModels(bm, m'), k);
    ModelsSeen(bm, m, k);
    SubPruned(bm, m', k);
    assert Merged(bm, DropDiscoveryModels(m'), k) == Merged(bm, m, k);
  }

  lemma PrunedModels(base: Section, o: Section)
    requires Shaped(o)
    ensures Sub(Prune(base, o), Models) == PruneModels(Sub(base, Models), Sub(o, Models))
  {
  }

  lemma EditedModel(base: Section, o: Section, e: Edit, k: Key)
    requires k != MapField(Target(e)) && !k.DiscoveryField? && !k.UnionSnapshot?
    ensures Lookup(DropDiscoveryModels(Sub(EditOverlay(base, o, e), Models)), k) == Lookup(Sub(o, Models), k)
  {
  }

  // ------------------------------------------------------------ rename guard

  lemma PlainRenameKeeps(names: Section, model: string, raw: string, former: string, k: Key)
    requires model != "" && raw != "" && k != Name(model)
    requires k in names && names[k] != Null && names[k] != Str(raw)
    ensures Lookup(PlainMapping(names, model, raw, former), k) == Some(names[k])
  {
  }

  lemma NamesNotNull(base: Section, o: Section, f: Field, p: Key)
    ensures forall k :: k in NamesAt(base, o, f, p) ==> NamesAt(base, o, f, p)[k] != Null
    ensures NamesAt(base, o, f, p) != map[] ==> EntryOk(o, f, p)
  {
  }

  /** A committed rename never loses a name of the provider that points at
      another raw model, whatever the two layers hold. */
  lemma {:induction false} RenameKeepsOthers(base: Section, o: Section, p: Key, model: string, raw: string,
                                              former: string, k: Key)
    requires Shaped(o) && model != "" && raw != "" && k != Name(model)
    requires var names := NamesAt(base, o, ModelMap, p); k in names && names[k] != Str(raw)
    ensures Lookup(NamesAt(base, Commit(base, o, Mapping(p, model, raw, former)), ModelMap, p), k)
         == Some(NamesAt(base, o, ModelMap, p)[k])
  {
    var names := NamesAt(base, o, ModelMap, p);
    NamesNotNull(base, o, ModelMap, p);
    assert names != map[];
    CommitNames(base, o, Mapping(p, model, raw, former), ModelMap, p);
    PlainRenameKeeps(names, model, raw, former, k);
  }

  /** The guard protects a name that points elsewhere exactly when the request
      also names a new model: a pure deletion is committed after the refusal. */
  lemma {:induction false} GuardHoldsOnlyForRenames(base: Section, o: Section, p: Key, model: string, raw: string,
                                                     former: string)
    requires Shaped(o) && former != model && former != ""
    requires Guarded(NamesAt(base, o, ModelMap, p), raw, former)
    ensures Name(former) in NamesAt(base, Commit(base, o, Mapping(p, model, raw, former)), ModelMap, p) <==> model != ""
  {
    var names := NamesAt(base, o, ModelMap, p);
    NamesNotNull(base, o, ModelMap, p);
    assert Name(former) in names;
    CommitNames(base, o, Mapping(p, model, raw, former), ModelMap, p);
  }

  // ------------------------------------------------- the edits, name by name

  /** A committed switch: a model that is turned off carries the flag, one that
      is turned on carries nothing, and no other entry of the map changes. */
  lemma {:induction false} SwitchReads(base: Section, o: Section, p: Key, id: Key, off: bool, k: Key)
    requires Shaped(o) && EntryOk(o, Disabled, p)
    ensures Lookup(NamesAt(base, Commit(base, o, Disable(p, id, off)), Disabled, p), k)
         == if k != id then Lookup(NamesAt(base, o, Disabled, p), k) else if off then Some(Bool(true)) else None
  {
    CommitNames(base, o, Disable(p, id, off), Disabled, p);
  }

  // State i is the last one given for k.
  predicate LastMention(states: seq<(Key, bool)>, k: Key, i: nat) {
    i < |states| && states[i].0 == k && forall j :: i < j < |states| ==> states[j].0 != k
  }

  /** A committed batch of switches: the last state given for an id decides, and
      ids that are not mentioned stay as they were. */
  lemma {:induction false} SwitchesRead(base: Section, o: Section, p: Key, states: seq<(Key, bool)>, k: Key, i: nat)
    requires Shaped(o) && EntryOk(o, Disabled, p)
    ensures var after := NamesAt(base, Commit(base, o, DisableMany(p, states)), Disabled, p);
      && (LastMention(states, k, i) ==> Lookup(after, k) == if states[i].1 then Some(Bool(true)) else None)
      && ((forall s :: s in states ==> s.0 != k) ==> Lookup(after, k) == Lookup(NamesAt(base, o, Disabled, p), k))
  {
    CommitNames(base, o, DisableMany(p, states), Disabled, p);
    ToggledAt(NamesAt(base, o, Disabled, p), states, k, i);
  }

  lemma {:induction false} ToggledAt(names: Section, states: seq<(Key, bool)>, k: Key, i: nat)
    ensures LastMention(states, k, i) ==>
      Lookup(PlainToggleAll(names, states), k) == if states[i].1 then Some(Bool(true)) else None
    ensures (forall s :: s in states ==> s.0 != k) ==> Lookup(PlainToggleAll(names, states), k) == Lookup(names, k)
  {
    if states != [] {
      var n := |states| - 1;
      var front, last := states[..n], states[n];
      assert states == front + [last];
      ToggledAt(names, front, k, i);
      ToggledLast(PlainToggleAll(names, front), last, k);
      assert last in states;
    }
  }

  lemma ToggledLast(names: Section, last: (Key, bool), k: Key)
    ensures Lookup(PlainApply(names, Toggle(last.0, last.1)), k)
         == if k != last.0 then Lookup(names, k) else if last.1 then Some(Bool(true)) else None
  {
  }

  /** A committed mapping request: the model points at the raw id; the former
      name is gone, unless a rename finds it pointing at another raw id; every
      other name stays as it was. */
  lemma {:induction false} MappingReads(base: Section, o: Section, p: Key, model: string, raw: string, former: string,
                                        k: Key)
    requires Shaped(o) && EntryOk(o, ModelMap, p)
    ensures var before := Lookup(NamesAt(base, o, ModelMap, p), k);
      Lookup(NamesAt(base, Commit(base, o, Mapping(p, model, raw, former)), ModelMap, p), k)
      == if model != "" && k == Name(model) then Some(Str(raw))
         else if former != "" && k == Name(former) && (model == "" || raw == "" || before == Some(Str(raw))) then None
         else before
  {
    NamesNeverNull(base, o, ModelMap, p);
    CommitNames(base, o, Mapping(p, model, raw, former), ModelMap, p);
  }

  lemma NamesNeverNull(base: Section, o: Section, f: Field, p: Key)
    ensures forall k :: k in NamesAt(base, o, f, p) ==> NamesAt(base, o, f, p)[k] != Null
  {
  }

  /** A committed variant list: it is stored under the model, an empty one
      removes the entry, and no other entry of the map changes. */
  lemma {:induction false} VariantsRead(base: Section, o: Section, p: Key, id: Key, variants: seq<Json>, k: Key)
    requires Shaped(o) && EntryOk(o, Variants, p)
    ensures Lookup(NamesAt(base, Commit(base, o, SetVariants(p, id, variants)), Variants, p), k)
         == if k != id then Lookup(NamesAt(base, o, Variants, p), k)
            else if variants == [] then None else Some(List(variants))
  {
    CommitNames(base, o, SetVariants(p, id, variants), Variants, p);
  }

  // One provider with one name, in a layer of its own.
  function OneName(p: Key, name: string, raw: string): Section {
    map[Models := Obj(map[MapField(ModelMap) := Obj(map[p := Obj(map[Name(name) := Str(raw)])])])]
  }

  lemma OneNameReads(p: Key, name: string, raw: string)
    ensures Shaped(OneName(p, name, raw)) && EntryOk(OneName(p, name, raw), ModelMap, p)
    ensures Entries(OneName(p, name, raw), ModelMap) == map[p := Obj(map[Name(name) := Str(raw)])]
    ensures NamesAt(map[], OneName(p, name, raw), ModelMap, p) == map[Name(name) := Str(raw)]
    ensures Plain(map[Name(name) := Str(raw)], map[]) == map[Name(name) := Str(raw)]
  {
    var o, names := OneName(p, name, raw), map[Name(name) := Str(raw)];
    assert Entries(o, ModelMap) == map[p := Obj(names)];
    MergeEmpty(names);
    assert StripNulls(names) == names;
    assert Entries(map[], ModelMap) == map[];
    assert Merged(map[], Entries(o, ModelMap), p) == Some(Obj(names));
  }

  /** A deletion the guard refuses: the only name of a provider points at "b", a
      request for raw model "c" deletes it, and it is gone. */
  lemma GuardedNameDeleted(p: Key)
    ensures var o := OneName(p, "a", "b");
      Guarded(NamesAt(map[], o, ModelMap, p), "c", "a")
      && NamesAt(map[], Commit(map[], o, Mapping(p, "", "c", "a")), ModelMap, p) == map[]
  {
    var o := OneName(p, "a", "b");
    OneNameReads(p, "a", "b");
    CommitNames(map[], o, Mapping(p, "", "c", "a"), ModelMap, p);
    assert map[Name("a") := Str("b")] - {Name("a")} == map[];
  }

  // -------------------------------------------------- whole-provider tombstones

  // The names an edit decides, whatever they pointed at before.
  function Decides(names: Section, e: Edit): set<Key> {
    match e
    case Mapping(_, model, raw, former) =>
      (if model != "" then {Name(model)} else {}) +
      (if former != "" && (model == "" || !Guarded(names, raw, former)) then {Name(former)} else {})
    case Disable(_, id, _) => {id}
    case DisableMany(_, states) => set s <- states :: s.0
    case SetVariants(_, id, _) => {id}
  }

  lemma ToggleLocal(names: Section, states: seq<(Key, bool)>, k: Key)
    ensures Lookup(PlainToggleAll(names, states), k)
         == if exists s :: s in states && s.0 == k then Lookup(PlainToggleAll(map[], states), k) else Lookup(names, k)
  {
    if states != [] {
      var last := states[|states| - 1];
      ToggleLocal(names, states[..|states| - 1], k);
      assert states == states[..|states| - 1] + [last];
    }
  }

  // An edit forgets what it edits exactly where it decides every name.
  lemma EditForgets(names: Section, e: Edit)
    ensures PlainEdit(names, e) == PlainEdit(map[], e) <==> names.Keys <= Decides(names, e)
  {
    var after, plain := PlainEdit(names, e), PlainEdit(map[], e);
    forall k ensures Lookup(after, k) == if k in Decides(names, e) then Lookup(plain, k) else Lookup(names, k)
             ensures k !in Decides(names, e) ==> k !in plain {
      if e.DisableMany? {
        ToggleLocal(names, e.states, k);
        ToggleLocal(map[], e.states, k);
      }
    }
    if names.Keys <= Decides(names, e) {
      SameSection(after, plain);
    } else {
      var k :| k in names && k !in Decides(names, e);
      assert Lookup(after, k) != Lookup(plain, k);
    }
  }

  // The provider's own entry hides the base names: a tombstone, or a value
  // written by hand that is no object.
  predicate Masks(o: Section, f: Field, p: Key) {
    p in Entries(o, f) && !Entries(o, f)[p].Obj?
  }

  /** An edit of a provider whose whole entry is masked overwrites the mask, so
      the base names come back.  It refines the plain edit exactly
      when the base holds no name that the edit does not decide. */
  lemma TombstoneExactly(base: Section, o: Section, e: Edit)
    requires Shaped(o) && Masks(o, Target(e), e.provider)
    ensures NamesAt(base, o, Target(e), e.provider) == map[]
    ensures var revived := Plain(Sub(Entries(base, Target(e)), e.provider), map[]);
            NamesAt(base, EditOverlay(base, o, e), Target(e), e.provider) == PlainEdit(map[], e)
            <==> revived.Keys <= Decides(revived, e)
  {
    var f, p := Target(e), e.provider;
    var b := Sub(Entries(base, f), p);
    TombstoneOverwritten(base, o, e);
    EditRefines(b, map[], e);
    EditForgets(Plain(b, map[]), e);
  }

  lemma TombstoneOverwritten(base: Section, o: Section, e: Edit)
    requires Shaped(o) && Masks(o, Target(e), e.provider)
    ensures var b := Sub(Entries(base, Target(e)), e.provider);
            NamesAt(base, EditOverlay(base, o, e), Target(e), e.provider) == Plain(b, EditMap(b, map[], e))
  {
    var f, p := Target(e), e.provider;
    var m := EditMap(Sub(Entries(base, f), p), map[], e);
    EntriesWritten(o, f, p, m, f);
    EditKeepsShape(base, o, e, f, p);
    NamesMerged(base, EditOverlay(base, o, e), f, p);
  }

  /** A tombstone that is lost: the base names "a", the overlay hides the whole
      provider, a new name "c" is added, and "a" is back. */
  lemma TombstoneLost(p: Key)
    ensures var base := OneName(p, "a", "b");
      var o := map[Models := Obj(map[MapField(ModelMap) := Obj(map[p := Null])])];
      NamesAt(base, o, ModelMap, p) == map[]
      && Name("a") in NamesAt(base, EditOverlay(base, o, Mapping(p, "c", "d", "")), ModelMap, p)
  {
    var base, e := OneName(p, "a", "b"), Mapping(p, "c", "d", "");
    var o := map[Models := Obj(map[MapField(ModelMap) := Obj(map[p := Null])])];
    OneNameReads(p, "a", "b");
    assert Entries(o, ModelMap) == map[p := Null];
    TombstoneExactly(base, o, e);
    TombstoneOverwritten(base, o, e);
    var b := map[Name("a") := Str("b")];
    assert Sub(Entries(base, ModelMap), p) == b;
    EditRefines(b, map[], e);
    assert Name("a") in PlainEdit(Plain(b, map[]), e);
  }
}
