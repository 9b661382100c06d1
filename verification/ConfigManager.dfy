/** The configuration manager as an object: base layer, overlay, the derived
    configuration, and the lock-protected operations that change them. */
module ConfigManager {
  import opened Options
  import opened Json
  import opened ConfigOverlay
  import opened ConfigEdits
  import opened PolicyStore
  import opened SchedulerPolicy
  import opened Text
  import VariantLists
  import opened IdText

  datatype Warning = NoWarning | Refused(former: Key, current: Json) | Overwrote(name: Key, previous: Json)

  datatype Outcome = Done | Rejected

  // ------------------------------------------------------ request validation

  // A field of a mapping request: blank, a valid id, or refused.
  predicate IdFieldOk(s: string) {
    Strip(s) == "" || ValidIdText(Strip(s))
  }

  predicate MappingAccepted(model: string, raw: string, former: string) {
    && IdFieldOk(model) && IdFieldOk(raw) && IdFieldOk(former)
    && (Strip(model) != "" ==> Strip(raw) != "")
    && (Strip(model) != "" || Strip(former) != "")
  }

  // The warning a mapping request leaves behind, told from the plain map.
  function MappingWarning(names: Section, model: string, raw: string, former: string): Warning {
    var guarded := former != "" && former != model && Guarded(names, raw, former);
    var released := if former != "" && former != model && !guarded then names - {Name(former)} else names;
    if model != "" && Name(model) in released && !Falsy(released[Name(model)]) && released[Name(model)] != Str(raw) then
      Overwrote(Name(model), released[Name(model)])
    else if guarded then Refused(Name(former), names[Name(former)])
    else NoWarning
  }

  // The same, for a request against the two layers.
  function MappingTold(base: Section, overlay: Section, provider: Key, model: string, raw: string,
                       former: string): Warning
  {
    var names := Plain(Sub(Entries(base, ModelMap), provider), Sub(Entries(overlay, ModelMap), provider));
    MappingWarning(names, Strip(model), Strip(raw), Strip(former))
  }

  /** A mapping request is accepted exactly when each of its three texts, with
      surrounding blanks gone, is at most 256 characters and none of them is a
      control character, and it either maps a model to some raw id or deletes a
      former name. */
  lemma AcceptedMappings(model: string, raw: string, former: string)
    ensures MappingAccepted(model, raw, former) <==>
      && (forall s :: s in [model, raw, former] ==> |Strip(s)| <= 256 && forall c :: c in Strip(s) ==> c as int >= 32)
      && (if Strip(model) != "" then Strip(raw) != "" else Strip(former) != "")
  {
    FieldReads(model);
    FieldReads(raw);
    FieldReads(former);
    assert model in [model, raw, former] && raw in [model, raw, former] && former in [model, raw, former];
  }

  lemma FieldReads(s: string)
    ensures IdFieldOk(s) <==> |Strip(s)| <= 256 && forall c :: c in Strip(s) ==> c as int >= 32
  {
    if Strip(s) != "" { IdTextExactly(Strip(s)); }
  }

  /** An accepted mapping that warns of nothing takes effect in full and loses no
      name that pointed at another raw id; otherwise the warning tells which name
      was taken over, or which former name was kept. */
  lemma {:induction false} WarningTells(names: Section, model: string, raw: string, former: string)
    requires model != "" && raw != "" && forall k :: k in names ==> names[k] != Null
    ensures var w, after := MappingWarning(names, model, raw, former), PlainMapping(names, model, raw, former);
      && (w.Overwrote? <==>
            Name(model) in names && !Falsy(names[Name(model)]) && after[Name(model)] != names[Name(model)])
      && (w.Overwrote? ==> w == Overwrote(Name(model), names[Name(model)]))
      && (w.Refused? ==> former != model && Name(former) in names && after[Name(former)] == names[Name(former)]
                         && w == Refused(Name(former), names[Name(former)]))
      && (w.NoWarning? ==>
            && (former != "" && former != model ==> Name(former) !in after)
            && forall k :: k in names && !Falsy(names[k]) && names[k] != Str(raw) ==>
                 k in after && after[k] == names[k])
  {
  }

  /** A deletion warns of a name that points at another raw id than the one the
      request gives, although it deletes that name. */
  lemma DeletionWarns(names: Section, raw: string, former: string)
    requires former != "" && forall k :: k in names ==> names[k] != Null
    ensures Name(former) !in PlainMapping(names, "", raw, former)
    ensures MappingWarning(names, "", raw, former)
         == if raw != "" && Name(former) in names && names[Name(former)] != Str(raw)
            then Refused(Name(former), names[Name(former)]) else NoWarning
  {
  }

  function Requested(provider: Key, model: string, raw: string, former: string): Edit {
    Mapping(provider, Strip(model), Strip(raw), Strip(former))
  }

  function VariantsRequested(provider: Key, model: string, entries: seq<VariantLists.Entry>): Edit
    requires VariantLists.Accepted(entries)
  {
    SetVariants(provider, Name(Strip(model)), VariantLists.Cleaned(entries))
  }

  // Layers on which an edit behaves like an edit of one map.
  predicate Editable(base: Section, overlay: Section, e: Edit) {
    BaseOk(base) && Shaped(overlay) && EntryOk(overlay, Target(e), e.provider)
  }

  /** A reader of the configuration sees the edit on the edited map, as if the
      map were plain, and sees every other provider's names as before. */
  ghost predicate ReadsAsEdited(before: Section, after: Section, e: Edit) {
    forall f, p ::
      ReadNames(after, f, p) == if f == Target(e) && p == e.provider then PlainEdit(ReadNames(before, f, p), e)
                                             else ReadNames(before, f, p)
  }

  lemma CommitReads(base: Section, o: Section, np: EntryNormalizer, e: Edit)
    requires Editable(base, o, e)
    ensures ReadsAsEdited(Normalized(base, o, np), Normalized(base, Commit(base, o, e), np), e)
  {
    var before, after := Normalized(base, o, np), Normalized(base, Commit(base, o, e), np);
    forall f, p
      ensures ReadNames(after, f, p) == if f == Target(e) && p == e.provider then PlainEdit(ReadNames(before, f, p), e)
                                                  else ReadNames(before, f, p)
    {
      CommitNames(base, o, e, f, p);
      ConfigShowsNames(base, o, np, f, p);
      ConfigShowsNames(base, Commit(base, o, e), np, f, p);
    }
  }

  // ------------------------------------------- what a reader finds afterwards

  /** Of one provider's map, a reader finds the given value, or nothing, under
      one id and everything else as before. */
  ghost predicate OnlySets(before: Section, after: Section, f: Field, p: Key, id: Key, v: Option<Json>) {
    forall k :: Lookup(ReadNames(after, f, p), k) == if k == id then v else Lookup(ReadNames(before, f, p), k)
  }

  /** The last state given for each id is what a reader finds. */
  ghost predicate SwitchesShow(before: Section, after: Section, p: Key, states: seq<(string, bool)>) {
    && (forall i :: 0 <= i < |states| && (forall j :: i < j < |states| ==> Strip(states[j].0) != Strip(states[i].0)) ==>
          Lookup(ReadNames(after, Disabled, p), Name(Strip(states[i].0)))
          == if states[i].1 then Some(Bool(true)) else None)
    && (forall k :: (forall s :: s in states ==> Name(Strip(s.0)) != k) ==>
          Lookup(ReadNames(after, Disabled, p), k) == Lookup(ReadNames(before, Disabled, p), k))
  }

  /** The model is read as the raw id, the former name is gone unless a rename
      finds it pointing elsewhere, and all other names are read as before. */
  ghost predicate MappingShows(before: Section, after: Section, p: Key, model: string, raw: string, former: string) {
    forall k ::
      var was := Lookup(ReadNames(before, ModelMap, p), k);
      Lookup(ReadNames(after, ModelMap, p), k)
      == if model != "" && k == Name(model) then Some(Str(raw))
         else if former != "" && k == Name(former) && (model == "" || raw == "" || was == Some(Str(raw))) then None
         else was
  }

  lemma SwitchShown(base: Section, o: Section, np: EntryNormalizer, p: Key, id: Key, off: bool)
    requires Editable(base, o, Disable(p, id, off))
    ensures OnlySets(Normalized(base, o, np), Normalized(base, Commit(base, o, Disable(p, id, off)), np),
                     Disabled, p, id, if off then Some(Bool(true)) else None)
  {
    var o' := Commit(base, o, Disable(p, id, off));
    CommitNames(base, o, Disable(p, id, off), Disabled, p);
    ConfigShowsNames(base, o, np, Disabled, p);
    ConfigShowsNames(base, o', np, Disabled, p);
    forall k { SwitchReads(base, o, p, id, off, k); }
  }

  lemma VariantsShown(base: Section, o: Section, np: EntryNormalizer, p: Key, id: Key, variants: seq<Json>)
    requires Editable(base, o, SetVariants(p, id, variants))
    ensures OnlySets(Normalized(base, o, np), Normalized(base, Commit(base, o, SetVariants(p, id, variants)), np),
                     Variants, p, id, if variants == [] then None else Some(List(variants)))
  {
    var o' := Commit(base, o, SetVariants(p, id, variants));
    CommitNames(base, o, SetVariants(p, id, variants), Variants, p);
    ConfigShowsNames(base, o, np, Variants, p);
    ConfigShowsNames(base, o', np, Variants, p);
    forall k { VariantsRead(base, o, p, id, variants, k); }
  }

  lemma MappingShown(base: Section, o: Section, np: EntryNormalizer, p: Key, model: string, raw: string, former: string)
    requires Editable(base, o, Mapping(p, model, raw, former))
    ensures MappingShows(Normalized(base, o, np), Normalized(base, Commit(base, o, Mapping(p, model, raw, former)), np),
                         p, model, raw, former)
  {
    var o' := Commit(base, o, Mapping(p, model, raw, former));
    CommitNames(base, o, Mapping(p, model, raw, former), ModelMap, p);
    ConfigShowsNames(base, o, np, ModelMap, p);
    ConfigShowsNames(base, o', np, ModelMap, p);
    forall k { MappingReads(base, o, p, model, raw, former, k); }
  }

  lemma SwitchesShown(base: Section, o: Section, np: EntryNormalizer, p: Key, states: seq<(string, bool)>)
    requires Editable(base, o, DisableMany(p, Stripped(states)))
    ensures var o' := Commit(base, o, DisableMany(p, Stripped(states)));
            SwitchesShow(Normalized(base, o, np), Normalized(base, o', np), p, states)
  {
    var o' := Commit(base, o, DisableMany(p, Stripped(states)));
    CommitNames(base, o, DisableMany(p, Stripped(states)), Disabled, p);
    ConfigShowsNames(base, o, np, Disabled, p);
    ConfigShowsNames(base, o', np, Disabled, p);
    forall i | 0 <= i < |states| && (forall j :: i < j < |states| ==> Strip(states[j].0) != Strip(states[i].0))
      ensures Lookup(NamesAt(base, o', Disabled, p), Name(Strip(states[i].0)))
              == if states[i].1 then Some(Bool(true)) else None
    {
      MentionedShown(base, o, p, states, i);
    }
    forall k | forall s :: s in states ==> Name(Strip(s.0)) != k
      ensures Lookup(NamesAt(base, o', Disabled, p), k) == Lookup(NamesAt(base, o, Disabled, p), k)
    {
      UnmentionedShown(base, o, p, states, k);
    }
  }

  lemma MentionedShown(base: Section, o: Section, p: Key, states: seq<(string, bool)>, i: nat)
    requires Shaped(o) && EntryOk(o, Disabled, p) && i < |states|
    requires forall j :: i < j < |states| ==> Strip(states[j].0) != Strip(states[i].0)
    ensures var o' := Commit(base, o, DisableMany(p, Stripped(states)));
            Lookup(NamesAt(base, o', Disabled, p), Name(Strip(states[i].0)))
            == if states[i].1 then Some(Bool(true)) else None
  {
    var keys := Stripped(states);
    assert LastMention(keys, keys[i].0, i) by {
      forall j | i < j < |keys| ensures keys[j].0 != keys[i].0 { assert keys[j].0 == Name(Strip(states[j].0)); }
    }
    SwitchesRead(base, o, p, keys, keys[i].0, i);
  }

  lemma UnmentionedShown(base: Section, o: Section, p: Key, states: seq<(string, bool)>, k: Key)
    requires Shaped(o) && EntryOk(o, Disabled, p)
    requires forall s :: s in states ==> Name(Strip(s.0)) != k
    ensures Lookup(NamesAt(base, Commit(base, o, DisableMany(p, Stripped(states))), Disabled, p), k)
         == Lookup(NamesAt(base, o, Disabled, p), k)
  {
    var keys := Stripped(states);
    forall s | s in keys ensures s.0 != k {
      var i :| 0 <= i < |keys| && keys[i] == s;
      assert states[i] in states;
    }
    SwitchesRead(base, o, p, keys, k, 0);
  }

  // ------------------------------------------------- pruning, step by step

  // The model sections with only the keys in done pruned.
  function PrunedUpTo(bm: Section, m: Section, done: set<Key>): Section {
    map k | k in m && !(k in done && PrunedAway(bm, k, m[k])) :: if k in done then PruneSub(bm, k, m[k]) else m[k]
  }

  const SECTIONS: seq<Key> :=
    [Routes, MapField(ModelMap), DiscoveryField(false), DiscoveryField(true), MapField(Disabled), MapField(Variants)]

  method PruneSection(bm: Section, m: Section, k: Key) returns (out: Section)
    requires k.Routes? || k.MapField? || k.DiscoveryField?
    ensures out == if k !in m then m
                   else if PrunedAway(bm, k, m[k]) then m - {k} else m[k := PruneSub(bm, k, m[k])]
  {
    out := m;
    if k !in m || !m[k].Obj? { return; }
    var pruned;
    if k.MapField? {
      pruned := PruneFieldEntries(Sub(bm, k), m[k].fields);
    } else if k.DiscoveryField? {
      pruned := PruneNulls(Sub(bm, k), OnlyNulls(m[k].fields));
    } else {
      pruned := PruneNulls(Sub(bm, k), m[k].fields);
    }
    if pruned == map[] { out := out - {k}; } else { out := out[k := Obj(pruned)]; }
  }

  // One editable map, provider by provider.
  method PruneFieldEntries(b: Section, entries: Section) returns (out: Section)
    ensures out == PruneEntries(b, entries)
  {
    out := map p | p in entries && !(entries[p] == Null && p !in b) :: entries[p];
    var todo := out.Keys;
    EntriesBegin(b, entries, out);
    while todo != {}
      invariant out == EntriesUpTo(b, entries, todo) && todo <= out.Keys
      decreases |todo|
    {
      var p :| p in todo;
      EntriesStep(b, entries, todo, p);
      todo := todo - {p};
      out := PruneOneEntry(b, out, p);
    }
    EntriesEnd(b, entries);
  }

  method PruneOneEntry(b: Section, e: Section, p: Key) returns (out: Section)
    requires p in e
    ensures out == if p !in b && PruneEntry(b, p, e[p]) == Obj(map[]) then e - {p} else e[p := PruneEntry(b, p, e[p])]
  {
    out := e;
    if e[p].Obj? {
      var names := PruneNulls(Sub(b, p), e[p].fields);
      if names == map[] && p !in b { out := e - {p}; } else { out := e[p := Obj(names)]; }
    }
  }

  lemma EntriesBegin(b: Section, e: Section, out: Section)
    requires out == map p | p in e && !(e[p] == Null && p !in b) :: e[p]
    ensures out == EntriesUpTo(b, e, out.Keys)
  {
  }

  lemma EntriesEnd(b: Section, e: Section)
    ensures EntriesUpTo(b, e, {}) == PruneEntries(b, e)
  {
  }

  // The provider entries with only those outside todo pruned.
  function EntriesUpTo(b: Section, e: Section, todo: set<Key>): Section {
    map p | p in e && !(p !in b && (e[p] == Null || (p !in todo && PruneEntry(b, p, e[p]) == Obj(map[]))))
      :: if p in todo then e[p] else PruneEntry(b, p, e[p])
  }

  lemma EntriesStep(b: Section, e: Section, todo: set<Key>, p: Key)
    requires p in todo && todo <= EntriesUpTo(b, e, todo).Keys
    ensures p in e && Lookup(EntriesUpTo(b, e, todo), p) == Some(e[p])
    ensures todo - {p} <= EntriesUpTo(b, e, todo - {p}).Keys
    ensures var out, next := EntriesUpTo(b, e, todo), EntriesUpTo(b, e, todo - {p});
            next == if p !in b && PruneEntry(b, p, e[p]) == Obj(map[]) then out - {p}
                    else out[p := PruneEntry(b, p, e[p])]
  {
    var out, next := EntriesUpTo(b, e, todo), EntriesUpTo(b, e, todo - {p});
    assert p in out;
    forall q | q != p ensures Lookup(next, q) == Lookup(out, q) {
      EntryUpTo(b, e, todo, q);
      EntryUpTo(b, e, todo - {p}, q);
    }
    EntryUpTo(b, e, todo, p);
    EntryUpTo(b, e, todo - {p}, p);
    StepFrame(out, next, p, if p !in b && PruneEntry(b, p, e[p]) == Obj(map[]) then None
        else Some(PruneEntry(b, p, e[p])));
    assert forall q :: q in todo && q != p ==> Lookup(out, q).Some?;
  }

  lemma EntryUpTo(b: Section, e: Section, todo: set<Key>, p: Key)
    ensures Lookup(EntriesUpTo(b, e, todo), p)
         == if p !in e || (p !in b && (e[p] == Null || (p !in todo && PruneEntry(b, p, e[p]) == Obj(map[])))) then None
            else Some(if p in todo then e[p] else PruneEntry(b, p, e[p]))
  {
  }

  lemma StepFrame(out: Section, next: Section, p: Key, v: Option<Json>)
    requires forall q :: q != p ==> Lookup(next, q) == Lookup(out, q)
    requires Lookup(next, p) == v
    ensures next == if v.None? then out - {p} else out[p := v.value]
  {
    var want := if v.None? then out - {p} else out[p := v.value];
    forall q ensures Lookup(next, q) == Lookup(want, q) {
      if q != p { assert Lookup(next, q) == Lookup(out, q); }
    }
    SameSection(next, want);
  }

  method PruneSections(bm: Section, m: Section) returns (out: Section)
    ensures out == PruneModels(bm, m)
  {
    out := m;
    ghost var done: set<Key> := {};
    assert out == PrunedUpTo(bm, m, {});
    for i := 0 to |SECTIONS|
      invariant done == set k | k in SECTIONS[..i]
      invariant out == PrunedUpTo(bm, m, done)
    {
      var k := SECTIONS[i];
      assert k !in done;
      out := PruneSection(bm, out, k);
      PrunedStep(bm, m, done, k);
      done := done + {k};
    }
    out := out - {UnionSnapshot};
    assert done == set k | k in SECTIONS;
    forall k: Key ensures k in done <==> k.Routes? || k.MapField? || k.DiscoveryField? { SectionsListed(k); }
    AllSections(bm, m, done);
  }

  lemma SectionsListed(k: Key)
    ensures k in SECTIONS <==> k.Routes? || k.MapField? || k.DiscoveryField?
  {
    assert SECTIONS[0] == Routes && SECTIONS[1] == MapField(ModelMap) && SECTIONS[2] == DiscoveryField(false);
    assert k.MapField? ==> k.field == ModelMap || k.field == Disabled || k.field == Variants;
    assert SECTIONS[3] == DiscoveryField(true) && SECTIONS[4] == MapField(Disabled) &&
        SECTIONS[5] == MapField(Variants);
  }

  lemma PrunedStep(bm: Section, m: Section, done: set<Key>, k: Key)
    requires k !in done && (k.Routes? || k.MapField? || k.DiscoveryField?)
    ensures var out := PrunedUpTo(bm, m, done);
            PrunedUpTo(bm, m, done + {k})
            == if k !in out then out else if PrunedAway(bm, k, out[k]) then out - {k}
                else out[k := PruneSub(bm, k, out[k])]
  {
    var out, next := PrunedUpTo(bm, m, done), PrunedUpTo(bm, m, done + {k});
    assert Lookup(out, k) == Lookup(m, k);
  }

  lemma AllSections(bm: Section, m: Section, done: set<Key>)
    requires forall k: Key :: k in done <==> k.Routes? || k.MapField? || k.DiscoveryField?
    ensures PrunedUpTo(bm, m, done) - {UnionSnapshot} == PruneModels(bm, m)
  {
  }

  // The scheduler applies a policy, except for an honoured Retry-After.
  ghost predicate PolicyApplies(rd: Readers, config: Section, e: ErrorType, policy: Policy) {
    forall c: Config, retryAfter: Option<int> ::
      PolicyInForce(c, rd, config, e, retryAfter) == WithRetryAfter(c, e, retryAfter, policy)
  }

  lemma PolicyReads(rd: Readers, np: EntryNormalizer, base: Section, o: Section, p: Patch)
    requires Updated(rd, np, base, o, p).Some?
    ensures PolicyApplies(rd, Normalized(base, Updated(rd, np, base, o, p).value, np), p.e,
                          Accepted(rd, Normalized(base, o, np), o, p).value)
  {
    forall c: Config, retryAfter: Option<int> {
      SavedIsApplied(c, rd, np, base, o, p, retryAfter);
    }
  }

  // Write a pruned section back, or pop it when nothing is left.
  function Replaced(s: Section, k: Key, kept: Section): Section {
    if kept == map[] then s - {k} else s[k := Obj(kept)]
  }

  function ProvidersPruned(base: Section, o: Section): Section {
    if Providers in o && o[Providers].Obj? then
      Replaced(o, Providers, PruneNulls(Sub(base, Providers), o[Providers].fields))
    else o
  }

  function ModelsPruned(base: Section, o: Section): Section {
    if Models in o && o[Models].Obj? then Replaced(o, Models, PruneModels(Sub(base, Models), o[Models].fields)) else o
  }

  lemma ReplacedAt(s: Section, k: Key, kept: Section, j: Key)
    ensures Lookup(Replaced(s, k, kept), j)
         == if j != k then Lookup(s, j) else if kept == map[] then None else Some(Obj(kept))
  {
  }

  lemma PruneAt(base: Section, o: Section, k: Key)
    ensures Lookup(Prune(base, o), k)
         == if k !in o || ((k.Providers? || k.Models?) && PruneTop(base, k, o[k]) == Obj(map[])) then None
            else Some(PruneTop(base, k, o[k]))
  {
  }

  lemma PrunedAt(base: Section, o: Section, k: Key)
    ensures Lookup(ModelsPruned(base, ProvidersPruned(base, o)), k) == Lookup(Prune(base, o), k)
  {
    var p := ProvidersPruned(base, o);
    PruneAt(base, o, k);
    if Providers in o && o[Providers].Obj? {
      ReplacedAt(o, Providers, PruneNulls(Sub(base, Providers), o[Providers].fields), k);
      ReplacedAt(o, Providers, PruneNulls(Sub(base, Providers), o[Providers].fields), Models);
    }
    assert Lookup(p, Models) == Lookup(o, Models);
    if Models in o && o[Models].Obj? {
      ReplacedAt(p, Models, PruneModels(Sub(base, Models), o[Models].fields), k);
    }
  }

  lemma PrunedInTurn(base: Section, o: Section)
    ensures ModelsPruned(base, ProvidersPruned(base, o)) == Prune(base, o)
  {
    var out := ModelsPruned(base, ProvidersPruned(base, o));
    forall k ensures Lookup(out, k) == Lookup(Prune(base, o), k) { PrunedAt(base, o, k); }
    SameSection(out, Prune(base, o));
  }

  /** `_prune_overlay_tombstones` as it runs: section by section, popping. */
  method PruneOverlay(base: Section, overlay: Section) returns (out: Section)
    ensures out == Prune(base, overlay)
  {
    out := overlay;
    if Providers in out && out[Providers].Obj? {
      var kept := PruneNulls(Sub(base, Providers), out[Providers].fields);
      out := Replaced(out, Providers, kept);
    }
    assert out == ProvidersPruned(base, overlay);
    if Models in out && out[Models].Obj? {
      var kept := PruneSections(Sub(base, Models), out[Models].fields);
      out := Replaced(out, Models, kept);
    }
    assert out == ModelsPruned(base, ProvidersPruned(base, overlay));
    PrunedInTurn(base, overlay);
  }

  // ------------------------------------------------------------ the manager

  class RuntimeConfig {
    const np: EntryNormalizer
    var base: Section
    var overlay: Section
    var config: Section
    var revision: nat
    var warning: Warning

    /** What every operation keeps: the published configuration is the
        normalised merge of the two layers. */
    ghost predicate Valid()
      reads this
    {
      config == Normalized(base, overlay, np)
    }

    constructor (np: EntryNormalizer, base: Section, stored: Section)
      ensures Valid() && this.np == np && this.base == base && this.overlay == stored
      ensures revision == 0 && warning == NoWarning
    {
      this.np, this.base, this.overlay := np, base, stored;
      config := Normalized(base, stored, np);
      revision, warning := 0, NoWarning;
    }

    // The tail of `_locked_overlay`: prune, store, republish.
    method CommitDraft(draft: Section)
      modifies this`overlay, this`config, this`revision
      ensures Valid() && overlay == Prune(base, draft) && revision == old(revision) + 1
    {
      overlay := PruneOverlay(base, draft);
      config := Normalized(base, overlay, np);
      revision := revision + 1;
    }

    method CommitEdit(e: Edit, entry: Section)
      requires Valid()
      requires entry == EditMap(Sub(Entries(base, Target(e)), e.provider),
                                Sub(Entries(overlay, Target(e)), e.provider), e)
      modifies this`overlay, this`config, this`revision
      ensures Valid() && overlay == Commit(base, old(overlay), e) && revision == old(revision) + 1
      ensures Editable(base, old(overlay), e) ==> ReadsAsEdited(old(config), config, e)
    {
      ghost var before := overlay;
      CommitDraft(WithEntry(overlay, Target(e), e.provider, entry));
      if Editable(base, before, e) { CommitReads(base, before, np, e); }
    }

    // The edit of an accepted mapping request, drafted on the provider's maps.
    method DraftRequested(provider: Key, model: string, raw: string, former: string)
      returns (entry: Section, told: Warning)
      ensures var b, m := Sub(Entries(base, ModelMap), provider), Sub(Entries(overlay, ModelMap), provider);
              entry == EditMap(b, m, Requested(provider, model, raw, former))
      ensures told == MappingTold(base, overlay, provider, model, raw, former)
    {
      var b, m := Sub(Entries(base, ModelMap), provider), Sub(Entries(overlay, ModelMap), provider);
      entry, told := DraftMapping(b, m, Strip(model), Strip(raw), Strip(former));
    }

    method CommitMapping(provider: Key, model: string, raw: string, former: string)
      requires Valid()
      modifies this`overlay, this`config, this`revision, this`warning
      ensures Valid()
      ensures overlay == Commit(base, old(overlay), Requested(provider, model, raw, former))
              && revision == old(revision) + 1
      ensures warning == MappingTold(base, old(overlay), provider, model, raw, former)
      ensures Editable(base, old(overlay), Requested(provider, model, raw, former)) ==>
                && ReadsAsEdited(old(config), config, Requested(provider, model, raw, former))
                && MappingShows(old(config), config, provider, Strip(model), Strip(raw), Strip(former))
    {
      ghost var before := overlay;
      var entry, told := DraftRequested(provider, model, raw, former);
      warning := told;
      CommitEdit(Requested(provider, model, raw, former), entry);
      if Editable(base, before, Requested(provider, model, raw, former)) {
        MappingShown(base, before, np, provider, Strip(model), Strip(raw), Strip(former));
      }
    }

    /** `update_provider_model_mapping`: add, rename or delete a model name. */
    method UpdateMapping(provider: Key, model: string, raw: string, former: string) returns (r: Outcome)
      requires Valid()
      modifies this`overlay, this`config, this`revision, this`warning
      ensures Valid()
      ensures r.Done? <==> provider in old(Sub(config, Providers)) && MappingAccepted(model, raw, former)
      ensures r.Rejected? ==> unchanged(this`overlay, this`config, this`revision)
      ensures r.Rejected? ==> warning == if provider in Sub(config, Providers) then NoWarning else old(warning)
      ensures r.Done? ==> overlay == Commit(base, old(overlay), Requested(provider, model, raw, former))
                          && revision == old(revision) + 1
      ensures r.Done? ==> warning == MappingTold(base, old(overlay), provider, model, raw, former)
      ensures r.Done? && Editable(base, old(overlay), Requested(provider, model, raw, former)) ==>
                && ReadsAsEdited(old(config), config, Requested(provider, model, raw, former))
                && MappingShows(old(config), config, provider, Strip(model), Strip(raw), Strip(former))
    {
      if provider !in Sub(config, Providers) { return Rejected; }
      warning := NoWarning;
      if !MappingAccepted(model, raw, former) { return Rejected; }
      CommitMapping(provider, model, raw, former);
      r := Done;
    }

    /** `update_provider_model_disabled`. */
    method UpdateDisabled(provider: Key, model: string, off: bool) returns (r: Outcome)
      requires Valid()
      modifies this`overlay, this`config, this`revision
      ensures Valid()
      ensures r.Done? <==> provider in old(Sub(config, Providers)) && ValidIdText(Strip(model))
      ensures r.Rejected? ==> unchanged(this)
      ensures r.Done? ==> overlay == Commit(base, old(overlay), Disable(provider, Name(Strip(model)), off))
                          && revision == old(revision) + 1
      ensures r.Done? && Editable(base, old(overlay), Disable(provider, Name(Strip(model)), off)) ==>
                && ReadsAsEdited(old(config), config, Disable(provider, Name(Strip(model)), off))
                && OnlySets(old(config), config, Disabled, provider, Name(Strip(model)),
                            if off then Some(Bool(true)) else None)
    {
      ghost var before := overlay;
      if provider !in Sub(config, Providers) || !ValidIdText(Strip(model)) { return Rejected; }
      var k := Name(Strip(model));
      var b, m := Sub(Entries(base, Disabled), provider), Sub(Entries(overlay, Disabled), provider);
      var entry := if off then m[k := Bool(true)] else if k in b then m[k := Null] else m - {k};
      CommitEdit(Disable(provider, k, off), entry);
      if Editable(base, before, Disable(provider, k, off)) { SwitchShown(base, before, np, provider, k, off); }
      r := Done;
    }

    /** `update_provider_models_disabled`: many switches in one commit, or none
        when one id is refused. */
    method UpdateManyDisabled(provider: Key, states: seq<(string, bool)>) returns (r: Outcome)
      requires Valid()
      modifies this`overlay, this`config, this`revision
      ensures Valid()
      ensures r.Done? <==>
                provider in old(Sub(config, Providers)) && forall s :: s in states ==> ValidIdText(Strip(s.0))
      ensures r.Rejected? ==> unchanged(this)
      ensures r.Done? ==> overlay == Commit(base, old(overlay), DisableMany(provider, Stripped(states)))
                          && revision == old(revision) + 1
      ensures r.Done? && Editable(base, old(overlay), DisableMany(provider, Stripped(states))) ==>
                && ReadsAsEdited(old(config), config, DisableMany(provider, Stripped(states)))
                && SwitchesShow(old(config), config, provider, states)
    {
      ghost var before := overlay;
      if provider !in Sub(config, Providers) { return Rejected; }
      var b, m := Sub(Entries(base, Disabled), provider), Sub(Entries(overlay, Disabled), provider);
      var ok, entry := DraftToggles(b, m, states);
      if !ok { return Rejected; }
      CommitEdit(DisableMany(provider, Stripped(states)), entry);
      if Editable(base, before, DisableMany(provider, Stripped(states))) {
        SwitchesShown(base, before, np, provider, states);
      }
      r := Done;
    }

    /** `update_provider_model_variants`: the list is checked and arranged
        before it is committed. */
    method UpdateVariants(provider: Key, model: string, entries: seq<VariantLists.Entry>) returns (r: Outcome)
      requires Valid()
      modifies this`overlay, this`config, this`revision
      ensures Valid()
      ensures r.Done? <==>
                provider in old(Sub(config, Providers)) && ValidIdText(Strip(model)) && VariantLists.Accepted(entries)
      ensures r.Rejected? ==> unchanged(this)
      ensures r.Done? ==> overlay == Commit(base, old(overlay), VariantsRequested(provider, model, entries))
                          && revision == old(revision) + 1
      ensures r.Done? && Editable(base, old(overlay), VariantsRequested(provider, model, entries)) ==>
                && ReadsAsEdited(old(config), config, VariantsRequested(provider, model, entries))
                && OnlySets(old(config), config, Variants, provider, Name(Strip(model)),
                            if entries == [] then None else Some(List(VariantLists.Cleaned(entries))))
    {
      ghost var before := overlay;
      if provider !in Sub(config, Providers) || !ValidIdText(Strip(model)) { return Rejected; }
      var ok, clean := VariantLists.CleanVariants(entries);
      if !ok { return Rejected; }
      var k, variants := Name(Strip(model)), VariantLists.Stored(clean);
      var b, m := Sub(Entries(base, Variants), provider), Sub(Entries(overlay, Variants), provider);
      var entry := if variants != [] then m[k := List(variants)] else if k in b then m[k := Null] else m - {k};
      CommitEdit(SetVariants(provider, k, variants), entry);
      VariantLists.CleanedEmpty(entries);
      if Editable(base, before, SetVariants(provider, k, variants)) {
        VariantsShown(base, before, np, provider, k, variants);
      }
      r := Done;
    }

    /** `update_failure_policy`: the accepted policy is merged over the entry in
        force and stored in the overlay's retry section. */
    method UpdateFailurePolicy(rd: Readers, p: Patch) returns (r: Outcome)
      requires Valid()
      modifies this`overlay, this`config, this`revision
      ensures Valid()
      ensures r.Done? <==> Updated(rd, np, base, old(overlay), p).Some?
      ensures r.Rejected? ==> unchanged(this)
      ensures r.Done? ==> overlay == Updated(rd, np, base, old(overlay), p).value && revision == old(revision) + 1
      ensures r.Done? ==> PolicyApplies(rd, config, p.e, Accepted(rd, old(config), old(overlay), p).value)
      ensures r.Done? ==> AsAsked(Decode(rd, Sub(PoliciesOf(old(config)), PolicyKey(p.e))), p,
                                  Accepted(rd, old(config), old(overlay), p).value)
    {
      ghost var before := overlay;
      var accepted := Accepted(rd, config, overlay, p);
      if accepted.None? { return Rejected; }
      var retry := Sub(overlay, RETRY);
      var policies := Sub(retry, POLICIES);
      var entry := MergeInto(Sub(PoliciesOf(config), PolicyKey(p.e)), Encode(accepted.value));
      policies := policies[PolicyKey(p.e) := Obj(entry)];
      retry := retry[POLICIES := Obj(policies)];
      PolicyReads(rd, np, base, before, p);
      AcceptedAsAsked(Decode(rd, Sub(PoliciesOf(config), PolicyKey(p.e))), p);
      CommitDraft(overlay[RETRY := Obj(retry)]);
      r := Done;
    }

    /** `compact_overlay`: a commit with no edit changes nothing anyone reads. */
    method CompactOverlay()
      requires Valid()
      modifies this`overlay, this`config, this`revision
      ensures Valid() && overlay == Prune(base, old(overlay)) && revision == old(revision) + 1
      ensures BaseOk(base) ==> Compact(config) == Effective(base, DropDiscovery(old(overlay)), np)
    {
      ghost var before := overlay;
      CommitDraft(overlay);
      if BaseOk(base) { PruneKeepsEffective(base, before, np); }
    }

    /** `clear_overlay`: back to the base file. */
    method ClearOverlay()
      requires Valid()
      modifies this`overlay, this`config, this`revision
      ensures Valid() && overlay == map[] && revision == old(revision) + 1
      ensures config == StripConfig(NormalizeConfig(base, np))
    {
      overlay := map[];
      MergeEmpty(base);
      config := Normalized(base, overlay, np);
      revision := revision + 1;
    }

    /** `reload`: both layers are read again. */
    method Reload(newBase: Section, stored: Section)
      requires Valid()
      modifies this`base, this`overlay, this`config, this`revision
      ensures Valid() && base == newBase && overlay == stored && revision == old(revision) + 1
    {
      base, overlay := newBase, stored;
      config := Normalized(base, overlay, np);
      revision := revision + 1;
    }
  }

  function Stripped(states: seq<(string, bool)>): (r: seq<(Key, bool)>)
    ensures |r| == |states|
  {
    seq(|states|, i requires 0 <= i < |states| => (Name(Strip(states[i].0)), states[i].1))
  }

  lemma StrippedSnoc(states: seq<(string, bool)>, i: nat)
    requires i < |states|
    ensures Stripped(states[..i + 1]) == Stripped(states[..i]) + [(Name(Strip(states[i].0)), states[i].1)]
    ensures Stripped(states[..i + 1])[..i] == Stripped(states[..i])
    ensures states[..i + 1] == states[..i] + [states[i]]
  {
  }

  lemma ToggledMore(b: Section, m: Section, states: seq<(string, bool)>, i: nat)
    requires i < |states|
    ensures ToggleAll(b, m, Stripped(states[..i + 1]))
         == Apply(b, ToggleAll(b, m, Stripped(states[..i])), Toggle(Name(Strip(states[i].0)), states[i].1))
  {
    StrippedSnoc(states, i);
  }

  method DraftToggles(b: Section, m: Section, states: seq<(string, bool)>) returns (ok: bool, entry: Section)
    ensures ok <==> forall s :: s in states ==> ValidIdText(Strip(s.0))
    ensures ok ==> entry == ToggleAll(b, m, Stripped(states))
  {
    ok, entry := true, m;
    for i := 0 to |states|
      invariant forall s :: s in states[..i] ==> ValidIdText(Strip(s.0))
      invariant ok && entry == ToggleAll(b, m, Stripped(states[..i]))
    {
      if !ValidIdText(Strip(states[i].0)) {
        assert states[i] in states;
        return false, entry;
      }
      ToggledMore(b, m, states, i);
      entry := Apply(b, entry, Toggle(Name(Strip(states[i].0)), states[i].1));
    }
    assert states[..|states|] == states;
  }

  // The layered work of a mapping request, on one provider's entry.
  method DraftMapping(b: Section, m: Section, name: string, target: string, was: string)
    returns (entry: Section, told: Warning)
    ensures entry == MappingMap(b, m, name, target, was)
    ensures told == MappingWarning(Plain(b, m), name, target, was)
  {
    entry, told := m, NoWarning;
    if was != "" && was != name {
      var merged := DeepMerge(b, m);
      if Guarded(merged, target, was) {
        told := Refused(Name(was), merged[Name(was)]);
      } else {
        entry := Apply(b, entry, Remove(Name(was)));
      }
    }
    if name != "" {
      var current := DeepMerge(b, entry);
      if Name(name) in current && !Falsy(current[Name(name)]) && current[Name(name)] != Str(target) {
        told := Overwrote(Name(name), current[Name(name)]);
      }
      entry := Apply(b, entry, Put(Name(name), Str(target)));
    } else if was != "" {
      entry := Apply(b, entry, Remove(Name(was)));
    }
    WarningTold(b, m, name, target, was, told);
  }

  // The warning computed on the layers is the one the plain map calls for.
  lemma WarningTold(b: Section, m: Section, model: string, raw: string, former: string, w: Warning)
    requires var guarded := former != "" && former != model && Guarded(DeepMerge(b, m), raw, former);
             var entry := if former != "" && former != model && !guarded then Apply(b, m, Remove(Name(former))) else m;
             w == if model != "" && Lookup(DeepMerge(b, entry), Name(model)).Some?
                     && !Falsy(DeepMerge(b, entry)[Name(model)]) && DeepMerge(b, entry)[Name(model)] != Str(raw) then
                    Overwrote(Name(model), DeepMerge(b, entry)[Name(model)])
                  else if guarded then Refused(Name(former), DeepMerge(b, m)[Name(former)])
                  else NoWarning
    ensures w == MappingWarning(Plain(b, m), model, raw, former)
  {
    PlainAt(b, m, Name(former));
    var guarded := former != "" && former != model && Guarded(DeepMerge(b, m), raw, former);
    assert Guarded(DeepMerge(b, m), raw, former) == Guarded(Plain(b, m), raw, former);
    if former != "" && former != model && !guarded {
      ApplyRefines(b, m, Remove(Name(former)));
      PlainAt(b, Apply(b, m, Remove(Name(former))), Name(model));
    }
    PlainAt(b, m, Name(model));
  }
}
