/** Failure policies in the two layers of the runtime configuration: how a saved
    policy is merged into the overlay's retry section, and what the scheduler
    then reads back from the effective configuration. */
module PolicyStore {
  import opened Options
  import opened Json
  import opened ConfigOverlay
  import opened SchedulerPolicy
  import opened ConfigReads

  const RETRY := Name("retry")
  const POLICIES := Name("failure_policies")

  const SCOPE := Name("cooldown_scope")
  const COOLDOWN := Name("cooldown_s")
  const PROVIDER_COOLDOWN := Name("provider_cooldown_s")
  const DISABLES := Name("disables_key")

  function PolicyKey(e: ErrorType): Key {
    match e
    case KeyInvalid => Name("key_invalid")
    case RateLimited => Name("rate_limited")
    case QuotaOrBalance => Name("quota_or_balance")
    case ServerError => Name("server_error")
    case NetworkError => Name("network_error")
    case ProviderCompat => Name("provider_compat")
    case EmptyVisibleOutput => Name("empty_visible_output")
    case ClientError => Name("client_error")
    case Unknown => Name("unknown")
    case ProbeFirstEventTimeout => Name("probe_first_event_timeout")
    case Other(name) => Name(name)
  }

  // The policies of a layer, or of a whole configuration, by error type.
  function PoliciesOf(layer: Section): Section {
    Sub(Sub(layer, RETRY), POLICIES)
  }

  // ------------------------------------------------------- entries as policies

  // int() of text, fractions and containers, and the words read as flags.
  datatype Readers = Readers(number: Json -> Option<int>, word: string -> Option<bool>)

  function ScopeName(s: Scope): string {
    match s
    case NoScope => "none"
    case KeyScope => "key"
    case ProviderScope => "provider"
    case KeyProvider => "key_provider"
    case Compatibility => "compatibility"
  }

  function ScopeOf(v: Json): ScopeText {
    if Falsy(v) then Blank
    else if !v.Str? then Unlisted
    else if v.s == "none" then Known(NoScope)
    else if v.s == "key" then Known(KeyScope)
    else if v.s == "provider" then Known(ProviderScope)
    else if v.s == "key_provider" then Known(KeyProvider)
    else if v.s == "compatibility" then Known(Compatibility)
    else Unlisted
  }

  function IntOf(rd: Readers, v: Json): IntField {
    if v.Bool? then Value(if v.b then 1 else 0)
    else if v.Num? && (v.exponent == 0 || v.digits == 0) then Value(v.digits)
    else if Falsy(v) then Missing
    else match rd.number(v) case Some(n) => Value(n) case None => Garbage
  }

  function FlagOf(rd: Readers, v: Json): FlagField {
    if v.Bool? then Flag(v.b)
    else if v.Str? && v.s != "" && rd.word(v.s).Some? then Word(rd.word(v.s).value)
    else Else(!Falsy(v))
  }

  function Decode(rd: Readers, entry: Section): Override {
    Override(if SCOPE in entry then Some(ScopeOf(entry[SCOPE])) else None,
             if COOLDOWN in entry then Some(IntOf(rd, entry[COOLDOWN])) else None,
             if PROVIDER_COOLDOWN in entry then Some(IntOf(rd, entry[PROVIDER_COOLDOWN])) else None,
             if DISABLES in entry then Some(FlagOf(rd, entry[DISABLES])) else None)
  }

  function Encode(p: Policy): Section {
    map[SCOPE := Str(ScopeName(p.scope)), COOLDOWN := Num(p.cooldown, 0),
        PROVIDER_COOLDOWN := Num(p.providerCooldown, 0), DISABLES := Bool(p.disables)]
  }

  /** How the fields of a stored entry are read: the five scopes by name, whole
      numbers as they are, switches as switches; an empty value says nothing. */
  lemma FieldsRead(rd: Readers, n: int, b: bool)
    ensures ScopeOf(Str("none")) == Known(NoScope) && ScopeOf(Str("key")) == Known(KeyScope)
    ensures ScopeOf(Str("provider")) == Known(ProviderScope) && ScopeOf(Str("key_provider")) == Known(KeyProvider)
    ensures ScopeOf(Str("compatibility")) == Known(Compatibility) && ScopeOf(Null) == ScopeOf(Str("")) == Blank
    ensures IntOf(rd, Num(n, 0)) == Value(n) && IntOf(rd, Null) == IntOf(rd, Str("")) == Missing
    ensures IntOf(rd, Bool(b)) == Value(if b then 1 else 0)
    ensures FlagOf(rd, Bool(b)) == Flag(b) && FlagOf(rd, Null) == Else(false)
  {
  }

  /** The names under which the nine error types are stored. */
  lemma EntryNames()
    ensures PolicyKey(KeyInvalid) == Name("key_invalid") && PolicyKey(RateLimited) == Name("rate_limited")
    ensures PolicyKey(QuotaOrBalance) == Name("quota_or_balance") && PolicyKey(ServerError) == Name("server_error")
    ensures PolicyKey(NetworkError) == Name("network_error") && PolicyKey(ProviderCompat) == Name("provider_compat")
    ensures PolicyKey(EmptyVisibleOutput) == Name("empty_visible_output")
    ensures PolicyKey(ClientError) == Name("client_error") && PolicyKey(Unknown) == Name("unknown")
  {
  }

  /** The policy the scheduler applies under a configuration. */
  function PolicyInForce(c: Config, rd: Readers, config: Section, e: ErrorType, retryAfter: Option<int>): Policy {
    FailurePolicy(c, Decode(rd, Sub(PoliciesOf(config), PolicyKey(e))), e, retryAfter)
  }

  // ------------------------------------------------------------------ the save

  // The sections a save steps through are absent, falsy or objects; anything
  // else makes it fail before it stores anything.
  predicate Readable(config: Section, overlay: Section, k: Key) {
    && SectionOk(overlay, RETRY)
    && SectionOk(config, RETRY)
    && SectionOk(Sub(config, RETRY), POLICIES)
    && SectionOk(PoliciesOf(config), k)
  }

  function WithPolicy(overlay: Section, k: Key, entry: Section): Section {
    overlay[RETRY := Obj(Sub(overlay, RETRY)[POLICIES := Obj(PoliciesOf(overlay)[k := Obj(entry)])])]
  }

  // What the API accepts, judged against the policy in the configuration.
  function Accepted(rd: Readers, config: Section, overlay: Section, p: Patch): Option<Policy> {
    if !Readable(config, overlay, PolicyKey(p.e)) then None
    else Validated(Decode(rd, Sub(PoliciesOf(config), PolicyKey(p.e))), p)
  }

  // The entry of the effective configuration with the accepted policy merged
  // over it.
  function NewEntry(config: Section, e: ErrorType, saved: Policy): Section {
    DeepMerge(Sub(PoliciesOf(config), PolicyKey(e)), Encode(saved))
  }

  // An overlay with one stored entry, after the commit.
  function Committed(base: Section, overlay: Section, k: Key, entry: Section): Section {
    Prune(base, WithPolicy(overlay, k, entry))
  }

  /** `update_failure_policy`: the overlay it commits, or None where the request
      is refused or fails. */
  function Updated(rd: Readers, np: EntryNormalizer, base: Section, overlay: Section, p: Patch): Option<Section> {
    var config := Normalized(base, overlay, np);
    match Accepted(rd, config, overlay, p)
    case None => None
    case Some(saved) => Some(Committed(base, overlay, PolicyKey(p.e), NewEntry(config, p.e, saved)))
  }

  // ------------------------------------------------------ merging, key by key

  // What the merge of two layers shows under an object key.
  lemma SubMerged(b: Section, s: Section, k: Key)
    ensures Sub(DeepMerge(b, s), k) == if k in s && !s[k].Obj? then map[] else DeepMerge(Sub(b, k), Sub(s, k))
  {
    if k !in s {
      MergeEmpty(Sub(b, k));
    } else if s[k].Obj? {
      MergeEmptyBase(s[k].fields);
    }
  }

  /** Merging a layer over itself gives it back. */
  lemma {:induction false} MergeSelf(s: Section)
    ensures DeepMerge(s, s) == s
    decreases Obj(s)
  {
    forall k | k in s ensures MergeAt(s, s, k) == s[k] {
      if s[k].Obj? { MergeSelf(s[k].fields); }
    }
  }

  /** A merged layer already holds its base: merging it over that base once more
      changes nothing. */
  lemma {:induction false} MergeAgain(b: Section, s: Section)
    ensures DeepMerge(b, DeepMerge(b, s)) == DeepMerge(b, s)
    decreases Obj(s)
  {
    var m := DeepMerge(b, s);
    forall k | k in m ensures MergeAt(b, m, k) == m[k] {
      assert m[k] == MergeAt(b, s, k);
      if k in s && s[k].Obj? && k in b && b[k].Obj? {
        MergeAgain(b[k].fields, s[k].fields);
      } else if k !in s && b[k].Obj? {
        MergeSelf(b[k].fields);
      }
    }
  }

  // Merging scalars overwrites exactly their keys.
  lemma MergeScalars(b: Section, s: Section)
    requires forall k :: k in s ==> !s[k].Obj?
    ensures DeepMerge(b, s) == b + s
  {
    assert forall k :: k in b + s ==> DeepMerge(b, s)[k] == (b + s)[k];
  }

  // A layer's retry section or policies are replaced as a whole.
  predicate Masked(overlay: Section) {
    || (RETRY in overlay && !overlay[RETRY].Obj?)
    || (POLICIES in Sub(overlay, RETRY) && !Sub(overlay, RETRY)[POLICIES].Obj?)
  }

  // The retry section of the configuration is the merge of the two layers'.
  lemma RetryShown(base: Section, o: Section, np: EntryNormalizer)
    ensures Sub(Normalized(base, o, np), RETRY) == Sub(DeepMerge(base, o), RETRY)
  {
    NormalizedAt(base, o, np, RETRY);
    StripConfigOther(NormalizeConfig(DeepMerge(base, o), np), RETRY);
    assert Lookup(Normalized(base, o, np), RETRY) == Merged(base, o, RETRY);
  }

  lemma PoliciesShown(base: Section, o: Section, np: EntryNormalizer)
    ensures PoliciesOf(Normalized(base, o, np))
         == if Masked(o) then map[] else DeepMerge(PoliciesOf(base), PoliciesOf(o))
  {
    RetryShown(base, o, np);
    SubMerged(base, o, RETRY);
    if !(RETRY in o && !o[RETRY].Obj?) {
      SubMerged(Sub(base, RETRY), Sub(o, RETRY), POLICIES);
    }
  }

  // The retry section of an overlay after a save and its commit.
  lemma SavedRetry(base: Section, o: Section, k: Key, entry: Section)
    ensures var after := Committed(base, o, k, entry);
            && RETRY in after && after[RETRY] == WithPolicy(o, k, entry)[RETRY]
            && !Masked(after)
            && PoliciesOf(after) == PoliciesOf(o)[k := Obj(entry)]
  {
  }

  // The policies of the configuration after a save.
  lemma PoliciesAfter(base: Section, o: Section, np: EntryNormalizer, k: Key, entry: Section, j: Key)
    ensures Sub(PoliciesOf(Normalized(base, Committed(base, o, k, entry), np)), j)
         == if j == k then DeepMerge(Sub(PoliciesOf(base), k), entry)
            else Sub(DeepMerge(PoliciesOf(base), PoliciesOf(o)), j)
  {
    SavedRetry(base, o, k, entry);
    PoliciesShown(base, Committed(base, o, k, entry), np);
    SubMerged(PoliciesOf(base), PoliciesOf(o)[k := Obj(entry)], j);
    SubMerged(PoliciesOf(base), PoliciesOf(o), j);
  }

  // The other settings of the retry section, before and after.
  lemma SettingBefore(base: Section, o: Section, np: EntryNormalizer, r: Key)
    ensures Lookup(Sub(Normalized(base, o, np), RETRY), r)
         == if RETRY in o && !o[RETRY].Obj? then None else Merged(Sub(base, RETRY), Sub(o, RETRY), r)
  {
    RetryShown(base, o, np);
    SubMerged(base, o, RETRY);
  }

  lemma SettingAfter(base: Section, o: Section, np: EntryNormalizer, k: Key, entry: Section, r: Key)
    requires r != POLICIES
    ensures Lookup(Sub(Normalized(base, Committed(base, o, k, entry), np), RETRY), r)
         == Merged(Sub(base, RETRY), Sub(o, RETRY), r)
  {
    var next := Committed(base, o, k, entry);
    SavedRetry(base, o, k, entry);
    SettingBefore(base, next, np, r);
    assert Lookup(Sub(next, RETRY), r) == Lookup(Sub(o, RETRY), r);
  }

  // ------------------------------------------------------------- properties

  // What is stored is read back, and merging it in again changes nothing.
  lemma EncodedReads(rd: Readers, entry: Section, p: Policy)
    requires forall k :: k in Encode(p) ==> k in entry && entry[k] == Encode(p)[k]
    ensures Decode(rd, entry) == Stored(p)
    ensures DeepMerge(entry, Encode(p)) == entry
  {
    var f := Encode(p);
    assert SCOPE in f && COOLDOWN in f && PROVIDER_COOLDOWN in f && DISABLES in f;
    MergeScalars(entry, f);
    assert entry + f == entry;
  }

  // The four fields of a merged entry are the accepted ones.
  lemma FieldsMerged(b: Section, e: Section, p: Policy)
    ensures var entry := DeepMerge(b, DeepMerge(e, Encode(p)));
            forall k :: k in Encode(p) ==> k in entry && entry[k] == Encode(p)[k]
  {
    var f := Encode(p);
    MergeScalars(e, f);
    forall k | k in f ensures MergeAt(b, e + f, k) == f[k] {}
  }

  lemma DecodeMerged(rd: Readers, b: Section, e: Section, p: Policy)
    ensures var entry := DeepMerge(b, DeepMerge(e, Encode(p)));
            Decode(rd, entry) == Stored(p) && DeepMerge(entry, Encode(p)) == entry
  {
    FieldsMerged(b, e, p);
    EncodedReads(rd, DeepMerge(b, DeepMerge(e, Encode(p))), p);
  }

  /** A policy the API accepted is the policy the scheduler applies: for every
      base file and overlay, the configuration published after the commit gives
      it, with an honoured Retry-After as the only exception. */
  lemma SavedIsApplied(c: Config, rd: Readers, np: EntryNormalizer, base: Section, o: Section, p: Patch,
                       retryAfter: Option<int>)
    requires Updated(rd, np, base, o, p).Some?
    ensures var saved := Accepted(rd, Normalized(base, o, np), o, p).value;
            var after := Normalized(base, Updated(rd, np, base, o, p).value, np);
            PolicyInForce(c, rd, after, p.e, retryAfter) == WithRetryAfter(c, p.e, retryAfter, saved)
  {
    var config := Normalized(base, o, np);
    var current := Sub(PoliciesOf(config), PolicyKey(p.e));
    var saved := Accepted(rd, config, o, p).value;
    PoliciesAfter(base, o, np, PolicyKey(p.e), NewEntry(config, p.e, saved), PolicyKey(p.e));
    DecodeMerged(rd, Sub(PoliciesOf(base), PolicyKey(p.e)), current, saved);
    AcceptedIsApplied(c, Decode(rd, current), p, retryAfter);
  }

  /** What an accepted patch asked for is what the scheduler does about that
      error from then on, for every base file and overlay, unless the upstream's
      Retry-After is honoured. */
  lemma PatchTakesEffect(c: Config, rd: Readers, np: EntryNormalizer, base: Section, o: Section, p: Patch,
                         retryAfter: Option<int>)
    requires Updated(rd, np, base, o, p).Some?
    requires !(p.e == RateLimited && c.respectRetryAfter && retryAfter.Some?)
    ensures var current := Decode(rd, Sub(PoliciesOf(Normalized(base, o, np)), PolicyKey(p.e)));
            var after := Normalized(base, Updated(rd, np, base, o, p).value, np);
            AsAsked(current, p, PolicyInForce(c, rd, after, p.e, retryAfter))
  {
    SavedIsApplied(c, rd, np, base, o, p, retryAfter);
    AcceptedAsAsked(Decode(rd, Sub(PoliciesOf(Normalized(base, o, np)), PolicyKey(p.e))), p);
  }

  // A layer holds a policy under a name, path by path.
  predicate WrittenIn(s: Section, k: Key, p: Policy) {
    var retry, policies := Name("retry"), Name("failure_policies");
    && Get(Obj(s), [retry, policies, k, Name("cooldown_scope")]) == Some(Str(ScopeName(p.scope)))
    && Get(Obj(s), [retry, policies, k, Name("cooldown_s")]) == Some(Num(p.cooldown, 0))
    && Get(Obj(s), [retry, policies, k, Name("provider_cooldown_s")]) == Some(Num(p.providerCooldown, 0))
    && Get(Obj(s), [retry, policies, k, Name("disables_key")]) == Some(Bool(p.disables))
  }

  /** What a save leaves in the overlay and in the published configuration. */
  lemma {:induction false} SaveWrites(rd: Readers, np: EntryNormalizer, base: Section, o: Section, p: Patch)
    requires Updated(rd, np, base, o, p).Some?
    ensures var saved := Accepted(rd, Normalized(base, o, np), o, p).value;
            var after := Updated(rd, np, base, o, p).value;
      WrittenIn(after, PolicyKey(p.e), saved) && WrittenIn(Normalized(base, after, np), PolicyKey(p.e), saved)
  {
    var config, k := Normalized(base, o, np), PolicyKey(p.e);
    var saved := Accepted(rd, config, o, p).value;
    SavedFields(np, base, o, k, Sub(PoliciesOf(config), k), saved);
    FieldsWritten(Updated(rd, np, base, o, p).value, k, saved);
    FieldsWritten(Normalized(base, Updated(rd, np, base, o, p).value, np), k, saved);
  }

  lemma FieldsWritten(s: Section, k: Key, p: Policy)
    requires HasFields(Sub(PoliciesOf(s), k), p)
    ensures WrittenIn(s, k, p)
  {
    EncodedFields(p);
    FourDeep(s, k, SCOPE);
    FourDeep(s, k, COOLDOWN);
    FourDeep(s, k, PROVIDER_COOLDOWN);
    FourDeep(s, k, DISABLES);
  }

  // The entry under a name has the four fields of a policy.
  predicate HasFields(entry: Section, p: Policy) {
    forall f :: f in Encode(p) ==> f in entry && entry[f] == Encode(p)[f]
  }

  lemma SavedFields(np: EntryNormalizer, base: Section, o: Section, k: Key, current: Section, saved: Policy)
    ensures var after := Committed(base, o, k, DeepMerge(current, Encode(saved)));
      && HasFields(Sub(PoliciesOf(after), k), saved)
      && HasFields(Sub(PoliciesOf(Normalized(base, after, np)), k), saved)
  {
    SavedRetry(base, o, k, DeepMerge(current, Encode(saved)));
    PoliciesAfter(base, o, np, k, DeepMerge(current, Encode(saved)), k);
    FieldsMerged(Sub(PoliciesOf(base), k), current, saved);
    FieldsOver(current, saved);
  }

  lemma FieldsOver(current: Section, saved: Policy)
    ensures HasFields(DeepMerge(current, Encode(saved)), saved)
  {
    EncodedFields(saved);
    MergeScalars(current, Encode(saved));
  }

  lemma FourDeep(s: Section, k: Key, f: Key)
    requires f in Sub(PoliciesOf(s), k)
    ensures Get(Obj(s), [RETRY, POLICIES, k, f]) == Some(Sub(PoliciesOf(s), k)[f])
  {
    var retry, policies := Sub(s, RETRY), PoliciesOf(s);
    OneDeeper(s, RETRY, [POLICIES, k, f]);
    OneDeeper(retry, POLICIES, [k, f]);
    OneDeeper(policies, k, [f]);
    assert [f][1..] == [];
  }

  // Something other than an object stands where a section is looked for, and it
  // is not empty either.
  predicate Odd(v: Option<Json>) {
    v.Some? && !v.value.Obj? && !Falsy(v.value)
  }

  /** A save goes through exactly when nothing odd stands where it reads a section
      and the patch is acceptable over the entry in force. */
  lemma SavesExactly(rd: Readers, np: EntryNormalizer, base: Section, o: Section, p: Patch)
    ensures var config := Normalized(base, o, np);
      Updated(rd, np, base, o, p).Some? <==>
        && !Odd(Get(Obj(o), [Name("retry")])) && !Odd(Get(Obj(config), [Name("retry")]))
        && !Odd(Get(Obj(config), [Name("retry"), Name("failure_policies")]))
        && !Odd(Get(Obj(config), [Name("retry"), Name("failure_policies"), PolicyKey(p.e)]))
        && Validated(Decode(rd, Sub(PoliciesOf(config), PolicyKey(p.e))), p).Some?
  {
    var config := Normalized(base, o, np);
    Reaches(o, RETRY);
    Reaches(config, RETRY);
    OneDeeper(config, RETRY, [POLICIES]);
    OneDeeper(config, RETRY, [POLICIES, PolicyKey(p.e)]);
    Reaches(Sub(config, RETRY), POLICIES);
    OneDeeper(Sub(config, RETRY), POLICIES, [PolicyKey(p.e)]);
    Reaches(PoliciesOf(config), PolicyKey(p.e));
  }

  lemma Reaches(s: Section, k: Key)
    ensures Get(Obj(s), [k]) == Lookup(s, k) && (Odd(Lookup(s, k)) <==> !SectionOk(s, k))
  {
    assert [k][1..] == [];
  }

  lemma OneDeeper(s: Section, a: Key, rest: seq<Key>)
    requires rest != []
    ensures Get(Obj(s), [a] + rest) == Get(Obj(Sub(s, a)), rest)
  {
    assert ([a] + rest)[1..] == rest;
  }

  // The overlay hides what the base file says about an error type.
  predicate Hides(overlay: Section, k: Key) {
    Masked(overlay) || (k in PoliciesOf(overlay) && !PoliciesOf(overlay)[k].Obj?)
  }

  /** A save overwrites the four fields of its entry and leaves every other field
      as it was, if and only if the overlay does not hide the base file's entry or
      that entry has no other field. */
  lemma EntryFieldsKept(rd: Readers, np: EntryNormalizer, base: Section, o: Section, p: Patch)
    requires Updated(rd, np, base, o, p).Some?
    ensures var k := PolicyKey(p.e);
            var before, after := Normalized(base, o, np), Normalized(base, Updated(rd, np, base, o, p).value, np);
            var saved := Encode(Accepted(rd, before, o, p).value);
      Sub(PoliciesOf(after), k) == Sub(PoliciesOf(before), k) + saved
      <==> (Hides(o, k) ==> Sub(PoliciesOf(base), k).Keys <= {SCOPE, COOLDOWN, PROVIDER_COOLDOWN, DISABLES})
  {
    var k, config := PolicyKey(p.e), Normalized(base, o, np);
    var saved := Accepted(rd, config, o, p).value;
    PoliciesAfter(base, o, np, k, NewEntry(config, p.e, saved), k);
    EntryBefore(base, o, np, k);
    EncodedFields(saved);
    EntryOverwritten(Sub(PoliciesOf(base), k), Sub(PoliciesOf(o), k), Hides(o, k), Encode(saved));
  }

  lemma EncodedFields(p: Policy)
    ensures Encode(p).Keys == {SCOPE, COOLDOWN, PROVIDER_COOLDOWN, DISABLES}
    ensures forall k :: k in Encode(p) ==> !Encode(p)[k].Obj?
  {
  }

  lemma EntryBefore(base: Section, o: Section, np: EntryNormalizer, k: Key)
    ensures Sub(PoliciesOf(Normalized(base, o, np)), k)
         == if Hides(o, k) then map[] else DeepMerge(Sub(PoliciesOf(base), k), Sub(PoliciesOf(o), k))
  {
    PoliciesShown(base, o, np);
    SubMerged(PoliciesOf(base), PoliciesOf(o), k);
  }

  lemma EntryOverwritten(b: Section, s: Section, hidden: bool, fields: Section)
    requires forall k :: k in fields ==> !fields[k].Obj?
    ensures var current := if hidden then map[] else DeepMerge(b, s);
      DeepMerge(b, DeepMerge(current, fields)) == current + fields <==> (hidden ==> b.Keys <= fields.Keys)
  {
    var current := if hidden then map[] else DeepMerge(b, s);
    MergeScalars(current, fields);
    if hidden {
      assert current + fields == fields;
      MergeScalars(b, fields);
      assert b.Keys <= (b + fields).Keys;
      if b.Keys <= fields.Keys { assert b + fields == fields; }
    } else {
      MergeAgain(b, s);
      MergeScalars(b, fields);
      forall k | k in current + fields ensures MergeAt(b, current + fields, k) == (current + fields)[k] {
        if k !in fields { assert MergeAt(b, current, k) == DeepMerge(b, current)[k]; }
      }
      assert b.Keys <= current.Keys;
    }
  }

  /** Every error type that can be configured has an entry of its own. */
  lemma PolicyKeysDistinct(e: ErrorType, f: ErrorType)
    requires Configurable(e) && Configurable(f) && PolicyKey(e) == PolicyKey(f)
    ensures e == f
  {
    assert "key_invalid"[0] == 'k' && "rate_limited"[0] == 'r' && "quota_or_balance"[0] == 'q';
    assert "server_error"[0] == 's' && "network_error"[0] == 'n' && "unknown"[0] == 'u';
    assert "provider_compat"[0] == 'p' && "empty_visible_output"[0] == 'e' && "client_error"[0] == 'c';
  }

  /** So a save changes what the scheduler does about no other configurable
      error, where the overlay's retry section is intact. */
  lemma OthersStayInForce(c: Config, rd: Readers, np: EntryNormalizer, base: Section, o: Section, p: Patch,
                          e: ErrorType, retryAfter: Option<int>)
    requires Updated(rd, np, base, o, p).Some? && Configurable(e) && e != p.e && !Masked(o)
    ensures PolicyInForce(c, rd, Normalized(base, Updated(rd, np, base, o, p).value, np), e, retryAfter)
         == PolicyInForce(c, rd, Normalized(base, o, np), e, retryAfter)
  {
    AcceptedExactly(Decode(rd, Sub(PoliciesOf(Normalized(base, o, np)), PolicyKey(p.e))), p);
    if PolicyKey(e) == PolicyKey(p.e) {
      PolicyKeysDistinct(e, p.e);
      assert false;
    }
    SaveIsLocal(rd, np, base, o, p, PolicyKey(e));
  }

  /** A save leaves the policy of another error type alone exactly when the
      overlay's retry section and its policies are objects or absent, or the
      base file has nothing to say about that error type: a section the overlay
      had blanked is rebuilt as an object, and stops hiding the base. */
  lemma SaveIsLocal(rd: Readers, np: EntryNormalizer, base: Section, o: Section, p: Patch, j: Key)
    requires Updated(rd, np, base, o, p).Some? && j != PolicyKey(p.e)
    ensures (Sub(PoliciesOf(Normalized(base, Updated(rd, np, base, o, p).value, np)), j)
             == Sub(PoliciesOf(Normalized(base, o, np)), j))
            <==> !Masked(o) || Sub(PoliciesOf(base), j) == map[]
  {
    var config := Normalized(base, o, np);
    OthersExactly(np, base, o, PolicyKey(p.e), NewEntry(config, p.e, Accepted(rd, config, o, p).value), j);
  }

  lemma OthersExactly(np: EntryNormalizer, base: Section, o: Section, k: Key, entry: Section, j: Key)
    requires j != k
    ensures (Sub(PoliciesOf(Normalized(base, Committed(base, o, k, entry), np)), j)
             == Sub(PoliciesOf(Normalized(base, o, np)), j))
            <==> !Masked(o) || Sub(PoliciesOf(base), j) == map[]
  {
    PoliciesAfter(base, o, np, k, entry, j);
    PoliciesShown(base, o, np);
    if Masked(o) {
      assert PoliciesOf(o) == map[];
      MergeEmpty(PoliciesOf(base));
    }
  }

  /** Likewise for the other settings of the retry section. */
  lemma OtherSettingsKept(rd: Readers, np: EntryNormalizer, base: Section, o: Section, p: Patch, r: Key)
    requires Updated(rd, np, base, o, p).Some? && r != POLICIES
    ensures (Lookup(Sub(Normalized(base, Updated(rd, np, base, o, p).value, np), RETRY), r)
             == Lookup(Sub(Normalized(base, o, np), RETRY), r))
            <==> !(RETRY in o && !o[RETRY].Obj?) || r !in Sub(base, RETRY)
  {
    var config := Normalized(base, o, np);
    var entry := NewEntry(config, p.e, Accepted(rd, config, o, p).value);
    SettingBefore(base, o, np, r);
    SettingAfter(base, o, np, PolicyKey(p.e), entry, r);
  }

  /** No other section of the effective configuration changes. */
  lemma OtherSectionsKept(rd: Readers, np: EntryNormalizer, base: Section, o: Section, p: Patch, s: Key)
    requires BaseOk(base) && Updated(rd, np, base, o, p).Some? && s != RETRY
    ensures Lookup(Effective(base, Updated(rd, np, base, o, p).value, np), s)
         == Lookup(Effective(base, DropDiscovery(o), np), s)
  {
    var config := Normalized(base, o, np);
    var entry := NewEntry(config, p.e, Accepted(rd, config, o, p).value);
    SectionsKept(np, base, o, PolicyKey(p.e), entry, s);
  }

  lemma SectionsKept(np: EntryNormalizer, base: Section, o: Section, k: Key, entry: Section, s: Key)
    requires BaseOk(base) && s != RETRY
    ensures Lookup(Effective(base, Committed(base, o, k, entry), np), s)
         == Lookup(Effective(base, DropDiscovery(o), np), s)
  {
    var draft := WithPolicy(o, k, entry);
    EffectiveShown(base, Prune(base, draft), np, s);
    EffectiveShown(base, DropDiscovery(o), np, s);
    ShownPruned(base, draft, np, s);
    DraftSame(o, k, entry, s);
    ShownSame(base, DropDiscovery(draft), DropDiscovery(o), np, s);
  }

  lemma DraftSame(o: Section, k: Key, entry: Section, s: Key)
    requires s != RETRY
    ensures Lookup(DropDiscovery(WithPolicy(o, k, entry)), s) == Lookup(DropDiscovery(o), s)
  {
  }

  // A section of the configuration depends on the same section of the overlay.
  lemma ShownSame(base: Section, x: Section, y: Section, np: EntryNormalizer, s: Key)
    requires Lookup(x, s) == Lookup(y, s)
    ensures Shown(base, x, np, s) == Shown(base, y, np, s)
  {
    SubMergeAgrees(base, x, y, s);
  }

  /** Saving the same patch again is accepted and publishes the same entry. */
  lemma SaveTwice(rd: Readers, np: EntryNormalizer, base: Section, o: Section, p: Patch)
    requires Updated(rd, np, base, o, p).Some?
    ensures Updated(rd, np, base, Updated(rd, np, base, o, p).value, p).Some?
    ensures var once := Updated(rd, np, base, o, p).value;
            Sub(PoliciesOf(Normalized(base, Updated(rd, np, base, once, p).value, np)), PolicyKey(p.e))
            == Sub(PoliciesOf(Normalized(base, once, np)), PolicyKey(p.e))
  {
    var config := Normalized(base, o, np);
    var k, b := PolicyKey(p.e), Sub(PoliciesOf(base), PolicyKey(p.e));
    var saved := Accepted(rd, config, o, p).value;
    var entry := NewEntry(config, p.e, saved);
    var once := Committed(base, o, k, entry);
    PoliciesAfter(base, o, np, k, entry, k);
    DecodeMerged(rd, b, Sub(PoliciesOf(config), k), saved);
    ValidatedAgain(Decode(rd, Sub(PoliciesOf(config), k)), p);
    StillReadable(np, base, o, k, entry);
    PoliciesAfter(base, once, np, k, DeepMerge(b, entry), k);
    MergeAgain(b, entry);
  }

  lemma StillReadable(np: EntryNormalizer, base: Section, o: Section, k: Key, entry: Section)
    ensures var after := Committed(base, o, k, entry); Readable(Normalized(base, after, np), after, k)
  {
    var after := Committed(base, o, k, entry);
    SavedRetry(base, o, k, entry);
    NormalizedAt(base, after, np, RETRY);
    StripConfigOther(NormalizeConfig(DeepMerge(base, after), np), RETRY);
    assert Lookup(Normalized(base, after, np), RETRY) == Merged(base, after, RETRY);
    SettingBefore(base, after, np, POLICIES);
    PoliciesShown(base, after, np);
    assert Lookup(DeepMerge(PoliciesOf(base), PoliciesOf(after)), k) == Merged(PoliciesOf(base), PoliciesOf(after), k);
  }

  // A base file with a policy for server errors, and an overlay whose retry
  // section is blank.
  const SERVER_POLICY: Section := map[COOLDOWN := Num(600, 0)]
  const SERVER_POLICIES: Section := map[PolicyKey(ServerError) := Obj(SERVER_POLICY)]
  const SERVER_BASE: Section := map[RETRY := Obj(map[POLICIES := Obj(SERVER_POLICIES)])]
  const BLANKED: Section := map[RETRY := Null]
  const RATE_PATCH := Patch(RateLimited, Some(Known(KeyScope)), Some(Value(5)), None, None)

  /** Saving a policy for rate limits over the blanked section brings the base
      file's policy for server errors back. */
  lemma BlankedComesBack(rd: Readers, np: EntryNormalizer)
    ensures Updated(rd, np, SERVER_BASE, BLANKED, RATE_PATCH).Some?
    ensures Sub(PoliciesOf(Normalized(SERVER_BASE, BLANKED, np)), PolicyKey(ServerError)) == map[]
    ensures var after := Updated(rd, np, SERVER_BASE, BLANKED, RATE_PATCH).value;
            Sub(PoliciesOf(Normalized(SERVER_BASE, after, np)), PolicyKey(ServerError)) == SERVER_POLICY
  {
    BlankedAccepts(rd, np);
    var config := Normalized(SERVER_BASE, BLANKED, np);
    var saved := Accepted(rd, config, BLANKED, RATE_PATCH).value;
    BlankedEntry(np, NewEntry(config, RateLimited, saved));
  }

  lemma BlankedEntry(np: EntryNormalizer, entry: Section)
    ensures Sub(PoliciesOf(Normalized(SERVER_BASE, BLANKED, np)), PolicyKey(ServerError)) == map[]
    ensures var after := Committed(SERVER_BASE, BLANKED, PolicyKey(RateLimited), entry);
            Sub(PoliciesOf(Normalized(SERVER_BASE, after, np)), PolicyKey(ServerError)) == SERVER_POLICY
  {
    BlankedLayers();
    PoliciesShown(SERVER_BASE, BLANKED, np);
    PoliciesAfter(SERVER_BASE, BLANKED, np, PolicyKey(RateLimited), entry, PolicyKey(ServerError));
    MergeEmpty(SERVER_POLICIES);
  }

  lemma BlankedLayers()
    ensures Masked(BLANKED) && PoliciesOf(BLANKED) == map[] && PoliciesOf(SERVER_BASE) == SERVER_POLICIES
    ensures PolicyKey(RateLimited) != PolicyKey(ServerError)
  {
    assert "rate_limited"[0] != "server_error"[0];
  }

  lemma BlankedAccepts(rd: Readers, np: EntryNormalizer)
    ensures Accepted(rd, Normalized(SERVER_BASE, BLANKED, np), BLANKED, RATE_PATCH).Some?
  {
    var config := Normalized(SERVER_BASE, BLANKED, np);
    NormalizedAt(SERVER_BASE, BLANKED, np, RETRY);
    StripConfigOther(NormalizeConfig(DeepMerge(SERVER_BASE, BLANKED), np), RETRY);
    assert Lookup(config, RETRY) == Merged(SERVER_BASE, BLANKED, RETRY) == Some(Null);
    assert PoliciesOf(config) == map[];
    assert Decode(rd, map[]) == NO_OVERRIDE;
  }
}
