/** Failure policies: how the admin API accepts one, and what the scheduler
    makes of it when a request fails. */
module SchedulerPolicy {
  import opened Options

  const MAX_CONFIGURED_COOLDOWN_S := 86400
  const MAX_PROVIDER_COOLDOWN_S := 300
  const PROBE_FIRST_EVENT_CIRCUIT_S := 120

  datatype Scope = NoScope | KeyScope | ProviderScope | KeyProvider | Compatibility

  datatype ErrorType =
    | KeyInvalid | RateLimited | QuotaOrBalance | ServerError | NetworkError
    | ProviderCompat | EmptyVisibleOutput | ClientError | Unknown
    | ProbeFirstEventTimeout | Other(name: string)

  // A configured scope: one of the known ones, nothing, or text the scheduler
  // ignores.
  datatype ScopeText = Known(scope: Scope) | Blank | Unlisted

  // A configured number: what int() makes of it; or nothing; or no number.
  datatype IntField = Value(n: int) | Missing | Garbage

  // A configured flag: a JSON boolean, a recognised word, or something else.
  datatype FlagField = Flag(b: bool) | Word(b: bool) | Else(truthy: bool)

  datatype Override = Override(scope: Option<ScopeText>, cooldown: Option<IntField>,
                               providerCooldown: Option<IntField>, disables: Option<FlagField>)

  datatype Policy = Policy(scope: Scope, cooldown: int, providerCooldown: int, disables: bool)

  // What the built-in policies read.
  datatype Config = Config(respectRetryAfter: bool, cooldowns: map<ErrorType, IntField>)

  function Clamp(n: int, lo: int, hi: int): int {
    if n < lo then lo else if n > hi then hi else n
  }

  function ClampField(v: IntField, default: int, lo: int, hi: int): int {
    Clamp(if v.Value? then v.n else default, lo, hi)
  }

  // ------------------------------------------------------- the scheduler side

  // `_bool_value`: words are read, anything else falls back.
  function FlagOr(v: FlagField, default: bool): bool {
    if v.Else? then default else v.b
  }

  // What a scope allows to take effect.
  function Adjusted(p: Policy, fallback: int): Policy {
    match p.scope
    case NoScope => Policy(NoScope, 0, 0, false)
    case ProviderScope =>
      Policy(ProviderScope, 0, if p.providerCooldown <= 0 then Clamp(fallback, 1, 30) else p.providerCooldown, false)
    case KeyScope => p.(providerCooldown := 0)
    case KeyProvider =>
      p.(providerCooldown := if p.providerCooldown <= 0 then Clamp(p.cooldown, 1, 30) else p.providerCooldown)
    case Compatibility => p
  }

  const NO_OVERRIDE := Override(None, None, None, None)

  function Overridden(base: Policy, retryAfterUsed: bool, o: Override, allowRetryAfter: bool): Policy {
    Policy(
      if o.scope.Some? && o.scope.value.Known? then o.scope.value.scope else base.scope,
      if o.cooldown.Some? && (allowRetryAfter || !retryAfterUsed) then
        ClampField(o.cooldown.value, base.cooldown, 0, MAX_CONFIGURED_COOLDOWN_S) else base.cooldown,
      if o.providerCooldown.Some? then
        ClampField(o.providerCooldown.value, base.providerCooldown, 0, MAX_PROVIDER_COOLDOWN_S)
      else base.providerCooldown,
      if o.disables.Some? then FlagOr(o.disables.value, base.disables) else base.disables)
  }

  function Applied(base: Policy, retryAfterUsed: bool, o: Override, allowRetryAfter: bool): Policy {
    if o == NO_OVERRIDE then base
    else Adjusted(Overridden(base, retryAfterUsed, o, allowRetryAfter), base.cooldown)
  }

  /** `_apply_failure_policy_override`: a copy of the base, rewritten field by
      field and then cut down to its scope. */
  method ApplyOverride(base: Policy, retryAfterUsed: bool, o: Override, allowRetryAfter: bool) returns (out: Policy)
    ensures out == Applied(base, retryAfterUsed, o, allowRetryAfter)
  {
    out := base;
    if o == NO_OVERRIDE { return; }
    if o.scope.Some? && o.scope.value.Known? { out := out.(scope := o.scope.value.scope); }
    if o.cooldown.Some? && (allowRetryAfter || !retryAfterUsed) {
      out := out.(cooldown := ClampField(o.cooldown.value, out.cooldown, 0, MAX_CONFIGURED_COOLDOWN_S));
    }
    if o.providerCooldown.Some? {
      var cooldown := ClampField(o.providerCooldown.value, out.providerCooldown, 0, MAX_PROVIDER_COOLDOWN_S);
      out := out.(providerCooldown := cooldown);
    }
    if o.disables.Some? { out := out.(disables := FlagOr(o.disables.value, out.disables)); }
    out := CutToScope(out, base.cooldown);
  }

  method CutToScope(p: Policy, baseCooldown: int) returns (out: Policy)
    ensures out == Adjusted(p, baseCooldown)
  {
    out := p;
    if out.scope == NoScope {
      out := out.(cooldown := 0, providerCooldown := 0, disables := false);
    } else if out.scope == ProviderScope {
      out := out.(cooldown := 0, disables := false);
      if out.providerCooldown <= 0 {
        out := out.(providerCooldown := if baseCooldown < 1 then 1 else if baseCooldown < 30 then baseCooldown else 30);
      }
    } else if out.scope == KeyScope {
      out := out.(providerCooldown := 0);
    } else if out.scope == KeyProvider && out.providerCooldown <= 0 {
      out := out.(providerCooldown := if out.cooldown < 1 then 1 else if out.cooldown < 30 then out.cooldown else 30);
    }
  }

  function CooldownFor(c: Config, name: ErrorType, default: int): int {
    if name in c.cooldowns then ClampField(c.cooldowns[name], default, 0, MAX_CONFIGURED_COOLDOWN_S)
    else Clamp(default, 0, MAX_CONFIGURED_COOLDOWN_S)
  }

  predicate RetryAfterHonoured(c: Config, e: ErrorType, retryAfter: Option<int>) {
    e.RateLimited? && c.respectRetryAfter && retryAfter.Some?
  }

  // The built-in policy of an error type.
  function BuiltIn(c: Config, e: ErrorType, retryAfter: Option<int>): Policy {
    match e
    case KeyInvalid => Policy(KeyScope, CooldownFor(c, KeyInvalid, 3600), 0, true)
    case ProviderCompat => Policy(NoScope, 0, 0, false)
    case EmptyVisibleOutput => Policy(NoScope, 0, 0, false)
    case ClientError => Policy(NoScope, 0, 0, false)
    case ProbeFirstEventTimeout => Policy(Compatibility, PROBE_FIRST_EVENT_CIRCUIT_S, 0, false)
    case RateLimited =>
      var cooldown := if RetryAfterHonoured(c, e, retryAfter) then Clamp(retryAfter.value, 0, MAX_CONFIGURED_COOLDOWN_S)
                      else CooldownFor(c, RateLimited, 30);
      Policy(KeyScope, cooldown, 0, false)
    case QuotaOrBalance => Policy(KeyScope, CooldownFor(c, QuotaOrBalance, 3600), 0, false)
    case NetworkError => Policy(KeyScope, CooldownFor(c, NetworkError, 10), 0, false)
    case _ => Policy(KeyScope, CooldownFor(c, ServerError, 10), 0, false)
  }

  /** `failure_policy_for_error_type`, with the override configured for it. */
  function FailurePolicy(c: Config, o: Override, e: ErrorType, retryAfter: Option<int>): Policy {
    Applied(BuiltIn(c, e, retryAfter), RetryAfterHonoured(c, e, retryAfter), o, !e.RateLimited?)
  }

  // ------------------------------------------------------- the admin API side

  datatype Patch = Patch(e: ErrorType, scope: Option<ScopeText>, cooldown: Option<IntField>,
                         providerCooldown: Option<IntField>, disables: Option<FlagField>)

  predicate Configurable(e: ErrorType) {
    !e.ProbeFirstEventTimeout? && !e.Other?
  }

  // `_bounded_int`: a number within its bounds, or a validation error.
  function Bounded(v: IntField, hi: int): Option<int> {
    if v.Value? && 0 <= v.n <= hi then Some(v.n) else None
  }

  function BoundedOrZero(v: Option<IntField>, hi: int): Option<int> {
    if v.None? || v.value.Missing? then Some(0) else Bounded(v.value, hi)
  }

  // Python truth of a configured flag; the word "false" is a non-empty string.
  function Truth(v: Option<FlagField>): bool {
    match v
    case None => false
    case Some(Flag(b)) => b
    case Some(Word(_)) => true
    case Some(Else(t)) => t
  }

  /** `_validate_failure_policy_patch`: the policy to store, or None where the
      request is refused.  The stored values of the current policy are checked
      even where the patch replaces them. */
  function Validated(current: Override, p: Patch): Option<Policy> {
    if !Configurable(p.e) then None else
    var scope := if p.scope.Some? && !p.scope.value.Blank? then p.scope.value
                 else if current.scope.Some? && !current.scope.value.Blank? then current.scope.value
                 else Known(KeyScope);
    var oldCooldown := BoundedOrZero(current.cooldown, MAX_CONFIGURED_COOLDOWN_S);
    var oldProvider := BoundedOrZero(current.providerCooldown, MAX_PROVIDER_COOLDOWN_S);
    var cooldown := if p.cooldown.Some? then Bounded(p.cooldown.value, MAX_CONFIGURED_COOLDOWN_S) else oldCooldown;
    var provider := if p.providerCooldown.Some? then Bounded(p.providerCooldown.value, MAX_PROVIDER_COOLDOWN_S)
        else oldProvider;
    if !scope.Known? || oldCooldown.None? || oldProvider.None? || cooldown.None? || provider.None? then None
    else
      var disables := if p.disables.Some? then Truth(p.disables) else Truth(current.disables);
      Some(Adjusted(Policy(scope.scope, cooldown.value, provider.value, disables), 1))
  }

  // The policy as it is merged over the current entry: every field is set.
  function Stored(p: Policy): Override {
    Override(Some(Known(p.scope)), Some(Value(p.cooldown)), Some(Value(p.providerCooldown)), Some(Flag(p.disables)))
  }

  // ------------------------------------------------------------- properties

  // Only what the scope allows is set.
  predicate Canonical(p: Policy) {
    && 0 <= p.cooldown <= MAX_CONFIGURED_COOLDOWN_S
    && 0 <= p.providerCooldown <= MAX_PROVIDER_COOLDOWN_S
    && (p.scope.NoScope? ==> p.cooldown == 0 && p.providerCooldown == 0 && !p.disables)
    && (p.scope.ProviderScope? ==> p.cooldown == 0 && p.providerCooldown > 0 && !p.disables)
    && (p.scope.KeyScope? ==> p.providerCooldown == 0)
    && (p.scope.KeyProvider? ==> p.providerCooldown > 0)
  }

  lemma ValidatedCanonical(current: Override, p: Patch)
    ensures Validated(current, p).Some? ==> Canonical(Validated(current, p).value)
  {
  }

  // ------------------------------------------- what the API makes of a patch

  // The scopes under which a key cooldown and a disabled key take effect.
  predicate TouchesKey(s: Scope) {
    s == KeyScope || s == KeyProvider || s == Compatibility
  }

  // The scopes under which a provider cooldown takes effect.
  predicate TouchesProvider(s: Scope) {
    s == ProviderScope || s == KeyProvider || s == Compatibility
  }

  // A field that says nothing: absent or blank.
  predicate Silent(scope: Option<ScopeText>) {
    scope.None? || scope.value.Blank?
  }

  // What a stored number is taken for when a patch leaves it out.
  predicate Stands(v: Option<IntField>, n: int) {
    (v.Some? && v.value == Value(n)) || ((v.None? || v.value.Missing?) && n == 0)
  }

  // What a field stands for: the one asked for, or else the stored one.
  predicate Asked(patch: Option<IntField>, current: Option<IntField>, n: int) {
    if patch.Some? then patch == Some(Value(n)) else Stands(current, n)
  }

  // A flag that counts as set: any JSON value but the empty ones.
  predicate Set(v: Option<FlagField>) {
    v == Some(Flag(true)) || (v.Some? && v.value.Word?) || v == Some(Else(true))
  }

  /** The scope is the one asked for, or else the current one, or else `key`. */
  predicate ScopeAsAsked(current: Override, p: Patch, s: Scope) {
    if !Silent(p.scope) then p.scope == Some(Known(s))
    else if !Silent(current.scope) then current.scope == Some(Known(s))
    else s == KeyScope
  }

  /** The key cooldown is the one asked for, or else the current one, or else 0;
      there is none where the scope does not touch the key. */
  predicate CooldownAsAsked(current: Override, p: Patch, s: Policy) {
    if !TouchesKey(s.scope) then s.cooldown == 0
    else Asked(p.cooldown, current.cooldown, s.cooldown)
  }

  /** Likewise the provider cooldown; a scope that needs one gets at least a
      second, or as long as the key rests up to half a minute. */
  ghost predicate ProviderAsAsked(current: Override, p: Patch, s: Policy) {
    if !TouchesProvider(s.scope) then s.providerCooldown == 0
    else
      exists n: int ::
        && Asked(p.providerCooldown, current.providerCooldown, n)
        && (if n > 0 || s.scope == Compatibility then s.providerCooldown == n
            else if s.scope == ProviderScope then s.providerCooldown == 1
            else s.providerCooldown == if s.cooldown > 30 then 30 else if s.cooldown < 1 then 1 else s.cooldown)
  }

  predicate DisablesAsAsked(current: Override, p: Patch, s: Policy) {
    s.disables <==> TouchesKey(s.scope) && Set(if p.disables.Some? then p.disables else current.disables)
  }

  ghost predicate AsAsked(current: Override, p: Patch, s: Policy) {
    && ScopeAsAsked(current, p, s.scope) && CooldownAsAsked(current, p, s)
    && ProviderAsAsked(current, p, s) && DisablesAsAsked(current, p, s)
  }

  /** What is accepted is what was asked: each field the patch sets is the
      accepted field, each field it leaves out is the current entry's or the
      default, wherever the scope lets the field take effect. */
  lemma AcceptedAsAsked(current: Override, p: Patch)
    requires Validated(current, p).Some?
    ensures AsAsked(current, p, Validated(current, p).value)
  {
    var s := Validated(current, p).value;
    if TouchesProvider(s.scope) {
      var n := if p.providerCooldown.Some? then p.providerCooldown.value.n
               else if current.providerCooldown.Some? && current.providerCooldown.value.Value? then
                 current.providerCooldown.value.n
               else 0;
      assert Asked(p.providerCooldown, current.providerCooldown, n);
    }
  }

  // A scope that is known, or says nothing.
  predicate ScopeReads(scope: Option<ScopeText>) {
    Silent(scope) || scope.value.Known?
  }

  // A number within its cap.
  predicate InRange(v: IntField, hi: int) {
    v.Value? && 0 <= v.n <= hi
  }

  // A stored number within its cap, or none.
  predicate StoredInRange(v: Option<IntField>, hi: int) {
    v.None? || v.value.Missing? || InRange(v.value, hi)
  }

  /** A patch is accepted exactly when its error type is one of the nine, the
      scope that decides is known, and all numbers, also the stored ones that it
      replaces, are within their caps. */
  lemma AcceptedExactly(current: Override, p: Patch)
    ensures Validated(current, p).Some? <==>
      && p.e in {KeyInvalid, RateLimited, QuotaOrBalance, ServerError, NetworkError, ProviderCompat,
                 EmptyVisibleOutput, ClientError, Unknown}
      && ScopeReads(if Silent(p.scope) then current.scope else p.scope)
      && (p.cooldown.Some? ==> InRange(p.cooldown.value, 86400))
      && (p.providerCooldown.Some? ==> InRange(p.providerCooldown.value, 300))
      && StoredInRange(current.cooldown, 86400) && StoredInRange(current.providerCooldown, 300)
  {
  }

  // ------------------------------------------------- the policies built in

  // The error types that rest a key by default, and for how long.
  function DefaultRest(e: ErrorType): Option<int> {
    match e
    case KeyInvalid => Some(3600)
    case QuotaOrBalance => Some(3600)
    case RateLimited => Some(30)
    case NetworkError => Some(10)
    case ServerError => Some(10)
    case Unknown => Some(10)
    case Other(_) => Some(10)
    case _ => None
  }

  // Errors of no configured kind rest as long as server errors.
  function RestKey(e: ErrorType): ErrorType {
    if e.Unknown? || e.Other? then ServerError else e
  }

  /** Without an override, an error that rests the key does so for the time
      configured for its own kind within the cap, or else for its default, or
      for as long as an honoured Retry-After says; it touches no provider; and
      only an invalid key is disabled. */
  lemma DefaultRests(c: Config, e: ErrorType, retryAfter: Option<int>)
    requires DefaultRest(e).Some?
    ensures var p := FailurePolicy(c, NO_OVERRIDE, e, retryAfter);
      && p.scope == KeyScope && p.providerCooldown == 0 && (p.disables <==> e == KeyInvalid)
      && (e == RateLimited && c.respectRetryAfter && retryAfter.Some? && 0 <= retryAfter.value <= 86400 ==>
            p.cooldown == retryAfter.value)
      && (!(e == RateLimited && c.respectRetryAfter && retryAfter.Some?) ==>
            (RestKey(e) !in c.cooldowns ==> p.cooldown == DefaultRest(e).value)
            && (RestKey(e) in c.cooldowns && InRange(c.cooldowns[RestKey(e)], 86400) ==>
                  p.cooldown == c.cooldowns[RestKey(e)].n)
            && (RestKey(e) in c.cooldowns && !c.cooldowns[RestKey(e)].Value? ==> p.cooldown == DefaultRest(e).value))
  {
  }

  /** The errors that say nothing about a key rest nothing; a probe that timed
      out rests the pair of provider and format for two minutes. */
  lemma DefaultSpares(c: Config, e: ErrorType, retryAfter: Option<int>)
    ensures e in {ProviderCompat, EmptyVisibleOutput, ClientError} ==>
      FailurePolicy(c, NO_OVERRIDE, e, retryAfter) == Policy(NoScope, 0, 0, false)
    ensures e == ProbeFirstEventTimeout ==>
      FailurePolicy(c, NO_OVERRIDE, e, retryAfter) == Policy(Compatibility, 120, 0, false)
  {
  }

  /** A number past its cap, stored by hand, is cut to the cap; one below zero
      counts as zero; text that is no number leaves the built-in one. */
  lemma OverrideClamped(c: Config, e: ErrorType, n: IntField)
    requires !e.RateLimited? && DefaultRest(e).Some?
    ensures var o := Override(Some(Known(KeyScope)), Some(n), None, None);
      FailurePolicy(c, o, e, None).cooldown
      == if !n.Value? then FailurePolicy(c, NO_OVERRIDE, e, None).cooldown
         else if n.n > 86400 then 86400 else if n.n < 0 then 0 else n.n
  {
    BuiltInCapped(c, e, None);
  }

  /** A flag stored by hand is read by its word; anything else leaves the
      built-in one. */
  lemma OverrideFlag(c: Config, e: ErrorType, f: FlagField)
    requires DefaultRest(e).Some?
    ensures FailurePolicy(c, Override(None, None, None, Some(f)), e, None).disables
         == if f.Else? then e == KeyInvalid else f.b
  {
  }

  /** A policy the API accepted is the policy the scheduler applies, whatever
      the rest of the configuration says.  A rate limit with an honoured
      Retry-After keeps the upstream's clamped delay as its key cooldown, unless
      the saved scope allows no key cooldown. */
  lemma AcceptedIsApplied(c: Config, current: Override, p: Patch, retryAfter: Option<int>)
    requires Validated(current, p).Some?
    ensures var saved := Validated(current, p).value;
            FailurePolicy(c, Stored(saved), p.e, retryAfter) == WithRetryAfter(c, p.e, retryAfter, saved)
  {
    ValidatedCanonical(current, p);
  }

  function WithRetryAfter(c: Config, e: ErrorType, retryAfter: Option<int>, saved: Policy): Policy {
    if RetryAfterHonoured(c, e, retryAfter) && !saved.scope.NoScope? && !saved.scope.ProviderScope? then
      saved.(cooldown := Clamp(retryAfter.value, 0, MAX_CONFIGURED_COOLDOWN_S))
    else saved
  }

  /** No configuration, valid or not, takes a cooldown past its cap; and an
      override in force leaves nothing its scope forbids. */
  lemma CapsHold(c: Config, o: Override, e: ErrorType, retryAfter: Option<int>)
    ensures var p := FailurePolicy(c, o, e, retryAfter);
            && 0 <= p.cooldown <= MAX_CONFIGURED_COOLDOWN_S
            && 0 <= p.providerCooldown <= MAX_PROVIDER_COOLDOWN_S
            && (o != NO_OVERRIDE ==> Canonical(p))
  {
    BuiltInCapped(c, e, retryAfter);
    AppliedCapped(BuiltIn(c, e, retryAfter), RetryAfterHonoured(c, e, retryAfter), o, !e.RateLimited?);
  }

  predicate Capped(p: Policy) {
    0 <= p.cooldown <= MAX_CONFIGURED_COOLDOWN_S && 0 <= p.providerCooldown <= MAX_PROVIDER_COOLDOWN_S
  }

  lemma BuiltInCapped(c: Config, e: ErrorType, retryAfter: Option<int>)
    ensures Capped(BuiltIn(c, e, retryAfter))
  {
  }

  lemma AppliedCapped(base: Policy, retryAfterUsed: bool, o: Override, allowRetryAfter: bool)
    requires Capped(base)
    ensures Capped(Applied(base, retryAfterUsed, o, allowRetryAfter))
    ensures o != NO_OVERRIDE ==> Canonical(Applied(base, retryAfterUsed, o, allowRetryAfter))
  {
  }

  /** A stored policy is accepted again, as it is, by the patch that made it. */
  lemma ValidatedAgain(current: Override, p: Patch)
    requires Validated(current, p).Some?
    ensures Validated(Stored(Validated(current, p).value), p) == Validated(current, p)
  {
    ValidatedCanonical(current, p);
  }
}
