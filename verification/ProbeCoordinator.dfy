/** The health effects of probes: failures are counted per scope and error, in
    a bounded table that forgets the pair that failed longest ago. */
module ProbeCoordinator {
  type Scope = string

  datatype Pair = Pair(scope: Scope, error: string)

  datatype Tally = Tally(count: nat, last: real)

  /** `_failure_counts` (a map with its insertion order) and
      `_failure_types_by_key`. */
  datatype Table = Table(order: seq<Pair>, counts: map<Pair, Tally>, types: map<Scope, set<string>>)

  datatype Limits = Limits(scopes: nat, decay: real)

  const EMPTY := Table([], map[], map[])

  function Except(order: seq<Pair>, gone: set<Pair>): seq<Pair> {
    if order == [] then []
    else (if order[0] in gone then [] else [order[0]]) + Except(order[1..], gone)
  }

  function PairsOf(t: Table, scope: Scope): set<Pair> {
    if scope in t.types then set e | e in t.types[scope] :: Pair(scope, e) else {}
  }

  /** `record_success`. */
  function Forgotten(t: Table, scope: Scope): Table {
    var gone := PairsOf(t, scope);
    Table(Except(t.order, gone), t.counts - gone, t.types - {scope})
  }

  // Whether a failure at `last` is too old to count at `now`.
  predicate Stale(c: Limits, last: real, now: real) {
    last != 0.0 && c.decay != 0.0 && now - last > c.decay
  }

  function Strikes(c: Limits, t: Table, p: Pair, now: real): nat {
    if p !in t.counts || Stale(c, t.counts[p].last, now) then 1 else t.counts[p].count + 1
  }

  /** `should_apply_failure` up to the eviction loop. */
  function Bumped(c: Limits, t: Table, p: Pair, now: real): Table {
    Table(Except(t.order, {p}) + [p], t.counts[p := Tally(Strikes(c, t, p, now), now)],
          t.types[p.scope := (if p.scope in t.types then t.types[p.scope] else {}) + {p.error}])
  }

  function Untyped(types: map<Scope, set<string>>, p: Pair): map<Scope, set<string>> {
    if p.scope !in types then types
    else if types[p.scope] - {p.error} == {} then types - {p.scope}
    else types[p.scope := types[p.scope] - {p.error}]
  }

  // One round of the eviction loop.
  function Evicted(t: Table): Table
    requires t.order != []
  {
    Table(t.order[1..], t.counts - {t.order[0]}, Untyped(t.types, t.order[0]))
  }

  function Failed(c: Limits, t: Table, p: Pair, now: real): Table {
    var bumped := Bumped(c, t, p, now);
    if |bumped.order| > c.scopes then Evicted(bumped) else bumped
  }

  // These errors are applied at once and never counted.
  predicate Immediate(error: string) {
    error == "key_invalid" || error == "quota_or_balance"
  }

  function ErrorName(error: string): string {
    if error == "" then "unknown" else error
  }

  /** An invalid key and a used-up balance are the two severe errors; an error
      without a name counts as an unknown one. */
  lemma SevereExactly(error: string)
    ensures Immediate(error) <==> error in ["key_invalid", "quota_or_balance"]
    ensures error != "" ==> ErrorName(error) == error
    ensures ErrorName("") == "unknown"
  {
  }

  // --------------------------------------------------------- the event history

  /** What happened to the table, oldest event first. */
  datatype Event = Struck(p: Pair, now: real) | Succeeded(scope: Scope) | Dropped(p: Pair)

  // The event ends the run of failures of p that was current before it.
  predicate Ends(e: Event, p: Pair) {
    match e
    case Struck(q, _) => q == p
    case Succeeded(scope) => p.scope == scope
    case Dropped(q) => q == p
  }

  /** Event i is the latest failure of p, with no success or eviction since. */
  ghost predicate Latest(log: seq<Event>, p: Pair, i: nat) {
    && i < |log| && log[i].Struck? && log[i].p == p
    && forall j :: i < j < |log| ==> !Ends(log[j], p)
  }

  predicate Has(types: map<Scope, set<string>>, p: Pair) {
    p.scope in types && p.error in types[p.scope]
  }

  /** The index by scope describes the tracked pairs, with no empty set. */
  ghost predicate Typed(tracked: set<Pair>, types: map<Scope, set<string>>) {
    && (forall p :: Has(types, p) <==> p in tracked)
    && (forall k :: k in types ==> types[k] != {})
  }

  ghost predicate Indexed(t: Table) {
    && Distinct(t.order) && (forall p :: p in t.order <==> p in t.counts)
    && Typed(t.counts.Keys, t.types)
  }

  predicate Distinct(order: seq<Pair>) {
    forall a, b :: 0 <= a < b < |order| ==> order[a] != order[b]
  }

  // ------------------------------------------------------------ the two indexes

  lemma {:induction false} ExceptKeeps(order: seq<Pair>, gone: set<Pair>)
    ensures forall p :: p in Except(order, gone) <==> p in order && p !in gone
    ensures Distinct(order) ==> Distinct(Except(order, gone))
    ensures |Except(order, gone)| <= |order|
  {
    if order != [] {
      ExceptKeeps(order[1..], gone);
      assert order == [order[0]] + order[1..];
      if Distinct(order) { assert order[0] !in order[1..]; }
    }
  }

  lemma TypedMore(tracked: set<Pair>, types: map<Scope, set<string>>, p: Pair)
    requires Typed(tracked, types)
    ensures Typed(tracked + {p}, types[p.scope := (if p.scope in types then types[p.scope] else {}) + {p.error}])
  {
    var more := types[p.scope := (if p.scope in types then types[p.scope] else {}) + {p.error}];
    forall q ensures Has(more, q) <==> q in tracked + {p} {
      assert Has(types, q) <==> q in tracked;
    }
    assert p.error in more[p.scope];
  }

  lemma TypedLess(tracked: set<Pair>, types: map<Scope, set<string>>, p: Pair)
    requires Typed(tracked, types)
    ensures Typed(tracked - {p}, Untyped(types, p))
  {
    var less := Untyped(types, p);
    forall q ensures Has(less, q) <==> q in tracked - {p} {
      assert Has(types, q) <==> q in tracked;
      if q.scope == p.scope && Has(types, q) && q.error != p.error {
        assert q.error in types[p.scope] - {p.error};
      }
    }
  }

  lemma TypedWithout(tracked: set<Pair>, types: map<Scope, set<string>>, scope: Scope, rest: set<Pair>)
    requires Typed(tracked, types) && forall p :: p in rest <==> p in tracked && p.scope != scope
    ensures Typed(rest, types - {scope})
  {
    forall q ensures Has(types - {scope}, q) <==> q in rest {
      assert Has(types, q) <==> q in tracked;
    }
  }

  lemma PairsOfScope(t: Table, scope: Scope)
    requires Typed(t.counts.Keys, t.types)
    ensures forall p :: p in PairsOf(t, scope) <==> p in t.counts && p.scope == scope
  {
    forall p ensures p in PairsOf(t, scope) <==> p in t.counts && p.scope == scope {
      assert Has(t.types, p) <==> p in t.counts;
      assert p == Pair(p.scope, p.error);
    }
  }

  /** A success forgets exactly the pairs of its scope. */
  lemma {:induction false} ForgottenIndexed(t: Table, scope: Scope)
    requires Indexed(t)
    ensures Indexed(Forgotten(t, scope)) && |Forgotten(t, scope).order| <= |t.order|
    ensures forall p :: p in Forgotten(t, scope).counts <==> p in t.counts && p.scope != scope
  {
    ExceptKeeps(t.order, PairsOf(t, scope));
    PairsOfScope(t, scope);
    TypedWithout(t.counts.Keys, t.types, scope, Forgotten(t, scope).counts.Keys);
  }

  lemma BumpedIndexed(c: Limits, t: Table, p: Pair, now: real)
    requires Indexed(t)
    ensures Indexed(Bumped(c, t, p, now))
    ensures |Bumped(c, t, p, now).order| <= |t.order| + 1
    ensures Bumped(c, t, p, now).counts.Keys == t.counts.Keys + {p}
  {
    ExceptKeeps(t.order, {p});
    TypedMore(t.counts.Keys, t.types, p);
  }

  lemma EvictedIndexed(t: Table)
    requires Indexed(t) && t.order != []
    ensures Indexed(Evicted(t))
    ensures Evicted(t).counts.Keys == t.counts.Keys - {t.order[0]}
  {
    var q := t.order[0];
    assert t.order == [q] + t.order[1..];
    assert q !in t.order[1..];
    TypedLess(t.counts.Keys, t.types, q);
  }

  /** After any call both indexes agree and the table is within its cap. */
  lemma {:induction false} FailedIndexed(c: Limits, t: Table, p: Pair, now: real)
    requires Indexed(t) && |t.order| <= c.scopes && c.scopes >= 1
    ensures Indexed(Failed(c, t, p, now)) && |Failed(c, t, p, now).order| <= c.scopes
  {
    BumpedIndexed(c, t, p, now);
    if |Bumped(c, t, p, now).order| > c.scopes { EvictedIndexed(Bumped(c, t, p, now)); }
  }

  // ----------------------------------------------------- the table as a memory

  // The index of the latest failure of p, or -1.
  function LatestAt(log: seq<Event>, p: Pair): (i: int)
    ensures -1 <= i < |log|
    ensures i >= 0 ==> log[i].Struck?
  {
    if log == [] then -1 else
    var e := log[|log| - 1];
    if e.Struck? && e.p == p then |log| - 1
    else if Ends(e, p) then -1
    else LatestAt(log[..|log| - 1], p)
  }

  lemma {:induction false} LatestAtExactly(log: seq<Event>, p: Pair, i: nat)
    ensures Latest(log, p, i) <==> LatestAt(log, p) == i
  {
    if log != [] {
      var front, e := log[..|log| - 1], log[|log| - 1];
      if i < |front| {
        LatestAtExactly(front, p, i);
        assert Latest(log, p, i) <==> Latest(front, p, i) && !Ends(e, p);
      } else {
        LatestAtExactly(front, p, i);
      }
    }
  }

  lemma LatestSnoc(log: seq<Event>, e: Event, p: Pair)
    ensures LatestAt(log + [e], p) ==
      if e.Struck? && e.p == p then |log| else if Ends(e, p) then -1 else LatestAt(log, p)
  {
    assert (log + [e])[..|log|] == log;
  }

  // Each tracked pair remembers its latest failure, and nothing else is tracked.
  ghost predicate Remembers(t: Table, log: seq<Event>) {
    forall p :: (p in t.counts <==> LatestAt(log, p) >= 0)
             && (p in t.counts ==> t.counts[p].count >= 1 && t.counts[p].last == log[LatestAt(log, p)].now)
  }

  ghost predicate ByRecency(order: seq<Pair>, log: seq<Event>) {
    forall a, b :: 0 <= a < b < |order| ==> LatestAt(log, order[a]) < LatestAt(log, order[b])
  }

  /** The table is the memory of the event history: the tracked pairs are those
      with a latest failure, in the order of those failures. */
  ghost predicate Tracks(c: Limits, t: Table, log: seq<Event>) {
    Indexed(t) && |t.order| <= c.scopes && Remembers(t, log) && ByRecency(t.order, log)
  }

  lemma {:induction false} ExceptByRecency(order: seq<Pair>, gone: set<Pair>, log: seq<Event>)
    requires ByRecency(order, log)
    ensures ByRecency(Except(order, gone), log)
  {
    if order != [] {
      assert order == [order[0]] + order[1..];
      ExceptByRecency(order[1..], gone, log);
      ExceptKeeps(order[1..], gone);
      if order[0] !in gone {
        forall p | p in Except(order[1..], gone) ensures LatestAt(log, order[0]) < LatestAt(log, p) {
          assert p in order[1..];
        }
      }
    }
  }

  lemma SameRecency(order: seq<Pair>, log: seq<Event>, e: Event)
    requires ByRecency(order, log) && forall p :: p in order ==> !Ends(e, p)
    ensures ByRecency(order, log + [e])
  {
    forall a, b | 0 <= a < b < |order| ensures LatestAt(log + [e], order[a]) < LatestAt(log + [e], order[b]) {
      assert order[a] in order && order[b] in order;
      LatestSnoc(log, e, order[a]);
      LatestSnoc(log, e, order[b]);
    }
  }

  lemma ForgottenRemembers(t: Table, log: seq<Event>, scope: Scope)
    requires Indexed(t) && Remembers(t, log)
    ensures Remembers(Forgotten(t, scope), log + [Succeeded(scope)])
  {
    ForgottenIndexed(t, scope);
    forall p { LatestSnoc(log, Succeeded(scope), p); }
  }

  lemma BumpedRemembers(c: Limits, t: Table, log: seq<Event>, p: Pair, now: real)
    requires Remembers(t, log)
    ensures Remembers(Bumped(c, t, p, now), log + [Struck(p, now)])
  {
    forall q { LatestSnoc(log, Struck(p, now), q); }
  }

  lemma EvictedRemembers(t: Table, log: seq<Event>)
    requires t.order != [] && Remembers(t, log)
    ensures Remembers(Evicted(t), log + [Dropped(t.order[0])])
  {
    forall q { LatestSnoc(log, Dropped(t.order[0]), q); }
  }

  /** A success ends the runs of its scope and no others. */
  lemma {:induction false} ForgottenTracks(c: Limits, t: Table, log: seq<Event>, scope: Scope)
    requires Tracks(c, t, log)
    ensures Tracks(c, Forgotten(t, scope), log + [Succeeded(scope)])
  {
    ForgottenIndexed(t, scope);
    ForgottenRemembers(t, log, scope);
    var gone := PairsOf(t, scope);
    ExceptByRecency(t.order, gone, log);
    ExceptKeeps(t.order, gone);
    PairsOfScope(t, scope);
    SameRecency(Except(t.order, gone), log, Succeeded(scope));
  }

  lemma BumpedByRecency(c: Limits, t: Table, log: seq<Event>, p: Pair, now: real)
    requires ByRecency(t.order, log)
    ensures ByRecency(Bumped(c, t, p, now).order, log + [Struck(p, now)])
  {
    var kept, e := Except(t.order, {p}), Struck(p, now);
    ExceptByRecency(t.order, {p}, log);
    ExceptKeeps(t.order, {p});
    SameRecency(kept, log, e);
    LatestSnoc(log, e, p);
    forall a | 0 <= a < |kept| ensures LatestAt(log + [e], kept[a]) < |log| {
      assert kept[a] in kept;
      LatestSnoc(log, e, kept[a]);
    }
  }

  lemma EvictedByRecency(t: Table, log: seq<Event>)
    requires t.order != [] && Distinct(t.order) && ByRecency(t.order, log)
    ensures ByRecency(Evicted(t).order, log + [Dropped(t.order[0])])
    ensures forall p :: p in t.order[1..] ==> LatestAt(log, t.order[0]) < LatestAt(log, p)
  {
    SameRecency(t.order[1..], log, Dropped(t.order[0]));
  }

  // The events of one counted failure.
  function Events(c: Limits, t: Table, p: Pair, now: real): seq<Event> {
    var bumped := Bumped(c, t, p, now);
    [Struck(p, now)] + if |bumped.order| > c.scopes then [Dropped(bumped.order[0])] else []
  }

  lemma BumpedTracks(c: Limits, t: Table, log: seq<Event>, p: Pair, now: real)
    requires Tracks(c, t, log)
    ensures Tracks(c.(scopes := c.scopes + 1), Bumped(c, t, p, now), log + [Struck(p, now)])
  {
    BumpedIndexed(c, t, p, now);
    BumpedRemembers(c, t, log, p, now);
    BumpedByRecency(c, t, log, p, now);
  }

  /** The pair evicted is the one that failed longest ago. */
  lemma {:induction false} EvictedTracks(c: Limits, t: Table, log: seq<Event>)
    requires Tracks(c.(scopes := c.scopes + 1), t, log) && |t.order| > c.scopes
    ensures Tracks(c, Evicted(t), log + [Dropped(t.order[0])])
    ensures forall p :: p in t.counts && p != t.order[0] ==> LatestAt(log, t.order[0]) < LatestAt(log, p)
  {
    EvictedIndexed(t);
    EvictedRemembers(t, log);
    EvictedByRecency(t, log);
    OthersStay(t);
  }

  lemma OthersStay(t: Table)
    requires Indexed(t) && t.order != []
    ensures forall p :: p in t.counts && p != t.order[0] ==> p in t.order[1..]
  {
    forall p | p in t.counts && p != t.order[0] ensures p in t.order[1..] {
      assert t.order == [t.order[0]] + t.order[1..];
      assert p in t.order;
    }
  }

  /** A counted failure, with its eviction, keeps the table a memory. */
  lemma {:induction false} FailedTracks(c: Limits, t: Table, log: seq<Event>, p: Pair, now: real)
    requires Tracks(c, t, log)
    ensures Tracks(c, Failed(c, t, p, now), log + Events(c, t, p, now))
  {
    var bumped, more := Bumped(c, t, p, now), log + [Struck(p, now)];
    BumpedTracks(c, t, log, p, now);
    if |bumped.order| > c.scopes {
      EvictedTracks(c, bumped, more);
      assert log + Events(c, t, p, now) == more + [Dropped(bumped.order[0])];
    } else {
      assert log + Events(c, t, p, now) == more;
    }
  }

  /** An ordinary failure is applied exactly when an earlier failure of the same
      pair is unbroken by a success, an eviction or too long a gap. */
  lemma {:induction false} AppliedExactly(c: Limits, t: Table, log: seq<Event>, p: Pair, now: real)
    requires Tracks(c, t, log)
    ensures Strikes(c, t, p, now) >= 2 <==>
      exists i: nat :: Latest(log, p, i)
        && (log[i].now == 0.0 || c.decay == 0.0 || now <= log[i].now + c.decay)
  {
    var at := LatestAt(log, p);
    if p in t.counts {
      LatestAtExactly(log, p, at);
    }
    forall i: nat | Latest(log, p, i) ensures at == i { LatestAtExactly(log, p, i); }
  }

  // ---------------------------------------------------------------- whole runs

  datatype Call = Success(scope: Scope) | Failure(scope: Scope, error: string, now: real)

  function Handled(c: Limits, t: Table, call: Call): Table {
    match call
    case Success(scope) => Forgotten(t, scope)
    case Failure(scope, error, now) => if Immediate(error) then t else Failed(c, t, Pair(scope, ErrorName(error)), now)
  }

  function Noted(c: Limits, t: Table, call: Call): seq<Event> {
    match call
    case Success(scope) => [Succeeded(scope)]
    case Failure(scope, error, now) => if Immediate(error) then [] else Events(c, t, Pair(scope, ErrorName(error)), now)
  }

  function Run(c: Limits, calls: seq<Call>): (Table, seq<Event>) {
    if calls == [] then (EMPTY, []) else
    var (t, log) := Run(c, calls[..|calls| - 1]);
    (Handled(c, t, calls[|calls| - 1]), log + Noted(c, t, calls[|calls| - 1]))
  }

  /** Over any sequence of calls the table is the memory of what happened. */
  lemma {:induction false} RunTracks(c: Limits, calls: seq<Call>)
    requires c.scopes >= 1
    ensures Tracks(c, Run(c, calls).0, Run(c, calls).1)
  {
    if calls != [] {
      var front, call := calls[..|calls| - 1], calls[|calls| - 1];
      RunTracks(c, front);
      var (t, log) := Run(c, front);
      match call
      case Success(scope) => ForgottenTracks(c, t, log, scope);
      case Failure(scope, error, now) =>
        if Immediate(error) {
          assert log + [] == log;
        } else {
          FailedTracks(c, t, log, Pair(scope, ErrorName(error)), now);
        }
    }
  }

  // --------------------------------------------------------------- the object

  class FailureGate {
    const limits: Limits
    var order: seq<Pair>
    var counts: map<Pair, Tally>
    var types: map<Scope, set<string>>

    ghost function State(): Table
      reads this
    {
      Table(order, counts, types)
    }

    constructor (maxFailureScopes: int, decay: real)
      ensures limits.scopes == (if maxFailureScopes < 1 then 1 else maxFailureScopes)
      ensures limits.decay == (if decay < 0.0 then 0.0 else decay)
      ensures State() == EMPTY && Tracks(limits, State(), [])
    {
      limits := Limits(if maxFailureScopes < 1 then 1 else maxFailureScopes, if decay < 0.0 then 0.0 else decay);
      order, counts, types := [], map[], map[];
    }

    /** `record_success`. */
    method RecordSuccess(scope: Scope)
      requires Indexed(State())
      modifies this
      ensures State() == Forgotten(old(State()), scope) && Indexed(State())
    {
      ForgottenIndexed(State(), scope);
      var gone := PairsOf(Table(order, counts, types), scope);
      types := types - {scope};
      order := Except(order, gone);
      counts := counts - gone;
    }

    /** `should_apply_failure`. */
    method ShouldApplyFailure(scope: Scope, error: string, now: real) returns (apply: bool)
      requires Indexed(State()) && |order| <= limits.scopes && limits.scopes >= 1
      modifies this
      ensures Immediate(error) ==> apply && State() == old(State())
      ensures !Immediate(error) ==> apply == (Strikes(limits, old(State()), Pair(scope, ErrorName(error)), now) >= 2)
      ensures !Immediate(error) ==> State() == Failed(limits, old(State()), Pair(scope, ErrorName(error)), now)
      ensures Indexed(State()) && |order| <= limits.scopes
    {
      if Immediate(error) { return true; }
      var p := Pair(scope, ErrorName(error));
      FailedIndexed(limits, State(), p, now);
      BumpedIndexed(limits, State(), p, now);
      var count := Strikes(limits, Table(order, counts, types), p, now);
      order := Except(order, {p}) + [p];
      counts := counts[p := Tally(count, now)];
      types := types[scope := (if scope in types then types[scope] else {}) + {p.error}];
      ghost var bumped := State();
      while |order| > limits.scopes
        invariant State() == bumped || (|bumped.order| > limits.scopes && State() == Evicted(bumped))
        decreases |order|
      {
        var oldest := order[0];
        order := order[1..];
        counts := counts - {oldest};
        types := Untyped(types, oldest);
      }
      apply := count >= 2;
    }
  }
}
