/** How often live traffic can put off one provider's discovery.

    A provider deferred for `maxDefer` seconds is fetched anyway, and a deferred
    provider rests for `deferInterval` seconds, so the number of deferrals in a
    row is bounded by their quotient.  One interleaving breaks the bound by one:
    a forced request that lands after a worker has seen the provider as not
    urgent and before that worker takes the lock resets the starvation clock,
    and the worker then defers a provider it should have fetched. */
module DiscoveryFairness {
  import opened Options
  import opened Ceilings
  import opened ModelDiscoveryQueue
  import opened DiscoveryWorkers

  /** ceil(maxDefer / deferInterval). */
  function Bound(c: Params): (n: nat)
    requires ParamsOk(c)
    ensures c.maxDefer <= n as real * c.deferInterval
  {
    Fits(c.maxDefer, c.deferInterval)
  }

  // ------------------------------------------------ one provider's bookkeeping

  datatype Facts = Facts(turn: Option<Phase>, n: nat, raced: bool, urgent: bool,
                         since: Option<real>, eligible: Option<real>)

  function LookupTime(m: map<Provider, real>, p: Provider): Option<real> {
    if p in m then Some(m[p]) else None
  }

  ghost function Turn(s: System, p: Provider): Option<Phase> {
    if exists w :: 0 <= w < |s.workers| && Holds(s.workers[w], p) then
      var w :| 0 <= w < |s.workers| && Holds(s.workers[w], p);
      Some(s.workers[w])
    else None
  }

  ghost function FactsOf(s: System, p: Provider): Facts {
    Facts(Turn(s, p), Count(s, p), p in s.raced, p in s.q.urgent, LookupTime(s.q.since, p), LookupTime(s.q.eligible, p))
  }

  // The turn is past its last chance to defer.
  predicate Past(turn: Option<Phase>) {
    turn.Some? && (turn.value.Fetching? || (turn.value.Releasing? && !turn.value.status.Deferred?))
  }

  predicate Before(turn: Option<Phase>) {
    turn.Some? && (turn.value.Popped? || turn.value.Ready? || turn.value.Deciding?)
  }

  // n deferrals cannot have happened in less time than n rests.
  predicate Clock(c: Params, f: Facts)
    requires f.since.Some?
  {
    var rests := f.n as real * c.deferInterval;
    if f.turn.Some? && f.turn.value.ToRequeue? then
      f.turn.value.seen + c.deferInterval >= f.since.value + rests
    else
      && f.eligible.Some? && f.eligible.value >= f.since.value + rests
      && (Before(f.turn) ==> f.turn.value.seen >= f.since.value + rests)
  }

  predicate Fair(c: Params, f: Facts)
    requires ParamsOk(c)
  {
    && f.n <= Bound(c) + (if f.raced then 1 else 0)
    && (f.raced ==> f.urgent)
    && (f.turn.Some? && f.turn.value.Deciding? ==>
          c.maxDefer > 0.0 && f.n <= Bound(c) && (f.urgent ==> f.raced && f.since.None?))
    && (!f.urgent && !Past(f.turn) ==> (f.n >= 1 ==> f.since.Some?) && (f.since.Some? ==> Clock(c, f)))
  }

  ghost predicate AllFair(c: Params, s: System)
    requires ParamsOk(c)
  {
    forall p :: Fair(c, FactsOf(s, p))
  }

  // --------------------------------------------------------- what steps change

  lemma TurnIs(s: System, w: nat)
    requires Inv(s) && w < |s.workers| && !s.workers[w].Idle?
    ensures Turn(s, s.workers[w].p) == Some(s.workers[w])
  {
    assert Holds(s.workers[w], s.workers[w].p);
  }

  // A worker's step is nobody else's business.
  lemma TurnElsewhere(s: System, s': System, w: nat, p: Provider)
    requires Inv(s) && Inv(s') && w < |s.workers| == |s'.workers| && s'.workers == s.workers[w := s'.workers[w]]
    requires !Holds(s.workers[w], p) && !Holds(s'.workers[w], p)
    ensures Turn(s', p) == Turn(s, p)
  {
    assert forall v :: 0 <= v < |s.workers| ==> Holds(s'.workers[v], p) == Holds(s.workers[v], p);
    if v :| 0 <= v < |s.workers| && Holds(s.workers[v], p) {
      TurnIs(s, v);
      TurnIs(s', v);
    }
  }

  lemma EnqueueFair(c: Params, s: System, p: Provider, force: bool, snap: Snapshot)
    requires ParamsOk(c) && Inv(s) && AllFair(c, s)
    ensures AllFair(c, Enqueueing(c, s, p, force, snap))
  {
    forall x ensures Fair(c, FactsOf(Enqueueing(c, s, p, force, snap), x)) {
      assert Fair(c, FactsOf(s, x));
      EnqueueFairAt(c, s, p, force, snap, x);
    }
  }

  lemma EnqueueFairAt(c: Params, s: System, p: Provider, force: bool, snap: Snapshot, x: Provider)
    requires ParamsOk(c) && Inv(s) && Fair(c, FactsOf(s, x))
    ensures Fair(c, FactsOf(Enqueueing(c, s, p, force, snap), x))
  {
    var f, f' := FactsOf(s, x), FactsOf(Enqueueing(c, s, p, force, snap), x);
    assert f'.turn == f.turn && f'.n == f.n;
    if x == p != "" {
      if force {
        if RacesIn(s, p) {
          var w :| 0 <= w < |s.workers| && s.workers[w].Deciding? && s.workers[w].p == p;
          TurnIs(s, w);
        } else {
          assert !(f.turn.Some? && f.turn.value.Deciding?);
        }
      }
    } else {
      assert f' == f;
    }
  }

  // The facts about a provider when its own worker takes a step.
  function Moved(c: Params, f: Facts, step: Step): Facts
    requires f.turn.Some? && !step.Enqueue? && !step.Pop? && !f.turn.value.Idle?
  {
    var ph := f.turn.value;
    match step
    case CheckEnabled(_, gate, now) =>
      if gate.Open? then f.(turn := Some(Ready(ph.p, now)))
      else if gate.Shut? then f.(turn := Some(Releasing(ph.p, now, Done)))
      else f.(turn := Some(Releasing(ph.p, now, Failed)), eligible := Some(now + c.retry))
    case CheckUrgent(_, now) =>
      f.(turn := Some(if !c.polite || c.maxDefer <= 0.0 || f.urgent then Fetching(ph.p, now) else Deciding(ph.p, now)))
    case Decide(_, busy) =>
      if !(busy && (f.since.Some? ==> ph.seen - f.since.value < c.maxDefer)) then
        f.(turn := Some(Fetching(ph.p, ph.seen)), since := None)
      else
        f.(turn := Some(ToRequeue(ph.p, ph.seen)), n := f.n + 1,
           since := if f.since.Some? then f.since else Some(ph.seen))
    case Requeue(_, now) =>
      f.(turn := Some(Releasing(ph.p, now, Deferred)), eligible := Some(now + c.deferInterval))
    case Finish(_, ok, now) =>
      f.(turn := Some(Releasing(ph.p, now, if ok then Done else Failed)),
         eligible := Some(now + if ok then c.okTtl else c.retry))
    case Release(_) =>
      if ph.Releasing? && ph.status.Deferred? then f.(turn := None)
      else f.(turn := None, n := 0, raced := false, urgent := false, since := None)
    case Enqueue(_, _, _) => f
    case Pop(_, _) => f
  }

  // The worker is where the step expects it, with a clock that has not gone back.
  predicate Enabled(ph: Phase, step: Step) {
    match step
    case Enqueue(_, _, _) => false
    case Pop(_, now) => ph.Idle? && now >= ph.seen
    case CheckEnabled(_, _, now) => ph.Popped? && now >= ph.seen
    case CheckUrgent(_, now) => ph.Ready? && now >= ph.seen
    case Decide(_, _) => ph.Deciding?
    case Requeue(_, now) => ph.ToRequeue? && now >= ph.seen
    case Finish(_, _, now) => ph.Fetching? && now >= ph.seen
    case Release(_) => ph.Releasing?
  }

  lemma DecideFair(c: Params, f: Facts, step: Step)
    requires ParamsOk(c) && Fair(c, f) && f.turn.Some? && f.turn.value.Deciding? && step.Decide?
    ensures Fair(c, Moved(c, f, step))
  {
    var d, seen := c.deferInterval, f.turn.value.seen;
    if step.busy && (f.since.Some? ==> seen - f.since.value < c.maxDefer) && !f.urgent {
      assert f.n as real * d < c.maxDefer <= Bound(c) as real * d;
      CountBelow(f.n, Bound(c), d);
      assert (f.n + 1) as real * d == f.n as real * d + d;
    }
  }

  lemma RequeueFair(c: Params, f: Facts, step: Step)
    requires ParamsOk(c) && Fair(c, f) && f.turn.Some? && f.turn.value.ToRequeue? && step.Requeue?
    requires Enabled(f.turn.value, step)
    ensures Fair(c, Moved(c, f, step))
  {
  }

  lemma UrgencyFair(c: Params, f: Facts, step: Step)
    requires ParamsOk(c) && Fair(c, f) && f.turn.Some? && f.turn.value.Ready? && step.CheckUrgent?
    requires Enabled(f.turn.value, step)
    ensures Fair(c, Moved(c, f, step))
  {
  }

  lemma MoveFair(c: Params, f: Facts, step: Step)
    requires ParamsOk(c) && Fair(c, f) && f.turn.Some? && !step.Enqueue? && !step.Pop? && Enabled(f.turn.value, step)
    ensures Fair(c, Moved(c, f, step))
  {
    if step.Decide? {
      DecideFair(c, f, step);
    } else if step.Requeue? {
      RequeueFair(c, f, step);
    } else if step.CheckUrgent? {
      UrgencyFair(c, f, step);
    }
  }

  lemma PopFair(c: Params, s: System, w: nat, now: real)
    requires ParamsOk(c) && Inv(s) && AllFair(c, s) && w < |s.workers| && Enabled(s.workers[w], Pop(w, now))
    ensures AllFair(c, Popping(s, w, now))
  {
    forall x ensures Fair(c, FactsOf(Popping(s, w, now), x)) {
      assert Fair(c, FactsOf(s, x));
      PopFacts(s, w, now, x);
      if DueAt(s, now, x) { PoppedFair(c, FactsOf(s, x), x, now); }
    }
  }

  // The provider that the pop takes.
  predicate DueAt(s: System, now: real, x: Provider) {
    var i := DueIndex(s.q, now, 0);
    i < |s.q.queue| && x == s.q.queue[i]
  }

  lemma PopFacts(s: System, w: nat, now: real, x: Provider)
    requires Inv(s) && w < |s.workers| && Enabled(s.workers[w], Pop(w, now))
    ensures DueAt(s, now, x) ==> EligibleAt(s.q, x) <= now && FactsOf(s, x).turn.None?
    ensures FactsOf(Popping(s, w, now), x)
         == if DueAt(s, now, x) then FactsOf(s, x).(turn := Some(Popped(x, now))) else FactsOf(s, x)
  {
    var s' := Popping(s, w, now);
    PopInv(s, w, now);
    if DueAt(s, now, x) {
      TurnIs(s', w);
      assert Turn(s, x) == None by { assert x !in s.q.active; }
    } else {
      TurnElsewhere(s, s', w, x);
    }
  }

  lemma PoppedFair(c: Params, f: Facts, x: Provider, now: real)
    requires ParamsOk(c) && Fair(c, f) && f.turn.None? && (f.eligible.Some? ==> f.eligible.value <= now)
    ensures Fair(c, f.(turn := Some(Popped(x, now))))
  {
  }

  // Everything recorded about a provider except whose turn it is.
  ghost function Record(s: System, p: Provider): Facts {
    Facts(None, Count(s, p), p in s.raced, p in s.q.urgent, LookupTime(s.q.since, p), LookupTime(s.q.eligible, p))
  }

  lemma RecordMoves(c: Params, s: System, step: Step)
    requires !step.Enqueue? && !step.Pop? && step.w < |s.workers| && Enabled(s.workers[step.w], step)
    requires !step.Decide? && !step.Release?
    ensures var s', p := Exec(c, s, step), s.workers[step.w].p;
            Record(s', p).(turn := Some(s'.workers[step.w]))
                == Moved(c, Record(s, p).(turn := Some(s.workers[step.w])), step)
  {
    if step.CheckEnabled? { CheckEnabledMoves(c, s, step); } else if step.Finish? { FinishMoves(c, s, step); }
  }

  lemma CheckEnabledMoves(c: Params, s: System, step: Step)
    requires step.CheckEnabled? && step.w < |s.workers| && Enabled(s.workers[step.w], step)
    ensures var s', p := Exec(c, s, step), s.workers[step.w].p;
            Record(s', p).(turn := Some(s'.workers[step.w]))
                == Moved(c, Record(s, p).(turn := Some(s.workers[step.w])), step)
  {
    if !step.gate.Open? && !step.gate.Shut? {
      FailingMoves(c, s, step.w, s.workers[step.w].p, step.now);
    }
  }

  // A provider put back with an error.
  lemma FailingMoves(c: Params, s: System, w: nat, p: Provider, now: real)
    requires w < |s.workers|
    ensures Record(Failing(c, s, w, p, now), p) == Record(s, p).(eligible := Some(now + c.retry))
    ensures Failing(c, s, w, p, now).workers[w] == Releasing(p, now, Failed)
  {
  }

  lemma FinishMoves(c: Params, s: System, step: Step)
    requires step.Finish? && step.w < |s.workers| && Enabled(s.workers[step.w], step)
    ensures var s', p := Exec(c, s, step), s.workers[step.w].p;
            Record(s', p).(turn := Some(s'.workers[step.w]))
                == Moved(c, Record(s, p).(turn := Some(s.workers[step.w])), step)
  {
  }

  lemma DecideMoves(c: Params, s: System, step: Step)
    requires step.Decide? && step.w < |s.workers| && Enabled(s.workers[step.w], step)
    ensures var s', p := Exec(c, s, step), s.workers[step.w].p;
            Record(s', p).(turn := Some(s'.workers[step.w]))
                == Moved(c, Record(s, p).(turn := Some(s.workers[step.w])), step)
  {
  }

  // The system step of a holding worker is the move of its provider's facts.
  lemma StepMoves(c: Params, s: System, step: Step)
    requires Inv(s) && !step.Enqueue? && !step.Pop? && step.w < |s.workers| && Enabled(s.workers[step.w], step)
    ensures var p := s.workers[step.w].p;
            FactsOf(Exec(c, s, step), p) == Moved(c, FactsOf(s, p), step)
  {
    var s', w := Exec(c, s, step), step.w;
    StepInv(c, s, step);
    TurnIs(s, w);
    if step.Release? {
      ReleasedTurn(c, s, w);
    } else {
      if step.Decide? { DecideMoves(c, s, step); } else { RecordMoves(c, s, step); }
      StillHeld(c, s, step);
      TurnIs(s', w);
    }
  }

  lemma StillHeld(c: Params, s: System, step: Step)
    requires !step.Enqueue? && !step.Pop? && !step.Release? && step.w < |s.workers| && Enabled(s.workers[step.w], step)
    ensures var s' := Exec(c, s, step);
            |s'.workers| == |s.workers| && Holds(s'.workers[step.w], s.workers[step.w].p)
  {
  }

  lemma ReleasedTurn(c: Params, s: System, w: nat)
    requires Inv(s) && w < |s.workers| && s.workers[w].Releasing?
    ensures Turn(Ending(s, w, s.workers[w]), s.workers[w].p) == None
  {
    var s' := Ending(s, w, s.workers[w]);
    EndInv(s, w);
    assert s.workers[w].p !in s'.q.active;
  }

  lemma StepElsewhere(c: Params, s: System, step: Step, p: Provider)
    requires Inv(s) && !step.Enqueue? && !step.Pop? && step.w < |s.workers| && Enabled(s.workers[step.w], step)
    requires p != s.workers[step.w].p
    ensures FactsOf(Exec(c, s, step), p) == FactsOf(s, p)
  {
    StepInv(c, s, step);
    RecordElsewhere(c, s, step, p);
    TurnElsewhere(s, Exec(c, s, step), step.w, p);
  }

  // What a step of worker w leaves alone of a provider it does not hold.
  ghost predicate Apart(s: System, t: System, w: nat, p: Provider) {
    && w < |s.workers| == |t.workers| && t.workers == s.workers[w := t.workers[w]]
    && Record(t, p) == Record(s, p) && !Holds(t.workers[w], p)
  }

  lemma GateElsewhere(c: Params, s: System, step: Step, p: Provider)
    requires step.CheckEnabled? && step.w < |s.workers| && Enabled(s.workers[step.w], step)
    requires p != s.workers[step.w].p
    ensures Apart(s, Exec(c, s, step), step.w, p)
  {
  }

  lemma DecideElsewhere(c: Params, s: System, step: Step, p: Provider)
    requires step.Decide? && step.w < |s.workers| && Enabled(s.workers[step.w], step)
    requires p != s.workers[step.w].p
    ensures Apart(s, Exec(c, s, step), step.w, p)
  {
  }

  lemma FinishElsewhere(c: Params, s: System, step: Step, p: Provider)
    requires step.Finish? && step.w < |s.workers| && Enabled(s.workers[step.w], step)
    requires p != s.workers[step.w].p
    ensures Apart(s, Exec(c, s, step), step.w, p)
  {
  }

  lemma RequeueElsewhere(c: Params, s: System, step: Step, p: Provider)
    requires step.Requeue? && step.w < |s.workers| && Enabled(s.workers[step.w], step)
    requires p != s.workers[step.w].p
    ensures Apart(s, Exec(c, s, step), step.w, p)
  {
  }

  lemma RecordElsewhere(c: Params, s: System, step: Step, p: Provider)
    requires !step.Enqueue? && !step.Pop? && step.w < |s.workers| && Enabled(s.workers[step.w], step)
    requires p != s.workers[step.w].p
    ensures Apart(s, Exec(c, s, step), step.w, p)
  {
    if step.CheckEnabled? {
      GateElsewhere(c, s, step, p);
    } else if step.Decide? {
      DecideElsewhere(c, s, step, p);
    } else if step.Finish? {
      FinishElsewhere(c, s, step, p);
    } else if step.Requeue? {
      RequeueElsewhere(c, s, step, p);
    }
  }

  lemma StepFair(c: Params, s: System, step: Step)
    requires ParamsOk(c) && Inv(s) && AllFair(c, s)
    ensures AllFair(c, Exec(c, s, step))
  {
    if step.Enqueue? {
      EnqueueFair(c, s, step.p, step.force, step.snap);
    } else if step.w < |s.workers| && Enabled(s.workers[step.w], step) {
      if step.Pop? {
        PopFair(c, s, step.w, step.now);
      } else {
        var p := s.workers[step.w].p;
        TurnIs(s, step.w);
        forall x ensures Fair(c, FactsOf(Exec(c, s, step), x)) {
          assert Fair(c, FactsOf(s, x));
          if x == p {
            StepMoves(c, s, step);
            MoveFair(c, FactsOf(s, x), step);
          } else {
            StepElsewhere(c, s, step, x);
          }
        }
      }
    } else {
      Disabled(c, s, step);
    }
  }

  lemma Disabled(c: Params, s: System, step: Step)
    requires !step.Enqueue? && !(step.w < |s.workers| && Enabled(s.workers[step.w], step))
    ensures Exec(c, s, step) == s
  {
  }

  lemma {:induction false} RunFair(c: Params, s: System, steps: seq<Step>)
    requires ParamsOk(c) && Inv(s) && AllFair(c, s)
    ensures AllFair(c, Run(c, s, steps))
    decreases |steps|
  {
    if steps != [] {
      StepInv(c, s, steps[0]);
      StepFair(c, s, steps[0]);
      RunFair(c, Exec(c, s, steps[0]), steps[1..]);
    }
  }

  /** In every run of any number of workers under any traffic, a provider is
      deferred at most ceil(maxDefer / deferInterval) times between two turns
      that were not deferrals, and once more at most where a forced request for
      it raced a worker's decision. */
  lemma DeferralsBounded(c: Params, workers: nat, steps: seq<Step>, p: Provider)
    requires ParamsOk(c)
    ensures var s := Run(c, Initial(workers), steps);
            Count(s, p) <= Bound(c) + if p in s.raced then 1 else 0
  {
    InitialInv(workers);
    RunFair(c, Initial(workers), steps);
    assert Fair(c, FactsOf(Run(c, Initial(workers), steps), p));
  }

  /** The bound is exceeded exactly by a decision that finds the starvation
      clock gone when the deferrals are already used up; and the clock can only
      be gone because a forced request raced that decision. */
  lemma ExceededExactly(c: Params, workers: nat, steps: seq<Step>, w: nat, busy: bool)
    requires ParamsOk(c) && w < workers
    requires w < |Run(c, Initial(workers), steps).workers| && Run(c, Initial(workers), steps).workers[w].Deciding?
    ensures var s := Run(c, Initial(workers), steps);
            var p := s.workers[w].p;
            && (Count(Exec(c, s, Decide(w, busy)), p) > Bound(c)
                <==> busy && Count(s, p) == Bound(c) && p !in s.q.since)
            && (Count(s, p) >= 1 && p !in s.q.since ==> p in s.raced)
  {
    InitialInv(workers);
    RunInv(c, Initial(workers), steps);
    RunFair(c, Initial(workers), steps);
    var s := Run(c, Initial(workers), steps);
    TurnIs(s, w);
    assert Fair(c, FactsOf(s, s.workers[w].p));
    DecideMoves(c, s, Decide(w, busy));
    MovedExactly(c, FactsOf(s, s.workers[w].p), w, busy);
  }

  // The same of the facts about one provider.
  lemma MovedExactly(c: Params, f: Facts, w: nat, busy: bool)
    requires ParamsOk(c) && Fair(c, f) && f.turn.Some? && f.turn.value.Deciding?
    ensures Moved(c, f, Decide(w, busy)).n > Bound(c) <==> busy && f.n == Bound(c) && f.since.None?
    ensures f.n >= 1 && f.since.None? ==> f.raced
  {
    if f.since.Some? && f.turn.value.seen - f.since.value < c.maxDefer {
      CountBelow(f.n, Bound(c), c.deferInterval);
    }
  }

  lemma {:induction false} RunConcat(c: Params, s: System, first: seq<Step>, more: seq<Step>)
    ensures Run(c, s, first + more) == Run(c, Run(c, s, first), more)
    decreases |first|
  {
    if first == [] {
      assert first + more == more;
    } else {
      assert (first + more)[1..] == first[1..] + more;
      RunConcat(c, Exec(c, s, first[0]), first[1..], more);
    }
  }

  // One worker at rest, holding or waiting for the only provider.
  function Alone(ph: Phase, q: State, n: nat, raced: set<Provider>): System {
    System(q, [ph], map["p" := n], raced)
  }

  /** The extra deferral does happen: with a cap of one rest, a provider is put
      off twice in a row when a forced request lands between the second urgency
      check and its decision. */
  lemma RaceExceedsBound() returns (steps: seq<Step>)
    ensures var c := Params(100.0, 10.0, 1.0, 1.0, true);
            Bound(c) == 1 && Count(Run(c, Initial(1), steps), "p") == 2
  {
    var c := Params(100.0, 10.0, 1.0, 1.0, true);
    var first := FirstDeferral(c);
    var s := Run(c, Initial(1), first);
    var more := [Pop(0, 1.0), CheckEnabled(0, Open, 1.0), CheckUrgent(0, 1.0), Enqueue("p", true, Unknown),
        Decide(0, true)];
    steps := first + more;
    RunConcat(c, Initial(1), first, more);
    SecondDeferral(c, s);
  }

  // A first turn that ends in a deferral.
  lemma FirstDeferral(c: Params) returns (steps: seq<Step>)
    requires c == Params(100.0, 10.0, 1.0, 1.0, true)
    ensures Run(c, Initial(1), steps)
         == Alone(Idle(0.0), State(["p"], {"p"}, map["p" := 1.0], {}, {}, map["p" := 0.0]), 1, {})
  {
    steps := [Enqueue("p", false, Unknown), Pop(0, 0.0), CheckEnabled(0, Open, 0.0), CheckUrgent(0, 0.0),
              Decide(0, true), Requeue(0, 0.0), Release(0)];
    RunSeven(c, Initial(1), steps);
    FirstHalf(c);
    SecondHalf(c);
  }

  // The lone worker about to decide on the lone provider.
  function AboutToDecide(): System {
    System(State([], {}, map[], {"p"}, {}, map[]), [Deciding("p", 0.0)], map[], {})
  }

  lemma FirstHalf(c: Params)
    requires c == Params(100.0, 10.0, 1.0, 1.0, true)
    ensures Exec(c, Exec(c, Exec(c, Exec(c, Initial(1), Enqueue("p", false, Unknown)), Pop(0, 0.0)),
                         CheckEnabled(0, Open, 0.0)), CheckUrgent(0, 0.0)) == AboutToDecide()
  {
    var s1 := Exec(c, Initial(1), Enqueue("p", false, Unknown));
    assert s1 == System(State(["p"], {"p"}, map[], {}, {}, map[]), [Idle(0.0)], map[], {});
    var s2 := Exec(c, s1, Pop(0, 0.0));
    assert s2 == System(State([], {}, map[], {"p"}, {}, map[]), [Popped("p", 0.0)], map[], {});
  }

  lemma SecondHalf(c: Params)
    requires c == Params(100.0, 10.0, 1.0, 1.0, true)
    ensures Exec(c, Exec(c, Exec(c, AboutToDecide(), Decide(0, true)), Requeue(0, 0.0)), Release(0))
         == Alone(Idle(0.0), State(["p"], {"p"}, map["p" := 1.0], {}, {}, map["p" := 0.0]), 1, {})
  {
    var s5 := Exec(c, AboutToDecide(), Decide(0, true));
    assert s5 == Alone(ToRequeue("p", 0.0), State([], {}, map[], {"p"}, {}, map["p" := 0.0]), 1, {});
    var s6 := Exec(c, s5, Requeue(0, 0.0));
    var q6 := State(["p"], {"p"}, map["p" := 1.0], {"p"}, {}, map["p" := 0.0]);
    assert s6 == Alone(Releasing("p", 0.0, Deferred), q6, 1, {});
  }

  lemma RunSeven(c: Params, s: System, t: seq<Step>)
    requires |t| == 7
    ensures Run(c, s, t)
         == Exec(c, Exec(c, Exec(c, Exec(c, Exec(c, Exec(c, Exec(c, s, t[0]), t[1]), t[2]), t[3]), t[4]), t[5]), t[6])
  {
    RunTwo(c, s, t);
    RunTwo(c, Exec(c, Exec(c, s, t[0]), t[1]), t[2..]);
    RunTwo(c, Exec(c, Exec(c, Exec(c, Exec(c, s, t[0]), t[1]), t[2]), t[3]), t[2..][2..]);
    assert t[2..][2..][2..] == [t[6]];
  }

  lemma RunTwo(c: Params, s: System, t: seq<Step>)
    requires |t| >= 2
    ensures Run(c, s, t) == Run(c, Exec(c, Exec(c, s, t[0]), t[1]), t[2..])
  {
    assert t[1..][1..] == t[2..];
  }

  lemma SecondDeferral(c: Params, s: System)
    requires c == Params(100.0, 10.0, 1.0, 1.0, true)
    requires s == Alone(Idle(0.0), State(["p"], {"p"}, map["p" := 1.0], {}, {}, map["p" := 0.0]), 1, {})
    ensures Count(Run(c, s, [Pop(0, 1.0), CheckEnabled(0, Open, 1.0), CheckUrgent(0, 1.0), Enqueue("p", true, Unknown),
        Decide(0, true)]), "p") == 2
  {
    var s1 := Exec(c, s, Pop(0, 1.0));
    assert s1 == Alone(Popped("p", 1.0), State([], {}, map["p" := 1.0], {"p"}, {}, map["p" := 0.0]), 1, {});
    var s2 := Exec(c, s1, CheckEnabled(0, Open, 1.0));
    assert s2 == Alone(Ready("p", 1.0), s1.q, 1, {});
    var s3 := Exec(c, s2, CheckUrgent(0, 1.0));
    assert s3 == Alone(Deciding("p", 1.0), s1.q, 1, {});
    var s4 := Exec(c, s3, Enqueue("p", true, Unknown));
    assert s4.workers == s3.workers && s4.count == s3.count && "p" !in s4.q.since;
    var s5 := Exec(c, s4, Decide(0, true));
    assert Count(s5, "p") == 2;
  }
}
