/** Any number of workers and callers on one discovery queue.  Every lock region
    and every unlocked read of shared state is one step; all interleavings of
    those steps are runs.  Each worker's own clock readings do not go back, and
    nothing relates the readings of different workers. */
module DiscoveryWorkers {
  import opened ModelDiscoveryQueue

  datatype Status = Deferred | Failed | Done

  // Where a worker is in its turn; `seen` is its latest clock reading.
  datatype Phase =
    | Idle(seen: real)
    | Popped(p: Provider, seen: real)
    | Ready(p: Provider, seen: real)
    | Deciding(p: Provider, seen: real)
    | ToRequeue(p: Provider, seen: real)
    | Fetching(p: Provider, seen: real)
    | Releasing(p: Provider, seen: real, status: Status)

  datatype Gate = Open | Shut | Broken

  datatype Step =
    | Enqueue(p: Provider, force: bool, snap: Snapshot)
    | Pop(w: nat, now: real)
    | CheckEnabled(w: nat, gate: Gate, now: real)
    | CheckUrgent(w: nat, now: real)
    | Decide(w: nat, busy: bool)
    | Requeue(w: nat, now: real)
    | Finish(w: nat, ok: bool, now: real)
    | Release(w: nat)

  // count: deferrals of a provider since its last turn that was not a deferral.
  // raced: since then, a forced request fell between a worker's urgency check
  // and its decision.
  datatype System = System(q: State, workers: seq<Phase>, count: map<Provider, nat>, raced: set<Provider>)

  predicate Holds(ph: Phase, p: Provider) {
    !ph.Idle? && ph.p == p
  }

  function Count(s: System, p: Provider): nat {
    if p in s.count then s.count[p] else 0
  }

  function DueIndex(q: State, now: real, i: nat): (r: nat)
    requires i <= |q.queue|
    ensures i <= r <= |q.queue|
    ensures r < |q.queue| ==> Due(q, r, now)
    ensures forall j :: i <= j < r ==> !Due(q, j, now)
    decreases |q.queue| - i
  {
    if i == |q.queue| || Due(q, i, now) then i else DueIndex(q, now, i + 1)
  }

  function Set(s: System, w: nat, ph: Phase): System
    requires w < |s.workers|
  {
    s.(workers := s.workers[w := ph])
  }

  predicate RacesIn(s: System, p: Provider) {
    exists w :: 0 <= w < |s.workers| && s.workers[w].Deciding? && s.workers[w].p == p
  }

  function Enqueueing(c: Params, s: System, p: Provider, force: bool, snap: Snapshot): System {
    s.(q := Enqueued(c, s.q, p, force, snap),
       raced := if p != "" && force && RacesIn(s, p) then s.raced + {p} else s.raced)
  }

  function Popping(s: System, w: nat, now: real): System
    requires w < |s.workers|
  {
    var i := DueIndex(s.q, now, 0);
    if i == |s.q.queue| then Set(s, w, Idle(now))
    else Set(s, w, Popped(s.q.queue[i], now)).(q := Taken(s.q, i))
  }

  function Failing(c: Params, s: System, w: nat, p: Provider, now: real): System
    requires w < |s.workers|
  {
    Set(s, w, Releasing(p, now, Failed)).(q := Rescheduled(s.q, p, now + c.retry))
  }

  function Checking(c: Params, s: System, w: nat, p: Provider, now: real): System
    requires w < |s.workers|
  {
    if !c.polite || c.maxDefer <= 0.0 || p in s.q.urgent then Set(s, w, Fetching(p, now))
    else Set(s, w, Deciding(p, now))
  }

  function Settling(c: Params, s: System, w: nat, p: Provider, busy: bool, now: real): System
    requires w < |s.workers|
  {
    var s' := s.(q := Decided(c, s.q, p, busy, now));
    if Defers(c, s.q, p, busy, now) then
      Set(s', w, ToRequeue(p, now)).(count := s.count[p := Count(s, p) + 1])
    else Set(s', w, Fetching(p, now))
  }

  function Ending(s: System, w: nat, ph: Phase): System
    requires w < |s.workers| && ph.Releasing?
  {
    var s' := Set(s, w, Idle(ph.seen)).(q := Released(s.q, ph.p, ph.status.Deferred?));
    if ph.status.Deferred? then s' else s'.(count := s.count[ph.p := 0], raced := s.raced - {ph.p})
  }

  // One step; a step its worker is not ready for leaves the system alone.
  function Exec(c: Params, s: System, step: Step): System {
    if step.Enqueue? then Enqueueing(c, s, step.p, step.force, step.snap)
    else if step.w >= |s.workers| then s
    else
      var w, ph := step.w, s.workers[step.w];
      match step
      case Pop(_, now) => if ph.Idle? && now >= ph.seen then Popping(s, w, now) else s
      case CheckEnabled(_, gate, now) =>
        if !ph.Popped? || now < ph.seen then s
        else if gate.Open? then Set(s, w, Ready(ph.p, now))
        else if gate.Shut? then Set(s, w, Releasing(ph.p, now, Done))
        else Failing(c, s, w, ph.p, now)
      case CheckUrgent(_, now) => if ph.Ready? && now >= ph.seen then Checking(c, s, w, ph.p, now) else s
      case Decide(_, busy) => if ph.Deciding? then Settling(c, s, w, ph.p, busy, ph.seen) else s
      case Requeue(_, now) =>
        if ph.ToRequeue? && now >= ph.seen then
          Set(s, w, Releasing(ph.p, now, Deferred)).(q := Rescheduled(s.q, ph.p, now + c.deferInterval))
        else s
      case Finish(_, ok, now) =>
        if !ph.Fetching? || now < ph.seen then s
        else if ok then
          Set(s, w, Releasing(ph.p, now, Done)).(q := s.q.(eligible := s.q.eligible[ph.p := now + c.okTtl]))
        else Failing(c, s, w, ph.p, now)
      case Release(_) => if ph.Releasing? then Ending(s, w, ph) else s
  }

  function Run(c: Params, s: System, steps: seq<Step>): System
    decreases |steps|
  {
    if steps == [] then s else Run(c, Exec(c, s, steps[0]), steps[1..])
  }

  function Initial(workers: nat): System {
    System(State([], {}, map[], {}, {}, map[]), seq(workers, i => Idle(0.0)), map[], {})
  }

  // ------------------------------------------------------ queue and ownership

  /** The queue is duplicate-free and equals the membership set; the active set
      is exactly what the workers hold, each provider in one pair of hands; and
      a turn that ended in a failure or a deferral has its provider queued. */
  ghost predicate Inv(s: System) {
    && QueueOk(s.q)
    && (forall p :: p in s.q.active <==> exists w :: 0 <= w < |s.workers| && Holds(s.workers[w], p))
    && (forall v, w :: 0 <= v < w < |s.workers| && !s.workers[v].Idle? && !s.workers[w].Idle? ==>
          s.workers[v].p != s.workers[w].p)
    && (forall w :: 0 <= w < |s.workers| && s.workers[w].Releasing? && !s.workers[w].status.Done? ==>
          s.workers[w].p in s.q.queued)
  }

  // A step that keeps every worker's provider and only grows the queue.
  lemma KeepsInv(s: System, s': System, w: nat)
    requires Inv(s) && w < |s.workers| == |s'.workers| && s'.workers == s.workers[w := s'.workers[w]]
    requires !s.workers[w].Idle? && Holds(s'.workers[w], s.workers[w].p)
    requires QueueOk(s'.q) && s'.q.active == s.q.active && s.q.queued <= s'.q.queued
    requires s'.workers[w].Releasing? && !s'.workers[w].status.Done? ==> s'.workers[w].p in s'.q.queued
    ensures Inv(s')
  {
    forall p ensures p in s'.q.active <==> exists v :: 0 <= v < |s'.workers| && Holds(s'.workers[v], p) {
      if p in s'.q.active {
        var v :| 0 <= v < |s.workers| && Holds(s.workers[v], p);
        assert Holds(s'.workers[v], p);
      }
      if v :| 0 <= v < |s'.workers| && Holds(s'.workers[v], p) {
        assert Holds(s.workers[v], p);
      }
    }
  }

  lemma EnqueueInv(c: Params, s: System, p: Provider, force: bool, snap: Snapshot)
    requires Inv(s)
    ensures Inv(Enqueueing(c, s, p, force, snap))
  {
    var s' := Enqueueing(c, s, p, force, snap);
    assert QueueOk(s'.q);
  }

  lemma PopInv(s: System, w: nat, now: real)
    requires Inv(s) && w < |s.workers| && s.workers[w].Idle?
    ensures Inv(Popping(s, w, now))
  {
    var i, s' := DueIndex(s.q, now, 0), Popping(s, w, now);
    if i < |s.q.queue| {
      TakenOk(s.q, i);
      assert Holds(s'.workers[w], s.q.queue[i]);
    }
    forall p ensures p in s'.q.active <==> exists v :: 0 <= v < |s'.workers| && Holds(s'.workers[v], p) {
      if p in s.q.active {
        var v :| 0 <= v < |s.workers| && Holds(s.workers[v], p);
        assert Holds(s'.workers[v], p);
      }
    }
  }

  lemma EndInv(s: System, w: nat)
    requires Inv(s) && w < |s.workers| && s.workers[w].Releasing?
    ensures Inv(Ending(s, w, s.workers[w]))
  {
    var s' := Ending(s, w, s.workers[w]);
    forall p ensures p in s'.q.active <==> exists v :: 0 <= v < |s'.workers| && Holds(s'.workers[v], p) {
      if p in s'.q.active {
        var v :| 0 <= v < |s.workers| && Holds(s.workers[v], p);
        assert Holds(s'.workers[v], p);
      }
    }
  }

  lemma StepInv(c: Params, s: System, step: Step)
    requires Inv(s)
    ensures Inv(Exec(c, s, step))
  {
    var s' := Exec(c, s, step);
    if step.Enqueue? {
      EnqueueInv(c, s, step.p, step.force, step.snap);
    } else if step.w < |s.workers| && s' != s {
      var ph := s.workers[step.w];
      if step.Pop? {
        PopInv(s, step.w, step.now);
      } else if step.Release? {
        EndInv(s, step.w);
      } else {
        TurnInv(c, s, step);
      }
    }
  }

  // A step in the middle of a turn.
  lemma TurnInv(c: Params, s: System, step: Step)
    requires Inv(s) && !step.Enqueue? && !step.Pop? && !step.Release?
    requires step.w < |s.workers| && Exec(c, s, step) != s
    ensures Inv(Exec(c, s, step))
  {
    if step.CheckEnabled? || step.Finish? {
      OutcomeInv(c, s, step);
    } else {
      KeepsInv(s, Exec(c, s, step), step.w);
    }
  }

  lemma OutcomeInv(c: Params, s: System, step: Step)
    requires Inv(s) && (step.CheckEnabled? || step.Finish?)
    requires step.w < |s.workers| && Exec(c, s, step) != s
    ensures Inv(Exec(c, s, step))
  {
    var s', ph := Exec(c, s, step), s.workers[step.w];
    if s' == Failing(c, s, step.w, ph.p, step.now) {
      assert QueueOk(Rescheduled(s.q, ph.p, step.now + c.retry));
      KeepsInv(s, s', step.w);
    } else {
      KeepsInv(s, s', step.w);
    }
  }

  /** Ownership and membership hold in every state of every run. */
  lemma {:induction false} RunInv(c: Params, s: System, steps: seq<Step>)
    requires Inv(s)
    ensures Inv(Run(c, s, steps))
    decreases |steps|
  {
    if steps != [] {
      StepInv(c, s, steps[0]);
      RunInv(c, Exec(c, s, steps[0]), steps[1..]);
    }
  }

  lemma InitialInv(workers: nat)
    ensures Inv(Initial(workers))
  {
  }

  /** A provider whose fetch failed or was put off is queued, and free for any
      worker, once its worker lets go of it. */
  lemma ReleasedToQueue(c: Params, workers: nat, steps: seq<Step>, w: nat)
    requires w < workers
    requires var ph := Run(c, Initial(workers), steps).workers;
             w < |ph| && ph[w].Releasing? && !ph[w].status.Done?
    ensures var s := Run(c, Initial(workers), steps);
            var s' := Exec(c, s, Release(w));
            s.workers[w].p in s'.q.queue && s.workers[w].p !in s'.q.active && s'.workers[w].Idle?
  {
    InitialInv(workers);
    RunInv(c, Initial(workers), steps);
  }

  /** A forced request for a provider nobody holds is served next: the next pop
      of any idle worker takes it, whatever its cooldown was. */
  lemma ForcedIsNext(c: Params, s: System, p: Provider, snap: Snapshot, w: nat, now: real)
    requires p != "" && p !in s.q.active && w < |s.workers|
    requires s.workers[w].Idle? && now >= s.workers[w].seen && now >= 0.0
    ensures var s' := Exec(c, Exec(c, s, Enqueue(p, true, snap)), Pop(w, now));
            s'.workers[w] == Popped(p, now) && p in s'.q.active && p in s'.q.urgent && p !in s'.q.since
  {
    var forced := Exec(c, s, Enqueue(p, true, snap));
    assert forced.q.queue[0] == p && Due(forced.q, 0, now);
  }
}
