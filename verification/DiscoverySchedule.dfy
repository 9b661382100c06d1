/** When a provider's discovery is due, and which turns may be put off at all. */
module DiscoverySchedule {
  import opened Options
  import opened ModelDiscoveryQueue
  import opened DiscoveryWorkers

  // When a stored snapshot asks for the next fetch.
  predicate DueBy(c: Params, snap: Snapshot, now: real) {
    match snap
    case OkAt(at) => at <= 0.0 || now - at >= c.okTtl
    case ErrorAt(at) => at <= 0.0 || now - at >= c.retry
    case Unknown => true
  }

  /** An ordinary request for a provider nobody has scheduled puts it at the end
      of the queue, where it comes due a time-to-live after its last success, or
      a retry interval after its last error, or at once when it has neither. */
  lemma OfferedDue(c: Params, s: State, p: Provider, snap: Snapshot, now: real)
    requires p != "" && p !in s.queued && p !in s.eligible && p !in s.active && now >= 0.0
    ensures var s' := Enqueued(c, s, p, false, snap);
      && s'.queue == s.queue + [p] && s'.queued == s.queued + {p}
      && (Due(s', |s.queue|, now) <==> DueBy(c, snap, now))
      && s'.active == s.active && s'.urgent == s.urgent && s'.since == s.since
      && (forall x :: x != p ==> EligibleAt(s', x) == EligibleAt(s, x))
  {
  }

  /** An ordinary request for a provider that is scheduled or queued already
      moves neither its due time nor its place. */
  lemma OfferedAgain(c: Params, s: State, p: Provider, snap: Snapshot)
    requires p in s.eligible
    ensures var s' := Enqueued(c, s, p, false, snap);
      && EligibleAt(s', p) == s.eligible[p]
      && s'.queue == if p == "" || p in s.queued then s.queue else s.queue + [p]
  {
  }

  /** After a fetch the provider rests: for its time to live if it succeeded, for
      a retry interval if it failed; only a failed one is queued again. */
  lemma FetchedRests(c: Params, s: System, w: nat, ok: bool, now: real, x: Provider)
    requires w < |s.workers| && s.workers[w].Fetching? && now >= s.workers[w].seen
    ensures var s', p := Exec(c, s, Finish(w, ok, now)), s.workers[w].p;
      && EligibleAt(s'.q, p) - now == (if ok then c.okTtl else c.retry)
      && (x != p ==> EligibleAt(s'.q, x) == EligibleAt(s.q, x))
      && s'.q.queue == (if ok || p in s.q.queued then s.q.queue else s.q.queue + [p])
  {
  }

  /** A provider found disabled leaves its turn without a new due time; one whose
      check fails is tried again after a retry interval. */
  lemma GateRests(c: Params, s: System, w: nat, gate: Gate, now: real)
    requires w < |s.workers| && s.workers[w].Popped? && now >= s.workers[w].seen
    ensures var s', p := Exec(c, s, CheckEnabled(w, gate, now)), s.workers[w].p;
      && (gate == Shut ==> s'.q == s.q && s'.workers[w] == Releasing(p, now, Done))
      && (gate == Open ==> s'.q == s.q && s'.workers[w] == Ready(p, now))
      && (gate == Broken ==> EligibleAt(s'.q, p) - now == c.retry && p in s'.q.queued
                             && s'.workers[w] == Releasing(p, now, Failed))
  {
  }

  /** A turn may be put off only with the polite mode on, a cap above zero and no
      forced request; and then the network decides: an idle one never puts off,
      a busy one does until the provider has waited for the cap. */
  lemma TurnDecided(c: Params, s: System, w: nat, busy: bool, now: real)
    requires w < |s.workers| && now >= s.workers[w].seen
    ensures s.workers[w].Ready? ==>
      (Exec(c, s, CheckUrgent(w, now)).workers[w].Deciding? <==>
         c.polite && c.maxDefer > 0.0 && s.workers[w].p !in s.q.urgent)
      && (Exec(c, s, CheckUrgent(w, now)).workers[w].Fetching? <==>
         !c.polite || c.maxDefer <= 0.0 || s.workers[w].p in s.q.urgent)
    ensures s.workers[w].Deciding? ==>
      var p := s.workers[w].p;
      var waited := if p in s.q.since then s.workers[w].seen - s.q.since[p] else 0.0;
      (Exec(c, s, Decide(w, busy)).workers[w].ToRequeue? <==> busy && (p !in s.q.since || waited < c.maxDefer))
      && (Exec(c, s, Decide(w, busy)).workers[w].Fetching? <==> !busy || (p in s.q.since && waited >= c.maxDefer))
  {
  }

  // Nobody is deciding, put off, or ever was.
  ghost predicate NeverPutOff(s: System) {
    && (forall w :: 0 <= w < |s.workers| ==> !s.workers[w].Deciding? && !s.workers[w].ToRequeue?)
    && (forall p :: p in s.count ==> s.count[p] == 0)
  }

  lemma StepNeverPutsOff(c: Params, s: System, step: Step)
    requires NeverPutOff(s) && (!c.polite || c.maxDefer <= 0.0)
    ensures NeverPutOff(Exec(c, s, step))
  {
    var s' := Exec(c, s, step);
    if step.Enqueue? || step.w >= |s.workers| {
      assert s'.workers == s.workers && s'.count == s.count;
    } else {
      assert s'.workers == s.workers[step.w := s'.workers[step.w]];
      assert !s'.workers[step.w].Deciding? && !s'.workers[step.w].ToRequeue?;
    }
  }

  /** With the polite mode off, or a cap of zero, no provider is ever put off. */
  lemma {:induction false} ImpoliteNeverDefers(c: Params, workers: nat, steps: seq<Step>, p: Provider)
    requires !c.polite || c.maxDefer <= 0.0
    ensures Count(Run(c, Initial(workers), steps), p) == 0
  {
    RunNeverPutsOff(c, Initial(workers), steps);
  }

  lemma {:induction false} RunNeverPutsOff(c: Params, s: System, steps: seq<Step>)
    requires NeverPutOff(s) && (!c.polite || c.maxDefer <= 0.0)
    ensures NeverPutOff(Run(c, s, steps))
    decreases |steps|
  {
    if steps != [] {
      StepNeverPutsOff(c, s, steps[0]);
      RunNeverPutsOff(c, Exec(c, s, steps[0]), steps[1..]);
    }
  }
}
