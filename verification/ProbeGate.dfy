/** Who may probe: threads race for one slot, automatic probes yield to real
    requests and keep their distance. Each step is one lock region. */
module ProbeGate {
  import opened Options
  type Thread = nat
  type Key = string

  /** A thread has claimed the slot and will compare generations, is running
      its probe, or is about to release the slot without having probed. */
  datatype Phase = Claimed(key: Key, generation: nat) | Probing(key: Key) | Refused(key: Key)

  datatype State = State(active: Option<Key>, lastFinished: real, generation: nat, threads: map<Thread, Phase>)

  datatype Step =
    | RealRequest
    | ClaimAuto(t: Thread, key: Key, recentSuccess: bool, now: real)
    | Compare(t: Thread)
    | ClaimManual(t: Thread, key: Key)
    | Finish(t: Thread, now: real)

  const INITIAL := State(None, 0.0, 0, map[])

  // run_auto's first lock region lets the probe through.
  predicate Admits(minInterval: real, s: State, recentSuccess: bool, now: real) {
    !recentSuccess && s.active.None? && (s.lastFinished == 0.0 || now - s.lastFinished >= minInterval)
  }

  predicate Enabled(s: State, step: Step) {
    match step
    case RealRequest => true
    case ClaimAuto(t, _, _, _) => t !in s.threads
    case Compare(t) => t in s.threads && s.threads[t].Claimed?
    case ClaimManual(t, _) => t !in s.threads && s.active.None?
    case Finish(t, _) => t in s.threads && !s.threads[t].Claimed?
  }

  function Next(minInterval: real, s: State, step: Step): State
    requires Enabled(s, step)
  {
    match step
    case RealRequest => s.(generation := s.generation + 1)
    case ClaimAuto(t, key, recentSuccess, now) =>
      if Admits(minInterval, s, recentSuccess, now)
      then s.(active := Some(key), threads := s.threads[t := Claimed(key, s.generation)])
      else s
    case Compare(t) =>
      var key := s.threads[t].key;
      s.(threads := s.threads[t := if s.threads[t].generation != s.generation then Refused(key) else Probing(key)])
    case ClaimManual(t, key) => s.(active := Some(key), threads := s.threads[t := Probing(key)])
    case Finish(t, now) =>
      s.(active := if s.active == Some(s.threads[t].key) then None else s.active,
         lastFinished := now, threads := s.threads - {t})
  }

  function Run(minInterval: real, steps: seq<Step>): Option<State> {
    if steps == [] then Some(INITIAL) else
    var before := Run(minInterval, steps[..|steps| - 1]);
    if before.Some? && Enabled(before.value, steps[|steps| - 1])
    then Some(Next(minInterval, before.value, steps[|steps| - 1]))
    else None
  }

  /** The slot is taken exactly while one thread holds it, under its key. */
  predicate OneHolder(s: State) {
    && (forall t, u :: t in s.threads && u in s.threads ==> t == u)
    && (forall t :: t in s.threads ==> s.active == Some(s.threads[t].key))
    && (s.active.Some? ==> s.threads != map[])
  }

  lemma {:induction false} StepOneHolder(minInterval: real, s: State, step: Step)
    requires OneHolder(s) && Enabled(s, step)
    ensures OneHolder(Next(minInterval, s, step))
  {
    var s' := Next(minInterval, s, step);
    match step
    case RealRequest =>
    case ClaimAuto(t, key, recentSuccess, now) =>
      if Admits(minInterval, s, recentSuccess, now) { assert t in s'.threads; }
    case Compare(t) => assert t in s'.threads;
    case ClaimManual(t, key) => assert t in s'.threads;
    case Finish(t, now) =>
  }

  /** Under every interleaving at most one thread holds the slot, so at most one
      probe runs at a time, and the slot is free when nobody holds it. */
  lemma {:induction false} AtMostOneProbe(minInterval: real, steps: seq<Step>)
    requires Run(minInterval, steps).Some?
    ensures OneHolder(Run(minInterval, steps).value)
  {
    if steps != [] {
      AtMostOneProbe(minInterval, steps[..|steps| - 1]);
      StepOneHolder(minInterval, Run(minInterval, steps[..|steps| - 1]).value, steps[|steps| - 1]);
    }
  }

  /** Whoever holds the slot can always give it back, in two steps at most, and
      then a manual probe may start. */
  lemma {:induction false} SlotComesFree(minInterval: real, steps: seq<Step>, now: real, u: Thread, key: Key)
    returns (more: seq<Step>)
    requires Run(minInterval, steps).Some?
    ensures |more| <= 2 && Run(minInterval, steps + more).Some?
    ensures Enabled(Run(minInterval, steps + more).value, ClaimManual(u, key))
  {
    var s := Run(minInterval, steps).value;
    AtMostOneProbe(minInterval, steps);
    if t :| t in s.threads {
      if s.threads[t].Claimed? {
        more := [Compare(t), Finish(t, now)];
        RunSnoc(minInterval, steps, Compare(t));
        RunSnoc(minInterval, steps + [Compare(t)], Finish(t, now));
        assert steps + more == (steps + [Compare(t)]) + [Finish(t, now)];
      } else {
        more := [Finish(t, now)];
        RunSnoc(minInterval, steps, Finish(t, now));
      }
      AtMostOneProbe(minInterval, steps + more);
    } else {
      more := [];
      assert steps + more == steps;
    }
  }

  lemma RunSnoc(minInterval: real, steps: seq<Step>, step: Step)
    requires Run(minInterval, steps).Some? && Enabled(Run(minInterval, steps).value, step)
    ensures Run(minInterval, steps + [step]) == Some(Next(minInterval, Run(minInterval, steps).value, step))
  {
    assert (steps + [step])[..|steps|] == steps;
  }

  // ------------------------------------------------------- keeping the distance

  predicate Timed(step: Step) {
    step.ClaimAuto? || step.Finish?
  }

  // The clock does not go back from one reading to the next.
  predicate Steady(steps: seq<Step>) {
    forall i, j :: 0 <= i < j < |steps| && Timed(steps[i]) && Timed(steps[j]) ==> steps[i].now <= steps[j].now
  }

  // When each probe of a run finished.
  function Finishes(steps: seq<Step>): seq<real> {
    if steps == [] then [] else
    var front, last := Finishes(steps[..|steps| - 1]), steps[|steps| - 1];
    if last.Finish? then front + [last.now] else front
  }

  // No earlier probe finished less than an interval before.
  predicate Apart(minInterval: real, finishes: seq<real>, now: real) {
    forall f :: f in finishes ==> now - f >= minInterval
  }

  lemma {:induction false} FinishesBefore(steps: seq<Step>, now: real)
    requires forall i :: 0 <= i < |steps| && Timed(steps[i]) ==> steps[i].now <= now
    ensures forall f :: f in Finishes(steps) ==> f <= now
  {
    if steps != [] { FinishesBefore(steps[..|steps| - 1], now); }
  }

  // The gate remembers the last finish, which is the latest.
  lemma {:induction false} LastFinish(minInterval: real, steps: seq<Step>)
    requires Run(minInterval, steps).Some? && Steady(steps)
    ensures var fs, last := Finishes(steps), Run(minInterval, steps).value.lastFinished;
            if fs == [] then last == 0.0 else last == fs[|fs| - 1] && forall f :: f in fs ==> f <= last
  {
    if steps != [] {
      var front, last := steps[..|steps| - 1], steps[|steps| - 1];
      LastFinish(minInterval, front);
      if last.Finish? { FinishesBefore(front, last.now); }
    }
  }

  /** In every run, an automatic claim takes the slot if and only if there was no
      recent success, nobody holds the slot, and every probe that ever finished
      did so a full interval ago.  (A last finish at clock reading 0 exactly
      reads as none.) */
  lemma {:induction false} AutoProbeWaited(minInterval: real, steps: seq<Step>, claim: Step)
    requires Run(minInterval, steps).Some? && Steady(steps)
    requires claim.ClaimAuto? && Enabled(Run(minInterval, steps).value, claim)
    ensures var s, fs := Run(minInterval, steps).value, Finishes(steps);
            claim.t in Next(minInterval, s, claim).threads
            <==> !claim.recentSuccess && s.threads == map[]
                 && (Apart(minInterval, fs, claim.now) || fs[|fs| - 1] == 0.0)
  {
    AtMostOneProbe(minInterval, steps);
    LastFinish(minInterval, steps);
    var s, fs := Run(minInterval, steps).value, Finishes(steps);
    FreeExactly(s);
    if fs != [] { assert fs[|fs| - 1] in fs; }
  }

  lemma FreeExactly(s: State)
    requires OneHolder(s)
    ensures s.active.None? <==> s.threads == map[]
  {
    if s.threads != map[] { var t :| t in s.threads; }
  }

  /** The claimed probe runs if and only if no real request arrives before its
      comparison, whatever other threads do in between. */
  lemma {:induction false} AutoProbeYields(minInterval: real, s: State, claim: Step, between: seq<Step>)
    requires claim.ClaimAuto? && Enabled(s, claim) && claim.t in Next(minInterval, s, claim).threads
    requires Within(minInterval, Next(minInterval, s, claim), claim.t, between)
    ensures var u := Ran(minInterval, Next(minInterval, s, claim), claim.t, between);
            Next(minInterval, u, Compare(claim.t)).threads[claim.t].Probing? <==> RealRequest !in between
  {
    CountsRequests(minInterval, Next(minInterval, s, claim), claim.t, between);
  }

  // Steps of other threads while t is between its claim and its comparison.
  predicate Within(minInterval: real, s: State, t: Thread, steps: seq<Step>)
    decreases |steps|
  {
    t in s.threads && s.threads[t].Claimed? &&
    (steps == [] || (Enabled(s, steps[0]) && !(steps[0].Compare? && steps[0].t == t) &&
                     Within(minInterval, Next(minInterval, s, steps[0]), t, steps[1..])))
  }

  function Ran(minInterval: real, s: State, t: Thread, steps: seq<Step>): (u: State)
    requires Within(minInterval, s, t, steps)
    ensures t in u.threads && u.threads[t].Claimed?
    decreases |steps|
  {
    if steps == [] then s else Ran(minInterval, Next(minInterval, s, steps[0]), t, steps[1..])
  }

  lemma {:induction false} CountsRequests(minInterval: real, s: State, t: Thread, steps: seq<Step>)
    requires Within(minInterval, s, t, steps)
    ensures var u := Ran(minInterval, s, t, steps);
            u.threads[t] == s.threads[t] && u.generation >= s.generation
            && (u.generation == s.generation <==> RealRequest !in steps)
    decreases |steps|
  {
    if steps != [] {
      assert steps == [steps[0]] + steps[1..];
      CountsRequests(minInterval, Next(minInterval, s, steps[0]), t, steps[1..]);
    }
  }
}
