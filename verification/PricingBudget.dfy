/** How often an admitted key is fetched, and how often it is put off. */
module PricingBudget {
  import opened Options
  import opened Ceilings
  import opened PricingResolver
  import opened PricingWorker

  /** The bookkeeping of one key. */
  datatype Facts = Facts(fetches: nat, deferrals: nat, since: Option<real>)

  function FactsOf(s: System, k: Key): Facts {
    Facts(At(s.fetches, k), At(s.deferrals, k),
          if k in s.p.deferredSince then Some(s.p.deferredSince[k]) else None)
  }

  /** ceil(maxDefer / interval), but a first deferral is always allowed. */
  function Limit(c: Params): nat
    requires ParamsOk(c)
  {
    var n := Fits(c.maxDefer, c.interval);
    if n == 0 then 1 else n
  }

  predicate Fresh(f: Facts) {
    f == Facts(0, 0, None)
  }

  // Not put off since the last fetch, or put off n times and rested since.
  predicate Rested(c: Params, f: Facts, t: real) {
    if f.since.None? then f.deferrals == 0
    else f.deferrals >= 1 && f.since.value + f.deferrals as real * c.interval <= t
  }

  predicate Tried(c: Params, f: Facts, job: Job)
    requires ParamsOk(c)
  {
    f.fetches == job.retry <= c.maxRetries && f.deferrals <= Limit(c)
  }

  predicate Waits(c: Params, f: Facts, e: Entry)
    requires ParamsOk(c)
  {
    Tried(c, f, e.job) && Rested(c, f, e.due)
  }

  predicate Held(c: Params, f: Facts, w: Worker, now: real)
    requires ParamsOk(c)
  {
    match w
    case Looking => true
    case Waiting => true
    case Deciding(job) => Tried(c, f, job) && Rested(c, f, now)
    case Deferring(job) => Tried(c, f, job) && f.since.Some? && f.deferrals >= 1
                           && f.since.value + (f.deferrals - 1) as real * c.interval <= now
    case Fetching(job) => Tried(c, f, job) && f.since.None? && f.deferrals == 0
  }

  function KeyOf(w: Worker): Key {
    if w.Looking? || w.Waiting? then Key("", "") else w.job.key
  }

  /** Every job carries the number of its fetches, and a key put off n times
      has rested n intervals before it is looked at again. */
  ghost predicate Budgeted(c: Params, s: System)
    requires ParamsOk(c)
  {
    && (forall k :: k in s.entering || k in s.turnedAway ==> Fresh(FactsOf(s, k)))
    && (forall job :: job in s.p.queue ==> Fresh(FactsOf(s, job.key)) && job.retry == 0)
    && (forall e :: e in s.p.heap ==> Waits(c, FactsOf(s, e.job.key), e))
    && Held(c, FactsOf(s, KeyOf(s.worker)), s.worker, s.now)
  }

  // What holds of every key that was ever admitted.
  ghost predicate Within(c: Params, s: System)
    requires ParamsOk(c)
  {
    && (forall k :: k in s.p.deferredSince ==> k in s.p.queued)
    && (!c.polite ==> s.p.deferredSince == map[])
    && (forall k :: At(s.fetches, k) <= c.maxRetries + 1 && At(s.deferrals, k) <= Limit(c))
  }

  // ----------------------------------------------------- jobs of other keys

  lemma {:induction false} NotInQueue(queue: seq<Job>, k: Key)
    requires InQueue(queue, k) == 0
    ensures forall job :: job in queue ==> job.key != k
  {
    if queue != [] { NotInQueue(queue[..|queue| - 1], k); }
  }

  lemma {:induction false} NotInHeap(heap: seq<Entry>, k: Key)
    requires InHeap(heap, k) == 0
    ensures forall e :: e in heap ==> e.job.key != k
  {
    if heap != [] { NotInHeap(heap[..|heap| - 1], k); }
  }

  // The worker holds the only job of its key.
  lemma HeldAlone(s: System, k: Key)
    requires PlacedAt(s, k) && Holds(s.worker, k)
    ensures k in s.p.queued && k !in s.p.resolved && k !in s.entering && k !in s.turnedAway
    ensures forall job :: job in s.p.queue ==> job.key != k
    ensures forall e :: e in s.p.heap ==> e.job.key != k
  {
    NotInQueue(s.p.queue, k);
    NotInHeap(s.p.heap, k);
  }

  // A key that is not pending has no job.
  lemma NewAlone(s: System, k: Key)
    requires PlacedAt(s, k) && k !in s.p.queued
    ensures k !in s.entering && k !in s.turnedAway && !Holds(s.worker, k)
    ensures forall job :: job in s.p.queue ==> job.key != k
    ensures forall e :: e in s.p.heap ==> e.job.key != k
  {
    NotInQueue(s.p.queue, k);
    NotInHeap(s.p.heap, k);
  }

  // ------------------------------------------------------------------- steps

  lemma TickBudgeted(c: Params, s: System, at: real)
    requires ParamsOk(c) && Budgeted(c, s) && Within(c, s)
    ensures Budgeted(c, Ticked(s, at)) && Within(c, Ticked(s, at))
  {
  }

  // The facts of every key but k stay.
  ghost predicate OnlyMoves(s: System, t: System, k: Key) {
    forall j :: j != k ==> FactsOf(t, j) == FactsOf(s, j)
  }

  /** A key without jobs can change its facts freely. */
  lemma OthersKeep(c: Params, s: System, t: System, k: Key)
    requires ParamsOk(c) && OnlyMoves(s, t, k)
    requires forall job :: job in s.p.queue ==> Fresh(FactsOf(s, job.key)) && job.retry == 0 && job.key != k
    requires forall e :: e in s.p.heap ==> Waits(c, FactsOf(s, e.job.key), e) && e.job.key != k
    ensures forall job :: job in s.p.queue ==> Fresh(FactsOf(t, job.key))
    ensures forall e :: e in s.p.heap ==> Waits(c, FactsOf(t, e.job.key), e)
  {
  }

  lemma WithinKeeps(c: Params, s: System, t: System, k: Key)
    requires ParamsOk(c) && Within(c, s) && OnlyMoves(s, t, k)
    requires At(t.fetches, k) <= c.maxRetries + 1 && At(t.deferrals, k) <= Limit(c)
    requires forall j :: j in t.p.deferredSince ==> j in t.p.queued
    requires !c.polite ==> t.p.deferredSince == map[]
    ensures Within(c, t)
  {
    forall j ensures At(t.fetches, j) <= c.maxRetries + 1 && At(t.deferrals, j) <= Limit(c) {
      if j != k { assert FactsOf(t, j) == FactsOf(s, j); }
    }
  }

  lemma AdmitBudgeted(c: Params, s: System, k: Key)
    requires ParamsOk(c) && Budgeted(c, s) && Within(c, s) && PlacedAt(s, k) && Enabled(s, Admit(k))
    ensures Budgeted(c, Next(c, s, Admit(k))) && Within(c, Next(c, s, Admit(k)))
  {
    NewAlone(s, k);
    var t := Next(c, s, Admit(k));
    assert OnlyMoves(s, t, k);
    OthersKeep(c, s, t, k);
    WithinKeeps(c, s, t, k);
  }

  lemma PutBudgeted(c: Params, s: System, k: Key)
    requires ParamsOk(c) && Budgeted(c, s) && Within(c, s) && Enabled(s, Put(k))
    ensures Budgeted(c, Next(c, s, Put(k))) && Within(c, Next(c, s, Put(k)))
  {
    var t := Next(c, s, Put(k));
    forall j ensures FactsOf(t, j) == FactsOf(s, j) {}
    SameFacts(c, s, t);
    assert Fresh(FactsOf(s, k));
    if |s.p.queue| < c.capacity {
      forall job | job in t.p.queue ensures Fresh(FactsOf(t, job.key)) && job.retry == 0 {
        assert job in s.p.queue || job == Job(k, 0);
      }
    } else {
      assert t.p.queue == s.p.queue;
    }
  }

  // Moving keys around leaves what waits and what is held as it was.
  lemma SameFacts(c: Params, s: System, t: System)
    requires ParamsOk(c) && Budgeted(c, s) && Within(c, s) && forall j :: FactsOf(t, j) == FactsOf(s, j)
    requires t.p.heap == s.p.heap && t.worker == s.worker && t.now == s.now
    requires t.p.deferredSince == s.p.deferredSince && t.p.queued == s.p.queued
    ensures forall e :: e in t.p.heap ==> Waits(c, FactsOf(t, e.job.key), e)
    ensures Held(c, FactsOf(t, KeyOf(t.worker)), t.worker, t.now) && Within(c, t)
  {
    forall k ensures At(t.fetches, k) <= c.maxRetries + 1 && At(t.deferrals, k) <= Limit(c) {
      assert FactsOf(t, k) == FactsOf(s, k);
    }
  }

  lemma TakeBackBudgeted(c: Params, s: System, k: Key)
    requires ParamsOk(c) && Budgeted(c, s) && Within(c, s) && Enabled(s, TakeBack(k))
    ensures Budgeted(c, Next(c, s, TakeBack(k))) && Within(c, Next(c, s, TakeBack(k)))
  {
    var t := Next(c, s, TakeBack(k));
    forall j ensures FactsOf(t, j) == FactsOf(s, j) {}
    assert Fresh(FactsOf(s, k));
  }

  lemma PopBudgeted(c: Params, s: System, i: nat)
    requires ParamsOk(c) && Budgeted(c, s) && Within(c, s) && Enabled(s, Pop(i))
    ensures Budgeted(c, Next(c, s, Pop(i))) && Within(c, Next(c, s, Pop(i)))
  {
    var t := Next(c, s, Pop(i));
    forall j ensures FactsOf(t, j) == FactsOf(s, j) {}
    assert s.p.heap[i] in s.p.heap;
    forall e | e in t.p.heap ensures e in s.p.heap {}
  }

  lemma GetBudgeted(c: Params, s: System)
    requires ParamsOk(c) && Budgeted(c, s) && Within(c, s) && Enabled(s, Get)
    ensures Budgeted(c, Next(c, s, Get)) && Within(c, Next(c, s, Get))
  {
    var t := Next(c, s, Get);
    forall j ensures FactsOf(t, j) == FactsOf(s, j) {}
    assert s.p.queue[0] in s.p.queue;
    forall job | job in t.p.queue ensures job in s.p.queue {}
  }

  // One decision, on the facts of its key alone.
  function DecidedFacts(c: Params, f: Facts, busy: bool, now: real): Facts {
    if !c.polite then f.(deferrals := 0)
    else if busy && (f.since.Some? ==> now - f.since.value < c.maxDefer)
    then f.(since := Some(if f.since.Some? then f.since.value else now), deferrals := f.deferrals + 1)
    else f.(since := None, deferrals := 0)
  }

  /** A key is put off at most Limit times in a row: each time it has rested an
      interval longer, and after maxDefer it is fetched. */
  lemma {:induction false} DecisionHeld(c: Params, f: Facts, job: Job, busy: bool, now: real)
    requires ParamsOk(c) && Tried(c, f, job) && Rested(c, f, now) && (!c.polite ==> f.since.None?)
    ensures var g := DecidedFacts(c, f, busy, now);
      Held(c, g, if g.deferrals > 0 then Deferring(job) else Fetching(job), now)
  {
    var n := Fits(c.maxDefer, c.interval);
    if f.since.Some? && now - f.since.value < c.maxDefer {
      CountBelow(f.deferrals, n, c.interval);
    }
  }

  lemma DecideBudgeted(c: Params, s: System, busy: bool)
    requires ParamsOk(c) && Budgeted(c, s) && Within(c, s) && Enabled(s, Decide(busy)) && PlacedAt(s, s.worker.job.key)
    ensures Budgeted(c, Next(c, s, Decide(busy))) && Within(c, Next(c, s, Decide(busy)))
  {
    var t, k := Next(c, s, Decide(busy)), s.worker.job.key;
    HeldAlone(s, k);
    DecideFacts(c, s, busy);
    DecisionHeld(c, FactsOf(s, k), s.worker.job, busy, s.now);
    OthersKeep(c, s, t, k);
    WithinKeeps(c, s, t, k);
  }

  lemma DecideFacts(c: Params, s: System, busy: bool)
    requires Enabled(s, Decide(busy)) && (!c.polite ==> s.p.deferredSince == map[])
    ensures var t, k := Next(c, s, Decide(busy)), s.worker.job.key;
      OnlyMoves(s, t, k) && FactsOf(t, k) == DecidedFacts(c, FactsOf(s, k), busy, s.now)
      && t.worker == (if FactsOf(t, k).deferrals > 0 then Deferring(s.worker.job) else Fetching(s.worker.job))
      && (forall j :: j in t.p.deferredSince ==> j in s.p.deferredSince || j == k)
  {
  }

  lemma PushBackBudgeted(c: Params, s: System)
    requires ParamsOk(c) && Budgeted(c, s) && Within(c, s) && Enabled(s, PushBack)
    ensures Budgeted(c, Next(c, s, PushBack)) && Within(c, Next(c, s, PushBack))
  {
    var t, job := Next(c, s, PushBack), s.worker.job;
    var f := FactsOf(s, job.key);
    forall j ensures FactsOf(t, j) == FactsOf(s, j) {}
    assert f.deferrals as real * c.interval == (f.deferrals - 1) as real * c.interval + c.interval;
    assert Waits(c, f, Entry(s.now + c.interval, s.p.order + 1, job));
  }

  lemma FetchBudgeted(c: Params, s: System, found: bool)
    requires ParamsOk(c) && Budgeted(c, s) && Within(c, s) && Enabled(s, Fetch(found)) && PlacedAt(s, s.worker.job.key)
    ensures Budgeted(c, Next(c, s, Fetch(found))) && Within(c, Next(c, s, Fetch(found)))
  {
    var t, k := Next(c, s, Fetch(found)), s.worker.job.key;
    HeldAlone(s, k);
    FetchFacts(c, s, found);
    OthersKeep(c, s, t, k);
    WithinKeeps(c, s, t, k);
    forall e | e in t.p.heap ensures Waits(c, FactsOf(t, e.job.key), e) {
      if e !in s.p.heap { assert e.job == Job(k, s.worker.job.retry + 1) && s.worker.job.retry < c.maxRetries; }
    }
  }

  lemma FetchFacts(c: Params, s: System, found: bool)
    requires ParamsOk(c) && Budgeted(c, s) && Within(c, s) && Enabled(s, Fetch(found))
    ensures var t, k := Next(c, s, Fetch(found)), s.worker.job.key;
      OnlyMoves(s, t, k) && FactsOf(t, k) == Facts(s.worker.job.retry + 1, 0, None)
      && s.worker.job.retry <= c.maxRetries
      && (forall j :: j in t.p.deferredSince ==> j in t.p.queued)
  {
  }

  lemma RestBudgeted(c: Params, s: System, step: Step)
    requires ParamsOk(c) && Budgeted(c, s) && Within(c, s) && Enabled(s, step) && (step.Wait? || step.TimeOut?)
    ensures Budgeted(c, Next(c, s, step)) && Within(c, Next(c, s, step))
  {
    forall j ensures FactsOf(Next(c, s, step), j) == FactsOf(s, j) {}
  }

  lemma {:induction false} StepBudgeted(c: Params, s: System, step: Step)
    requires ParamsOk(c) && Placed(s) && Budgeted(c, s) && Within(c, s) && Enabled(s, step)
    ensures Budgeted(c, Next(c, s, step)) && Within(c, Next(c, s, step))
  {
    assert PlacedAt(s, KeyOf(s.worker));
    match step
    case Admit(k) =>
      assert PlacedAt(s, k);
      AdmitBudgeted(c, s, k);
    case Put(k) => PutBudgeted(c, s, k);
    case TakeBack(k) => TakeBackBudgeted(c, s, k);
    case Pop(i) => PopBudgeted(c, s, i);
    case Wait => RestBudgeted(c, s, step);
    case TimeOut => RestBudgeted(c, s, step);
    case Get => GetBudgeted(c, s);
    case Decide(busy) => DecideBudgeted(c, s, busy);
    case PushBack => PushBackBudgeted(c, s);
    case Fetch(found) => FetchBudgeted(c, s, found);
  }

  /** In every interleaving a pending key is in exactly one place and not
      resolved, an admitted key is fetched at most maxRetries + 1 times however
      often it is put off, and it is put off at most Limit times in a row. */
  lemma {:induction false} RunBudgeted(c: Params, events: seq<Event>)
    requires ParamsOk(c) && Run(c, events)
    ensures Placed(After(c, events)) && Budgeted(c, After(c, events)) && Within(c, After(c, events))
    decreases |events|
  {
    if events != [] {
      var front, e := events[..|events| - 1], events[|events| - 1];
      RunBudgeted(c, front);
      TickBudgeted(c, After(c, front), e.at);
      TickPlaced(After(c, front), e.at);
      StepPlaced(c, Ticked(After(c, front), e.at), e.step);
      StepBudgeted(c, Ticked(After(c, front), e.at), e.step);
    }
  }

  lemma TickPlaced(s: System, at: real)
    requires Placed(s)
    ensures Placed(Ticked(s, at))
  {
    forall k ensures PlacedAt(Ticked(s, at), k) {
      assert PlacedAt(s, k);
    }
  }

  /** The counts, for one key of one run. */
  lemma {:induction false} FetchesBounded(c: Params, events: seq<Event>, k: Key)
    requires ParamsOk(c) && Run(c, events)
    ensures At(After(c, events).fetches, k) <= c.maxRetries + 1
    ensures At(After(c, events).deferrals, k) <= Limit(c)
    ensures Places(After(c, events), k) == if k in After(c, events).p.queued then 1 else 0
    ensures k in After(c, events).p.queued ==> k !in After(c, events).p.resolved
  {
    RunBudgeted(c, events);
    assert PlacedAt(After(c, events), k);
  }

  // The keys that found the queue full.
  function Refusals(c: Params, events: seq<Event>): nat
    requires Run(c, events)
    decreases |events|
  {
    if events == [] then 0 else
    var front, last := events[..|events| - 1], events[|events| - 1];
    Refusals(c, front) + if last.step.Put? && |After(c, front).p.queue| >= c.capacity then 1 else 0
  }

  /** In every run each key that found the queue full is counted as dropped once,
      as soon as the thread that put it there has taken it back. */
  lemma {:induction false} DropsCounted(c: Params, events: seq<Event>)
    requires ParamsOk(c) && Run(c, events)
    ensures After(c, events).p.dropped + |After(c, events).turnedAway| == Refusals(c, events)
    decreases |events|
  {
    if events != [] {
      var front, last := events[..|events| - 1], events[|events| - 1];
      DropsCounted(c, front);
      RunBudgeted(c, front);
      var s := Ticked(After(c, front), last.at);
      TickPlaced(After(c, front), last.at);
      StepDrops(c, s, last.step);
    }
  }

  lemma StepDrops(c: Params, s: System, step: Step)
    requires Enabled(s, step) && Placed(s)
    ensures var t := Next(c, s, step);
      t.p.dropped + |t.turnedAway|
      == s.p.dropped + |s.turnedAway| + if step.Put? && |s.p.queue| >= c.capacity then 1 else 0
  {
    if step.Put? { assert PlacedAt(s, step.k); }
  }
}
