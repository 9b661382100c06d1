/** The pricing worker against any number of enqueuing threads: each step is one
    lock region or one clock-stamped move of the worker. */
module PricingWorker {
  import opened PricingResolver

  /** Where the worker stands: about to look at the heap, waiting on the queue,
      or holding one job. */
  datatype Worker = Looking | Waiting | Deciding(job: Job) | Deferring(job: Job) | Fetching(job: Job)

  datatype System = System(
    p: State,
    entering: set<Key>,     // admitted, not yet put into the queue
    turnedAway: set<Key>,   // the queue was full, not yet taken back
    worker: Worker,
    fetches: map<Key, nat>,   // since the key was last admitted
    deferrals: map<Key, nat>, // since it was last admitted or fetched
    now: real)

  datatype Step =
    | Admit(k: Key)
    | Put(k: Key)
    | TakeBack(k: Key)
    | Pop(i: nat)
    | Wait
    | TimeOut
    | Get
    | Decide(busy: bool)
    | PushBack
    | Fetch(found: bool)

  const INITIAL := System(State({}, {}, map[], [], [], 0, 0, 0), {}, {}, Looking, map[], map[], 0.0)

  function At(m: map<Key, nat>, k: Key): nat {
    if k in m then m[k] else 0
  }

  predicate Enabled(s: System, step: Step) {
    match step
    case Admit(k) => Wanted(s.p, k)
    case Put(k) => k in s.entering
    case TakeBack(k) => k in s.turnedAway
    case Pop(i) => s.worker.Looking? && Least(s.p.heap, i) && s.p.heap[i].due <= s.now
    case Wait => s.worker.Looking? && forall e :: e in s.p.heap ==> e.due > s.now
    case TimeOut => s.worker.Waiting?
    case Get => s.worker.Waiting? && s.p.queue != []
    case Decide(_) => s.worker.Deciding?
    case PushBack => s.worker.Deferring?
    case Fetch(_) => s.worker.Fetching?
  }

  function Next(c: Params, s: System, step: Step): System
    requires Enabled(s, step)
  {
    match step
    case Admit(k) =>
      s.(p := s.p.(queued := s.p.queued + {k}), entering := s.entering + {k},
         fetches := s.fetches[k := 0], deferrals := s.deferrals[k := 0])
    case Put(k) =>
      if |s.p.queue| < c.capacity
      then s.(p := s.p.(queue := s.p.queue + [Job(k, 0)]), entering := s.entering - {k})
      else s.(entering := s.entering - {k}, turnedAway := s.turnedAway + {k})
    case TakeBack(k) =>
      s.(p := s.p.(queued := s.p.queued - {k}, dropped := s.p.dropped + 1), turnedAway := s.turnedAway - {k})
    case Pop(i) => s.(p := s.p.(heap := Without(s.p.heap, i)), worker := Deciding(s.p.heap[i].job))
    case Wait => s.(worker := Waiting)
    case TimeOut => s.(worker := Looking)
    case Get => s.(p := s.p.(queue := s.p.queue[1..]), worker := Deciding(s.p.queue[0]))
    case Decide(busy) =>
      var k := s.worker.job.key;
      if Defers(c, s.p, k, busy, s.now)
      then s.(p := Decided(c, s.p, k, busy, s.now), worker := Deferring(s.worker.job),
              deferrals := s.deferrals[k := At(s.deferrals, k) + 1])
      else s.(p := Decided(c, s.p, k, busy, s.now), worker := Fetching(s.worker.job), deferrals := s.deferrals[k := 0])
    case PushBack => s.(p := Pushed(s.p, s.now + c.interval, s.worker.job), worker := Looking)
    case Fetch(found) =>
      s.(p := Fetched(c, s.p, s.worker.job, found, s.now), worker := Looking,
         fetches := s.fetches[s.worker.job.key := At(s.fetches, s.worker.job.key) + 1])
  }

  /** A step taken at a time, on a clock that does not go back. */
  datatype Event = Event(at: real, step: Step)

  function Ticked(s: System, at: real): System {
    s.(now := if at > s.now then at else s.now)
  }

  predicate Run(c: Params, events: seq<Event>)
    decreases |events|, 0
  {
    events == [] ||
    (Run(c, events[..|events| - 1]) &&
     Enabled(Ticked(After(c, events[..|events| - 1]), events[|events| - 1].at), events[|events| - 1].step))
  }

  function After(c: Params, events: seq<Event>): System
    requires Run(c, events)
    decreases |events|, 1
  {
    if events == [] then INITIAL
    else Next(c, Ticked(After(c, events[..|events| - 1]), events[|events| - 1].at), events[|events| - 1].step)
  }

  // ------------------------------------------------- every pending key, once

  function InQueue(queue: seq<Job>, k: Key): nat {
    if queue == [] then 0 else InQueue(queue[..|queue| - 1], k) + if queue[|queue| - 1].key == k then 1 else 0
  }

  function InHeap(heap: seq<Entry>, k: Key): nat {
    if heap == [] then 0 else InHeap(heap[..|heap| - 1], k) + if heap[|heap| - 1].job.key == k then 1 else 0
  }

  predicate Holds(w: Worker, k: Key) {
    !w.Looking? && !w.Waiting? && w.job.key == k
  }

  function One(b: bool): nat {
    if b then 1 else 0
  }

  // How many places a key is in.
  function Places(s: System, k: Key): nat {
    One(k in s.entering) + One(k in s.turnedAway) + InQueue(s.p.queue, k) + InHeap(s.p.heap, k)
        + One(Holds(s.worker, k))
  }

  ghost predicate PlacedAt(s: System, k: Key) {
    Places(s, k) == One(k in s.p.queued) && !(k in s.p.queued && k in s.p.resolved)
  }

  /** A pending key is in exactly one place, any other key in none; no key is
      both pending and resolved. */
  ghost predicate Placed(s: System) {
    forall k :: PlacedAt(s, k)
  }

  lemma QueueSnoc(queue: seq<Job>, job: Job, k: Key)
    ensures InQueue(queue + [job], k) == InQueue(queue, k) + One(job.key == k)
  {
    assert (queue + [job])[..|queue|] == queue;
  }

  lemma {:induction false} QueueHead(queue: seq<Job>, k: Key)
    requires queue != []
    ensures InQueue(queue, k) == One(queue[0].key == k) + InQueue(queue[1..], k)
  {
    var n := |queue| - 1;
    if n == 0 {
      assert queue[..0] == [] && queue[1..] == [];
    } else {
      QueueHead(queue[..n], k);
      assert queue[..n][1..] == queue[1..][..n - 1];
    }
  }

  lemma HeapSnoc(heap: seq<Entry>, e: Entry, k: Key)
    ensures InHeap(heap + [e], k) == InHeap(heap, k) + One(e.job.key == k)
  {
    assert (heap + [e])[..|heap|] == heap;
  }

  lemma {:induction false} HeapWithout(heap: seq<Entry>, i: nat, k: Key)
    requires i < |heap|
    ensures InHeap(heap, k) == One(heap[i].job.key == k) + InHeap(Without(heap, i), k)
  {
    var n := |heap| - 1;
    if i == n {
      assert Without(heap, n) == heap[..n];
    } else {
      HeapWithout(heap[..n], i, k);
      assert Without(heap, i) == Without(heap[..n], i) + [heap[n]];
      HeapSnoc(Without(heap[..n], i), heap[n], k);
    }
  }

  lemma EnqueuePlaces(c: Params, s: System, step: Step, k: Key)
    requires Enabled(s, step) && (step.Admit? || step.Put? || step.TakeBack?) && PlacedAt(s, k)
    ensures PlacedAt(Next(c, s, step), k)
  {
    if step.Put? { QueueSnoc(s.p.queue, Job(step.k, 0), k); }
  }

  lemma TakePlaces(c: Params, s: System, step: Step, k: Key)
    requires Enabled(s, step) && (step.Pop? || step.Get? || step.PushBack?) && PlacedAt(s, k)
    ensures PlacedAt(Next(c, s, step), k)
  {
    match step
    case Pop(i) => PopPlaces(c, s, i, k);
    case Get => GetPlaces(c, s, k);
    case PushBack => PushBackPlaces(c, s, k);
  }

  lemma PopPlaces(c: Params, s: System, i: nat, k: Key)
    requires Enabled(s, Pop(i)) && PlacedAt(s, k)
    ensures PlacedAt(Next(c, s, Pop(i)), k)
  {
    HeapWithout(s.p.heap, i, k);
  }

  lemma GetPlaces(c: Params, s: System, k: Key)
    requires Enabled(s, Get) && PlacedAt(s, k)
    ensures PlacedAt(Next(c, s, Get), k)
  {
    QueueHead(s.p.queue, k);
  }

  lemma PushBackPlaces(c: Params, s: System, k: Key)
    requires Enabled(s, PushBack) && PlacedAt(s, k)
    ensures PlacedAt(Next(c, s, PushBack), k)
  {
    HeapSnoc(s.p.heap, Entry(s.now + c.interval, s.p.order + 1, s.worker.job), k);
  }

  lemma {:induction false} StepPlaces(c: Params, s: System, step: Step, k: Key)
    requires Enabled(s, step) && PlacedAt(s, k)
    ensures PlacedAt(Next(c, s, step), k)
  {
    match step
    case Admit(j) => EnqueuePlaces(c, s, step, k);
    case Put(j) => EnqueuePlaces(c, s, step, k);
    case TakeBack(j) => EnqueuePlaces(c, s, step, k);
    case Pop(i) => TakePlaces(c, s, step, k);
    case Wait =>
    case TimeOut =>
    case Get => TakePlaces(c, s, step, k);
    case Decide(busy) =>
    case PushBack => TakePlaces(c, s, step, k);
    case Fetch(found) => FetchPlaces(c, s, found, k);
  }

  lemma FetchPlaces(c: Params, s: System, found: bool, k: Key)
    requires s.worker.Fetching? && PlacedAt(s, k)
    ensures PlacedAt(Next(c, s, Fetch(found)), k)
  {
    if !found && s.worker.job.retry < c.maxRetries { RetryPlaces(c, s, k); } else { LastFetchPlaces(c, s, found, k); }
  }

  // The job goes back to the heap.
  lemma RetryPlaces(c: Params, s: System, k: Key)
    requires s.worker.Fetching? && PlacedAt(s, k) && s.worker.job.retry < c.maxRetries
    ensures PlacedAt(Next(c, s, Fetch(false)), k)
  {
    var job := s.worker.job;
    HeapSnoc(s.p.heap, Entry(s.now + Delay(c, job.retry), s.p.order + 1, Job(job.key, job.retry + 1)), k);
  }

  // The job is resolved or given up.
  lemma LastFetchPlaces(c: Params, s: System, found: bool, k: Key)
    requires s.worker.Fetching? && PlacedAt(s, k) && (found || s.worker.job.retry >= c.maxRetries)
    ensures PlacedAt(Next(c, s, Fetch(found)), k)
  {
  }

  lemma {:induction false} StepPlaced(c: Params, s: System, step: Step)
    requires Placed(s) && Enabled(s, step)
    ensures Placed(Next(c, s, step))
  {
    forall k ensures PlacedAt(Next(c, s, step), k) {
      assert PlacedAt(s, k);
      StepPlaces(c, s, step, k);
    }
  }

  // -------------------------------------------------------- what a turn decides

  /** A job is put off only in the polite mode on a busy network, and not once it
      has been put off for the cap; otherwise it is fetched. */
  lemma TurnDecided(c: Params, s: System, busy: bool)
    requires s.worker.Deciding?
    ensures var t, k := Next(c, s, Decide(busy)), s.worker.job.key;
      && (t.worker == Deferring(s.worker.job) || t.worker == Fetching(s.worker.job))
      && (t.worker.Deferring? <==>
            c.polite && busy && (k !in s.p.deferredSince || s.now < s.p.deferredSince[k] + c.maxDefer))
  {
  }

  /** A job that was put off comes due an interval later, a failed fetch a backoff
      later that doubles with every retry, and a job without retries is given up. */
  lemma TurnEnds(c: Params, s: System, found: bool)
    ensures s.worker.Deferring? ==>
      Next(c, s, PushBack).p.heap == s.p.heap + [Entry(s.now + c.interval, s.p.order + 1, s.worker.job)]
    ensures s.worker.Fetching? ==>
      var t, job := Next(c, s, Fetch(found)), s.worker.job;
      if found then job.key in t.p.resolved && job.key !in t.p.queued && t.p.heap == s.p.heap
      else if job.retry >= c.maxRetries then
        job.key !in t.p.resolved - s.p.resolved && job.key !in t.p.queued && t.p.heap == s.p.heap
        && t.p.failures == s.p.failures + 1
      else t.p.heap == s.p.heap + [Entry(s.now + Delay(c, job.retry), s.p.order + 1, Job(job.key, job.retry + 1))]
  {
  }

  // No pending key is blank.
  ghost predicate NamedOnly(s: System) {
    && (forall k :: k in s.p.queued ==> k.provider != "" && k.model != "")
  }

  /** A key without a provider or a model is never admitted. */
  lemma {:induction false} BlankNeverPending(c: Params, events: seq<Event>)
    requires Run(c, events)
    ensures NamedOnly(After(c, events))
    decreases |events|
  {
    if events != [] { BlankNeverPending(c, events[..|events| - 1]); }
  }

  /** The entry that is popped is due first, and among those due at one time it
      was pushed first. */
  lemma EarliestPopped(heap: seq<Entry>, i: nat, j: nat)
    requires Least(heap, i) && j < |heap|
    ensures heap[i].due <= heap[j].due && (heap[i].due == heap[j].due ==> heap[i].order <= heap[j].order)
  {
  }

  // ----------------------------------------------------------- in order of arrival

  // The entries stand in the order in which they were pushed, numbered.
  predicate Numbered(p: State) {
    && (forall i :: 0 <= i < |p.heap| ==> p.heap[i].order <= p.order)
    && forall i, j :: 0 <= i < j < |p.heap| ==> p.heap[i].order < p.heap[j].order
  }

  /** In every run the entries waiting for their time carry numbers of their own,
      which grow with every push: of two that are due at one time, the worker
      takes the one that was pushed first. */
  lemma {:induction false} EarlierFirst(c: Params, events: seq<Event>, i: nat, j: nat)
    requires Run(c, events)
    ensures var heap := After(c, events).p.heap;
      Least(heap, i) && j < |heap| && heap[i].due == heap[j].due ==> i <= j
  {
    RunNumbered(c, events);
  }

  lemma {:induction false} RunNumbered(c: Params, events: seq<Event>)
    requires Run(c, events)
    ensures Numbered(After(c, events).p)
    decreases |events|
  {
    if events != [] {
      var front, last := events[..|events| - 1], events[|events| - 1];
      RunNumbered(c, front);
      StepNumbered(c, Ticked(After(c, front), last.at), last.step);
    }
  }

  lemma PushNumbered(p: State, due: real, job: Job)
    requires Numbered(p)
    ensures Numbered(Pushed(p, due, job))
  {
  }

  lemma WithoutNumbered(p: State, i: nat)
    requires Numbered(p) && i < |p.heap|
    ensures Numbered(p.(heap := Without(p.heap, i)))
  {
    assert forall j :: 0 <= j < |p.heap| - 1 ==> Without(p.heap, i)[j] == p.heap[if j < i then j else j + 1];
  }

  lemma StepNumbered(c: Params, s: System, step: Step)
    requires Numbered(s.p) && Enabled(s, step)
    ensures Numbered(Next(c, s, step).p)
  {
    match step
    case Pop(i) => WithoutNumbered(s.p, i);
    case PushBack => PushNumbered(s.p, s.now + c.interval, s.worker.job);
    case Fetch(_) =>
      var job := s.worker.job;
      PushNumbered(s.p, s.now + Delay(c, job.retry), Job(job.key, job.retry + 1));
    case _ => assert Next(c, s, step).p.heap == s.p.heap && Next(c, s, step).p.order == s.p.order;
  }

  // The keys that a run put into the queue, in order, and how many it took out.
  function PutIn(c: Params, events: seq<Event>): seq<Job>
    requires Run(c, events)
    decreases |events|
  {
    if events == [] then [] else
    var front, step := events[..|events| - 1], events[|events| - 1].step;
    PutIn(c, front) +
    if step.Put? && |After(c, front).p.queue| < c.capacity then [Job(step.k, 0)] else []
  }

  function TakenOut(events: seq<Event>): nat {
    if events == [] then 0 else TakenOut(events[..|events| - 1]) + if events[|events| - 1].step.Get? then 1 else 0
  }

  /** In every run the queue holds what was put into it and not yet taken out, in
      order, and every job enters it without a retry. */
  lemma {:induction false} QueueInOrder(c: Params, events: seq<Event>)
    requires Run(c, events)
    ensures TakenOut(events) <= |PutIn(c, events)|
    ensures After(c, events).p.queue == PutIn(c, events)[TakenOut(events)..]
    decreases |events|
  {
    if events != [] {
      var front, last := events[..|events| - 1], events[|events| - 1];
      QueueInOrder(c, front);
      StepInOrder(c, Ticked(After(c, front), last.at), last.step, PutIn(c, front), TakenOut(front));
    }
  }

  lemma StepInOrder(c: Params, s: System, step: Step, puts: seq<Job>, n: nat)
    requires Enabled(s, step) && n <= |puts| && s.p.queue == puts[n..]
    ensures var more := if step.Put? && |s.p.queue| < c.capacity then [Job(step.k, 0)] else [];
      Next(c, s, step).p.queue == if step.Get? then puts[n + 1..] else (puts + more)[n..]
  {
    assert puts + [] == puts;
  }

  // ------------------------------------------------------------ never stuck

  lemma {:induction false} LeastExists(heap: seq<Entry>) returns (i: nat)
    requires heap != []
    ensures Least(heap, i)
  {
    var n := |heap| - 1;
    if n == 0 {
      i := 0;
    } else {
      i := LeastExists(heap[..n]);
      if !Before(heap[i], heap[n]) { i := n; }
    }
  }

  predicate OfWorker(step: Step) {
    !step.Admit? && !step.Put? && !step.TakeBack?
  }

  /** The worker always has a next step, whatever the network answers, and a
      thread that was let in always has one too. */
  lemma {:induction false} NeverStuck(s: System, busy: bool, found: bool, k: Key) returns (step: Step)
    ensures Enabled(s, step) && OfWorker(step)
    ensures s.worker.Deciding? ==> step == Decide(busy)
    ensures s.worker.Fetching? ==> step == Fetch(found)
    ensures s.worker.Waiting? && s.p.queue != [] ==> step == Get
    ensures s.worker.Looking? && (exists e :: e in s.p.heap && e.due <= s.now) ==> step.Pop?
    ensures k in s.entering ==> Enabled(s, Put(k))
    ensures k in s.turnedAway ==> Enabled(s, TakeBack(k))
  {
    match s.worker
    case Waiting => step := if s.p.queue != [] then Get else TimeOut;
    case Deciding(_) => step := Decide(busy);
    case Deferring(_) => step := PushBack;
    case Fetching(_) => step := Fetch(found);
    case Looking =>
      if e :| e in s.p.heap && e.due <= s.now {
        var i := LeastExists(s.p.heap);
        var j :| 0 <= j < |s.p.heap| && s.p.heap[j] == e;
        assert Before(s.p.heap[i], s.p.heap[j]);
        step := Pop(i);
      } else {
        step := Wait;
      }
  }
}
