/** The pricing resolver: what each lock region and each turn of the worker
    loop does to its state. */
module PricingResolver {
  import opened Options
  datatype Key = Key(provider: string, model: string)

  datatype Job = Job(key: Key, retry: nat)

  // A heap entry; entries are popped by due time, then by order.
  datatype Entry = Entry(due: real, order: nat, job: Job)

  datatype Params = Params(capacity: nat, maxRetries: nat, backoff: real, interval: real, maxDefer: real, polite: bool)

  // The constructor clamps the knobs.
  predicate ParamsOk(c: Params) {
    c.interval >= 0.5 && c.maxDefer >= 0.0 && 0.0 <= c.backoff <= 30.0 && c.maxRetries <= 5
  }

  datatype State = State(queued: set<Key>, resolved: set<Key>, deferredSince: map<Key, real>,
                         queue: seq<Job>, heap: seq<Entry>, order: nat, dropped: nat, failures: nat)

  predicate Before(a: Entry, b: Entry) {
    a.due < b.due || (a.due == b.due && a.order <= b.order)
  }

  // The entry heapq would pop.
  predicate Least(heap: seq<Entry>, i: nat) {
    i < |heap| && forall j :: 0 <= j < |heap| ==> Before(heap[i], heap[j])
  }

  function Without(heap: seq<Entry>, i: nat): seq<Entry>
    requires i < |heap|
  {
    heap[..i] + heap[i + 1..]
  }

  function Power(n: nat): nat {
    if n == 0 then 1 else 2 * Power(n - 1)
  }

  function Delay(c: Params, retry: nat): real {
    c.backoff * Power(retry) as real
  }

  /** The first retry waits for the backoff, and each further one twice as long
      as the one before. */
  lemma DelayDoubles(c: Params, retry: nat)
    ensures Delay(c, 0) == c.backoff && Delay(c, retry + 1) == Delay(c, retry) + Delay(c, retry)
  {
    var p := Power(retry) as real;
    assert Power(retry + 1) as real == p + p;
    assert c.backoff * (p + p) == c.backoff * p + c.backoff * p;
  }

  predicate Wanted(s: State, k: Key) {
    k.provider != "" && k.model != "" && k !in s.queued && k !in s.resolved
  }

  // `_should_defer`.
  predicate Defers(c: Params, s: State, k: Key, busy: bool, now: real) {
    c.polite && busy && (k in s.deferredSince ==> now - s.deferredSince[k] < c.maxDefer)
  }

  function Decided(c: Params, s: State, k: Key, busy: bool, now: real): State {
    if !c.polite then s
    else if !Defers(c, s, k, busy, now) then s.(deferredSince := s.deferredSince - {k})
    else if k in s.deferredSince then s
    else s.(deferredSince := s.deferredSince[k := now])
  }

  function Pushed(s: State, due: real, job: Job): State {
    s.(heap := s.heap + [Entry(due, s.order + 1, job)], order := s.order + 1)
  }

  function Finished(s: State, k: Key): State {
    s.(queued := s.queued - {k}, deferredSince := s.deferredSince - {k})
  }

  // After a fetch: resolved, retried later, or given up.
  function Fetched(c: Params, s: State, job: Job, found: bool, now: real): State {
    if found then Finished(s, job.key).(resolved := s.resolved + {job.key})
    else if job.retry < c.maxRetries then Pushed(s, now + Delay(c, job.retry), Job(job.key, job.retry + 1))
    else Finished(s, job.key).(failures := s.failures + 1)
  }

  class PricingResolver {
    const c: Params
    var queued: set<Key>
    var resolved: set<Key>
    var deferredSince: map<Key, real>
    var queue: seq<Job>
    var heap: seq<Entry>
    var order: nat
    var dropped: nat
    var failures: nat

    function View(): State
      reads this
    {
      State(queued, resolved, deferredSince, queue, heap, order, dropped, failures)
    }

    constructor (c: Params)
      ensures this.c == c && View() == State({}, {}, map[], [], [], 0, 0, 0)
    {
      this.c := c;
      queued, resolved, deferredSince, queue, heap, order, dropped, failures := {}, {}, map[], [], [], 0, 0, 0;
    }

    /** `enqueue`: a key is admitted once, until it is resolved or given up. */
    method Enqueue(k: Key) returns (accepted: bool)
      modifies this
      ensures accepted == (Wanted(old(View()), k) && |old(queue)| < c.capacity)
      ensures View() == if accepted then old(View()).(queued := old(queued) + {k}, queue := old(queue) + [Job(k, 0)])
                        else if Wanted(old(View()), k) then old(View()).(dropped := old(dropped) + 1)
                        else old(View())
    {
      if k.provider == "" || k.model == "" || k in queued || k in resolved { return false; }
      queued := queued + {k};
      if |queue| < c.capacity {
        queue := queue + [Job(k, 0)];
        return true;
      }
      queued := queued - {k};
      dropped := dropped + 1;
      accepted := false;
    }

    /** heapq's minimum, if it is due. */
    method PopDue(now: real) returns (job: Option<Job>)
      modifies this`heap
      ensures job.None? ==> heap == old(heap) && forall e :: e in heap ==> e.due > now
      ensures job.Some? ==> exists i :: 0 <= i < |old(heap)| && Least(old(heap), i) && old(heap)[i].due <= now
                                        && job.value == old(heap)[i].job && heap == Without(old(heap), i)
    {
      if heap == [] { return None; }
      var least := 0;
      for i := 1 to |heap|
        invariant 0 <= least < |heap|
        invariant forall j :: 0 <= j < i ==> Before(heap[least], heap[j])
      {
        if !Before(heap[least], heap[i]) { least := i; }
      }
      assert Least(heap, least);
      if heap[least].due > now { return None; }
      job := Some(heap[least].job);
      heap := Without(heap, least);
    }

    /** `_should_defer`. */
    method ShouldDefer(k: Key, busy: bool, now: real) returns (defer: bool)
      modifies this`deferredSince
      ensures defer == Defers(c, old(View()), k, busy, now) && View() == Decided(c, old(View()), k, busy, now)
    {
      if !c.polite { return false; }
      if !busy {
        deferredSince := deferredSince - {k};
        return false;
      }
      if k !in deferredSince {
        deferredSince := deferredSince[k := now];
        return true;
      }
      if now - deferredSince[k] >= c.maxDefer {
        deferredSince := deferredSince - {k};
        return false;
      }
      defer := true;
    }

    /** The rest of a turn of the worker loop, with the answer of the network
        and the times at which the three clocks are read. */
    method Handle(job: Job, busy: bool, found: bool, decided: real, pushed: real)
      modifies this`queued, this`resolved, this`deferredSince, this`heap, this`order, this`failures
      ensures var s := Decided(c, old(View()), job.key, busy, decided);
        View() == if Defers(c, old(View()), job.key, busy, decided) then Pushed(s, pushed + c.interval, job)
                  else Fetched(c, s, job, found, pushed)
    {
      var defer := ShouldDefer(job.key, busy, decided);
      if defer {
        order := order + 1;
        heap := heap + [Entry(pushed + c.interval, order, job)];
      } else if found {
        resolved := resolved + {job.key};
        queued := queued - {job.key};
        deferredSince := deferredSince - {job.key};
      } else if job.retry < c.maxRetries {
        order := order + 1;
        heap := heap + [Entry(pushed + Delay(c, job.retry), order, Job(job.key, job.retry + 1))];
      } else {
        queued := queued - {job.key};
        deferredSince := deferredSince - {job.key};
        failures := failures + 1;
      }
    }
  }
}
