/** The background model-discovery queue: its lock-protected state and the
    operations each lock region performs on it. */
module ModelDiscoveryQueue {
  import opened Options

  type Provider = string

  // The stored discovery snapshot of a provider, as far as scheduling reads it.
  datatype Snapshot = Unknown | OkAt(at: real) | ErrorAt(at: real)

  datatype Params = Params(okTtl: real, retry: real, deferInterval: real, maxDefer: real, polite: bool)

  // The constructor clamps the two knobs and leaves the rest alone.
  predicate ParamsOk(c: Params) {
    c.deferInterval >= 1.0 && c.maxDefer >= 0.0
  }

  datatype State = State(queue: seq<Provider>, queued: set<Provider>, eligible: map<Provider, real>,
                         active: set<Provider>, urgent: set<Provider>, since: map<Provider, real>)

  predicate NoDuplicates(s: seq<Provider>) {
    forall i, j :: 0 <= i < j < |s| ==> s[i] != s[j]
  }

  // The queue holds each queued provider exactly once.
  ghost predicate QueueOk(s: State) {
    NoDuplicates(s.queue) && forall p :: p in s.queue <==> p in s.queued
  }

  function Without(s: seq<Provider>, p: Provider): (r: seq<Provider>)
    ensures forall x :: x in r <==> x in s && x != p
    ensures NoDuplicates(s) ==> NoDuplicates(r)
  {
    if s == [] then []
    else if s[0] == p then HeadTail(s); Without(s[1..], p)
    else
      HeadTail(s);
      [s[0]] + Without(s[1..], p)
  }

  lemma HeadTail(s: seq<Provider>)
    requires s != []
    ensures forall x :: x in s <==> x == s[0] || x in s[1..]
    ensures NoDuplicates(s) ==> NoDuplicates(s[1..]) && s[0] !in s[1..]
  {
    forall i | 0 <= i < |s[1..]| ensures s[1..][i] == s[i + 1] {}
  }

  function EligibleAt(s: State, p: Provider): real {
    if p in s.eligible then s.eligible[p] else 0.0
  }

  predicate Due(s: State, i: nat, now: real)
    requires i < |s.queue|
  {
    s.queue[i] !in s.active && now >= EligibleAt(s, s.queue[i])
  }

  // What a snapshot says about the next fetch of an unscheduled provider.
  function SnapshotDue(c: Params, snap: Snapshot): Option<real> {
    match snap
    case OkAt(at) => if at > 0.0 then Some(at + c.okTtl) else None
    case ErrorAt(at) => if at > 0.0 then Some(at + c.retry) else None
    case Unknown => None
  }

  function Forced(s: State, p: Provider): State {
    s.(urgent := s.urgent + {p}, since := s.since - {p}, eligible := s.eligible - {p},
       queue := [p] + Without(s.queue, p), queued := s.queued + {p})
  }

  function Offered(c: Params, s: State, p: Provider, snap: Snapshot): State {
    var due := SnapshotDue(c, snap);
    var s' := if p !in s.eligible && due.Some? then s.(eligible := s.eligible[p := due.value]) else s;
    Appended(s', p)
  }

  // Queue a provider at the back unless it is queued already.
  function Appended(s: State, p: Provider): State {
    if p in s.queued then s else s.(queue := s.queue + [p], queued := s.queued + {p})
  }

  function Enqueued(c: Params, s: State, p: Provider, force: bool, snap: Snapshot): State {
    if p == "" then s else if force then Forced(s, p) else Offered(c, s, p, snap)
  }

  function Taken(s: State, i: nat): State
    requires i < |s.queue|
  {
    var p := s.queue[i];
    s.(queue := s.queue[..i] + s.queue[i + 1..], queued := s.queued - {p}, active := s.active + {p})
  }

  // The locked half of `_should_defer`.
  predicate Defers(c: Params, s: State, p: Provider, busy: bool, now: real) {
    busy && (p in s.since ==> now - s.since[p] < c.maxDefer)
  }

  function Decided(c: Params, s: State, p: Provider, busy: bool, now: real): State {
    if !Defers(c, s, p, busy, now) then s.(since := s.since - {p})
    else if p in s.since then s
    else s.(since := s.since[p := now])
  }

  function Rescheduled(s: State, p: Provider, at: real): State {
    Appended(s.(eligible := s.eligible[p := at]), p)
  }

  function Released(s: State, p: Provider, deferred: bool): State {
    if deferred then s.(active := s.active - {p})
    else s.(active := s.active - {p}, urgent := s.urgent - {p}, since := s.since - {p})
  }

  class DiscoveryQueue {
    const c: Params
    var queue: seq<Provider>
    var queued: set<Provider>
    var eligible: map<Provider, real>
    var active: set<Provider>
    var urgent: set<Provider>
    var since: map<Provider, real>

    function View(): State
      reads this
    {
      State(queue, queued, eligible, active, urgent, since)
    }

    ghost predicate Valid()
      reads this
    {
      QueueOk(View())
    }

    constructor (c: Params)
      ensures Valid() && this.c == c && View() == State([], {}, map[], {}, {}, map[])
    {
      this.c := c;
      queue, queued, eligible, active, urgent, since := [], {}, map[], {}, {}, map[];
    }

    /** `enqueue`, with the snapshot the callback returns. */
    method Enqueue(p: Provider, force: bool, snap: Snapshot)
      requires Valid()
      modifies this
      ensures Valid() && View() == Enqueued(c, old(View()), p, force, snap)
    {
      if p == "" { return; }
      if force {
        urgent := urgent + {p};
        since := since - {p};
        eligible := eligible - {p};
        if p in queued {
          queue := [p] + Without(queue, p);
        } else {
          WithoutAbsent(queue, p);
          queued := queued + {p};
          queue := [p] + queue;
        }
        assert queued == old(queued) + {p};
      } else {
        var due := SnapshotDue(c, snap);
        if p !in eligible && due.Some? {
          eligible := eligible[p := due.value];
        }
        if p in queued { return; }
        queued := queued + {p};
        queue := queue + [p];
      }
    }

    /** `_pop_due`: the first queued provider that is neither active nor still
        cooling down. */
    method PopDue(now: real) returns (p: Option<Provider>)
      requires Valid()
      modifies this`queue, this`queued, this`active
      ensures Valid()
      ensures p.None? ==> View() == old(View()) && forall i :: 0 <= i < |queue| ==> !Due(old(View()), i, now)
      ensures p.Some? ==> exists i :: 0 <= i < |old(queue)| && Due(old(View()), i, now) && p.value == old(queue)[i]
                                      && (forall j :: 0 <= j < i ==> !Due(old(View()), j, now))
                                      && View() == Taken(old(View()), i)
    {
      var i := 0;
      while i < |queue| && !Due(View(), i, now)
        invariant 0 <= i <= |queue|
        invariant forall j :: 0 <= j < i ==> !Due(View(), j, now)
      {
        i := i + 1;
      }
      if i == |queue| { return None; }
      p := Some(queue[i]);
      TakenOk(View(), i);
      queue, queued, active := queue[..i] + queue[i + 1..], queued - {p.value}, active + {p.value};
    }

    /** The locked half of `_should_defer`. */
    method DecideDefer(p: Provider, busy: bool, now: real) returns (defer: bool)
      requires Valid()
      modifies this`since
      ensures Valid() && defer == Defers(c, old(View()), p, busy, now)
      ensures View() == Decided(c, old(View()), p, busy, now)
    {
      if !busy {
        since := since - {p};
        return false;
      }
      if p !in since {
        since := since[p := now];
        return true;
      }
      if now - since[p] >= c.maxDefer {
        since := since - {p};
        return false;
      }
      return true;
    }

    /** `_requeue_deferred` and `_schedule_retry`: due again at the given time. */
    method Reschedule(p: Provider, at: real)
      requires Valid()
      modifies this`eligible, this`queue, this`queued
      ensures Valid() && View() == Rescheduled(old(View()), p, at)
    {
      eligible := eligible[p := at];
      if p !in queued {
        queued := queued + {p};
        queue := queue + [p];
      }
    }

    /** `_schedule_ok`: a fresh catalogue rests for its time to live. */
    method ScheduleOk(p: Provider, now: real)
      requires Valid()
      modifies this`eligible
      ensures Valid() && View() == old(View()).(eligible := old(eligible)[p := now + c.okTtl])
    {
      eligible := eligible[p := now + c.okTtl];
    }

    /** The end of a worker's turn. */
    method Release(p: Provider, deferred: bool)
      requires Valid()
      modifies this`active, this`urgent, this`since
      ensures Valid() && View() == Released(old(View()), p, deferred)
    {
      active := active - {p};
      if !deferred {
        urgent := urgent - {p};
        since := since - {p};
      }
    }
  }

  lemma WithoutAbsent(s: seq<Provider>, p: Provider)
    requires p !in s
    ensures Without(s, p) == s
  {
    if s != [] { WithoutAbsent(s[1..], p); }
  }

  lemma TakenOk(s: State, i: nat)
    requires QueueOk(s) && i < |s.queue|
    ensures QueueOk(Taken(s, i))
    ensures forall p :: p in Taken(s, i).queue <==> p in s.queue && p != s.queue[i]
  {
    var q, q' := s.queue, Taken(s, i).queue;
    forall p | p in q && p != q[i] ensures p in q' {
      var j :| 0 <= j < |q| && q[j] == p;
      assert q'[if j < i then j else j - 1] == p;
    }
    forall k | 0 <= k < |q'| ensures q'[k] == q[if k < i then k else k + 1] {}
  }
}
