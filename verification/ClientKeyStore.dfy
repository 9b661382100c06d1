/** Client key admission: the order of the checks, and the sliding one-minute
    window of request stamps kept for each key. */
module ClientKeyStore {
  import opened Options

  datatype Scope = AnyModel | Models(allowed: seq<string>)

  datatype KeyRecord = KeyRecord(id: int, enabled: bool, expiresAt: Option<real>, rpm: int,
                                 quotaTokens: int, consumedTokens: int, models: Scope)

  datatype Decision = Allowed | Denied(status: nat, code: string)

  // What is left of a window at a given time.
  function Live(window: seq<real>, now: real): seq<real> {
    if window != [] && window[0] <= now - 60.0 then Live(window[1..], now) else window
  }

  predicate Expired(r: KeyRecord, now: real) {
    r.expiresAt.Some? && r.expiresAt.value <= now
  }

  /** The decision, given the live stamps of the key. */
  function Decide(r: KeyRecord, model: Option<string>, now: real, live: seq<real>): Decision {
    if !r.enabled then Denied(403, "key_disabled")
    else if Expired(r, now) then Denied(403, "key_expired")
    else if r.rpm > 0 && |live| >= r.rpm then Denied(429, "rate_limit_exceeded")
    else if r.quotaTokens > 0 && r.consumedTokens >= r.quotaTokens then Denied(429, "quota_exceeded")
    else if model.Some? && r.models.Models? && model.value !in r.models.allowed then Denied(403, "model_not_allowed")
    else Allowed
  }

  /** A request is let through exactly when its key is enabled and not past its
      expiry, has room in the minute and in its quota, and may use the model. */
  lemma AllowedExactly(r: KeyRecord, model: Option<string>, now: real, live: seq<real>)
    ensures Decide(r, model, now, live) == Allowed <==>
      && r.enabled && (r.expiresAt.Some? ==> now < r.expiresAt.value)
      && (r.rpm <= 0 || |live| < r.rpm)
      && (r.quotaTokens <= 0 || r.consumedTokens < r.quotaTokens)
      && (model.None? || r.models.AnyModel? || model.value in r.models.allowed)
  {
  }

  /** A refusal names the first reason there is: the key disabled, expired, too
      fast (429), over its quota (429), or not allowed the model. */
  lemma RefusedFor(r: KeyRecord, model: Option<string>, now: real, live: seq<real>)
    ensures var d := Decide(r, model, now, live);
      && (d == Denied(403, "key_disabled") <==> !r.enabled)
      && (d == Denied(403, "key_expired") <==> r.enabled && r.expiresAt.Some? && r.expiresAt.value <= now)
      && (d.Denied? && d.status == 429 ==> (d.code == "rate_limit_exceeded" <==> r.rpm > 0 && |live| >= r.rpm))
      && (d == Denied(429, "quota_exceeded") ==> r.quotaTokens > 0 && r.consumedTokens >= r.quotaTokens)
      && (d == Denied(403, "model_not_allowed") ==> model.Some? && r.models.Models? && model.value !in r.models.allowed)
      && (d.Denied? && d.status != 429 ==>
            d in [Denied(403, "key_disabled"), Denied(403, "key_expired"), Denied(403, "model_not_allowed")])
      && (d.Denied? && d.status == 429 ==> d.code in ["rate_limit_exceeded", "quota_exceeded"])
  {
  }

  // The check reaches the rate window.
  predicate Windowed(r: KeyRecord, now: real) {
    r.enabled && !Expired(r, now) && r.rpm > 0
  }

  class ClientKeyStore {
    var rateWindows: map<int, seq<real>>

    constructor ()
      ensures rateWindows == map[]
    {
      rateWindows := map[];
    }

    function Window(id: int): seq<real>
      reads this
    {
      if id in rateWindows then rateWindows[id] else []
    }

    /** `check_access`: old stamps of this key are discarded on the way, the
        windows of other keys are not touched. */
    method CheckAccess(r: KeyRecord, model: Option<string>, now: real) returns (d: Decision)
      modifies this
      ensures d == Decide(r, model, now, Live(old(Window(r.id)), now))
      ensures Window(r.id) == if Windowed(r, now) then Live(old(Window(r.id)), now) else old(Window(r.id))
      ensures forall id :: id != r.id ==> Window(id) == old(Window(id))
    {
      if !r.enabled { return Denied(403, "key_disabled"); }
      if Expired(r, now) { return Denied(403, "key_expired"); }
      if r.rpm > 0 {
        var window := Window(r.id);
        while window != [] && window[0] <= now - 60.0
          invariant Live(window, now) == Live(old(Window(r.id)), now)
          decreases |window|
        {
          window := window[1..];
        }
        rateWindows := rateWindows[r.id := window];
        if |window| >= r.rpm { return Denied(429, "rate_limit_exceeded"); }
      }
      if r.quotaTokens > 0 && r.consumedTokens >= r.quotaTokens { return Denied(429, "quota_exceeded"); }
      if model.Some? && r.models.Models? && model.value !in r.models.allowed {
        return Denied(403, "model_not_allowed");
      }
      d := Allowed;
    }

    /** `stamp_rate_limit`. */
    method StampRateLimit(id: int, now: real)
      modifies this
      ensures Window(id) == old(Window(id)) + [now]
      ensures forall other :: other != id ==> Window(other) == old(Window(other))
    {
      rateWindows := rateWindows[id := Window(id) + [now]];
    }
  }

  // ---------------------------------------------------------------- whole runs

  /** One request: the record as it is then, the model asked for, the time. */
  datatype Request = Request(r: KeyRecord, model: Option<string>, now: real)

  /** The window kept for one key, and every stamp ever made for it. */
  datatype Ledger = Ledger(window: seq<real>, stamps: seq<real>)

  // A request is checked and, if it is allowed, stamped at the same instant.
  function Serve(l: Ledger, q: Request): Ledger {
    var live := if Windowed(q.r, q.now) then Live(l.window, q.now) else l.window;
    if Decide(q.r, q.model, q.now, Live(l.window, q.now)).Allowed?
    then Ledger(live + [q.now], l.stamps + [q.now])
    else Ledger(live, l.stamps)
  }

  function Run(requests: seq<Request>): Ledger {
    if requests == [] then Ledger([], [])
    else Serve(Run(requests[..|requests| - 1]), requests[|requests| - 1])
  }

  predicate InOrder(times: seq<real>) {
    forall i, j :: 0 <= i < j < |times| ==> times[i] <= times[j]
  }

  // Any rpm + 1 stamps in a row span a minute or more.
  predicate Spaced(stamps: seq<real>, rpm: nat) {
    forall k :: rpm <= k < |stamps| ==> stamps[k - rpm] <= stamps[k] - 60.0
  }

  // The window is the recent end of the stamps; what is older has expired.
  predicate Sliding(l: Ledger, rpm: nat, now: real) {
    Recent(l, now) && Past(l.stamps, now) && InOrder(l.stamps) && Spaced(l.stamps, rpm)
  }

  predicate Recent(l: Ledger, now: real) {
    && |l.window| <= |l.stamps| && l.window == l.stamps[|l.stamps| - |l.window|..]
    && (forall i :: 0 <= i < |l.stamps| - |l.window| ==> l.stamps[i] <= now - 60.0)
  }

  predicate Past(stamps: seq<real>, now: real) {
    forall t :: t in stamps ==> t <= now
  }

  lemma {:induction false} LiveIsSuffix(window: seq<real>, now: real)
    ensures |Live(window, now)| <= |window| && Live(window, now) == window[|window| - |Live(window, now)|..]
    ensures InOrder(window) ==> forall t :: t in Live(window, now) ==> t > now - 60.0
    ensures forall i :: 0 <= i < |window| - |Live(window, now)| ==> window[i] <= now - 60.0
  {
    if window != [] && window[0] <= now - 60.0 {
      LiveIsSuffix(window[1..], now);
    } else if window != [] {
      forall t | t in window ensures InOrder(window) ==> t > now - 60.0 {}
    }
  }

  lemma SuffixOfSuffix(all: seq<real>, window: seq<real>, live: seq<real>)
    requires |live| <= |window| <= |all|
    requires window == all[|all| - |window|..] && live == window[|window| - |live|..]
    ensures live == all[|all| - |live|..]
  {
  }

  // A shorter suffix will do when what it leaves out has expired.
  lemma SuffixRecent(stamps: seq<real>, window: seq<real>, live: seq<real>, earlier: real, now: real)
    requires Recent(Ledger(window, stamps), earlier) && earlier <= now
    requires |live| <= |window| && live == window[|window| - |live|..]
    requires forall i :: 0 <= i < |window| - |live| ==> window[i] <= now - 60.0
    ensures Recent(Ledger(live, stamps), now)
  {
    var gone := |stamps| - |window|;
    SuffixOfSuffix(stamps, window, live);
    forall i | 0 <= i < |stamps| - |live| ensures stamps[i] <= now - 60.0 {
      if i >= gone { assert stamps[i] == window[i - gone]; }
    }
  }

  lemma TrimmedRecent(l: Ledger, earlier: real, now: real)
    requires Recent(l, earlier) && earlier <= now
    ensures Recent(l.(window := Live(l.window, now)), now)
  {
    LiveIsSuffix(l.window, now);
    SuffixRecent(l.stamps, l.window, Live(l.window, now), earlier, now);
  }

  lemma PastLater(stamps: seq<real>, earlier: real, now: real)
    requires Past(stamps, earlier) && earlier <= now
    ensures Past(stamps, now)
  {
  }

  lemma TrimmedSlides(l: Ledger, rpm: nat, earlier: real, now: real)
    requires Sliding(l, rpm, earlier) && earlier <= now
    ensures Sliding(l.(window := Live(l.window, now)), rpm, now)
  {
    TrimmedRecent(l, earlier, now);
    PastLater(l.stamps, earlier, now);
  }

  lemma StampSlides(l: Ledger, rpm: nat, now: real)
    requires Sliding(l, rpm, now) && |l.window| < rpm
    ensures Sliding(Ledger(l.window + [now], l.stamps + [now]), rpm, now)
  {
    var more := l.stamps + [now];
    forall i | 0 <= i < |l.stamps| ensures more[i] <= now { assert l.stamps[i] in l.stamps; }
  }

  lemma {:induction false} ServeSlides(l: Ledger, rpm: nat, earlier: real, q: Request)
    requires Sliding(l, rpm, earlier) && earlier <= q.now && q.r.rpm == rpm > 0
    ensures Sliding(Serve(l, q), rpm, q.now)
  {
    if Windowed(q.r, q.now) {
      TrimmedSlides(l, rpm, earlier, q.now);
      var trimmed := l.(window := Live(l.window, q.now));
      if |trimmed.window| < rpm { StampSlides(trimmed, rpm, q.now); }
    }
  }

  lemma {:induction false} RunSlides(requests: seq<Request>, rpm: nat)
    requires rpm > 0 && forall q :: q in requests ==> q.r.rpm == rpm
    requires forall i, j :: 0 <= i < j < |requests| ==> requests[i].now <= requests[j].now
    ensures requests != [] ==> Sliding(Run(requests), rpm, requests[|requests| - 1].now)
  {
    if requests != [] {
      var front, q := requests[..|requests| - 1], requests[|requests| - 1];
      assert forall p :: p in front ==> p in requests;
      RunSlides(front, rpm);
      if front == [] {
        assert Sliding(Run(front), rpm, q.now);
        ServeSlides(Run(front), rpm, q.now, q);
      } else {
        ServeSlides(Run(front), rpm, front[|front| - 1].now, q);
      }
    }
  }

  /** A minute, open at one end: (start, start + 60] or [start, start + 60). */
  datatype Minute = After(start: real) | From(start: real)

  predicate In(m: Minute, t: real) {
    match m
    case After(a) => a < t <= a + 60.0
    case From(a) => a <= t < a + 60.0
  }

  function Count(stamps: seq<real>, m: Minute): nat {
    if stamps == [] then 0
    else Count(stamps[..|stamps| - 1], m) + if In(m, stamps[|stamps| - 1]) then 1 else 0
  }

  lemma {:induction false} CountAtMost(stamps: seq<real>, m: Minute)
    ensures Count(stamps, m) <= |stamps|
  {
    if stamps != [] { CountAtMost(stamps[..|stamps| - 1], m); }
  }

  lemma {:induction false} CountNone(stamps: seq<real>, m: Minute)
    requires forall t :: t in stamps ==> !In(m, t)
    ensures Count(stamps, m) == 0
  {
    if stamps != [] {
      assert stamps[|stamps| - 1] in stamps;
      CountNone(stamps[..|stamps| - 1], m);
    }
  }

  lemma {:induction false} CountConcat(a: seq<real>, b: seq<real>, m: Minute)
    ensures Count(a + b, m) == Count(a, m) + Count(b, m)
  {
    if b == [] {
      assert a + b == a;
    } else {
      assert (a + b)[..|a + b| - 1] == a + b[..|b| - 1];
      CountConcat(a, b[..|b| - 1], m);
    }
  }

  lemma {:induction false} CountAll(stamps: seq<real>, m: Minute)
    requires forall t :: t in stamps ==> In(m, t)
    ensures Count(stamps, m) == |stamps|
  {
    if stamps != [] {
      assert stamps[|stamps| - 1] in stamps;
      CountAll(stamps[..|stamps| - 1], m);
    }
  }

  lemma {:induction false} SpacedCount(stamps: seq<real>, rpm: nat, m: Minute)
    requires InOrder(stamps) && Spaced(stamps, rpm)
    ensures Count(stamps, m) <= rpm
  {
    var n := |stamps|;
    if n > rpm {
      if In(m, stamps[n - 1]) {
        var first, last := stamps[..n - rpm], stamps[n - rpm..];
        assert stamps == first + last;
        forall t | t in first ensures !In(m, t) { assert t <= stamps[n - 1 - rpm]; }
        CountConcat(first, last, m);
        CountNone(first, m);
        CountAtMost(last, m);
      } else {
        SpacedCount(stamps[..n - 1], rpm, m);
      }
    } else {
      CountAtMost(stamps, m);
    }
  }

  /** The window never forgets a stamp that still counts: the number of live
      stamps is the number of all stamps in the minute up to now. */
  lemma {:induction false} LiveCountsLastMinute(l: Ledger, rpm: nat, earlier: real, now: real)
    requires Sliding(l, rpm, earlier) && earlier <= now
    ensures |Live(l.window, now)| == Count(l.stamps, After(now - 60.0))
  {
    TrimmedSlides(l, rpm, earlier, now);
    var gone := SlidingSplits(l.(window := Live(l.window, now)), rpm, now);
    WindowInOrder(l, rpm, earlier);
    LiveIsSuffix(l.window, now);
    CountSplit(gone, Live(l.window, now), now);
  }

  lemma SlidingSplits(l: Ledger, rpm: nat, now: real) returns (gone: seq<real>)
    requires Sliding(l, rpm, now)
    ensures l.stamps == gone + l.window
    ensures forall t :: t in gone ==> t <= now - 60.0
    ensures forall t :: t in l.window ==> t <= now
  {
    gone := l.stamps[..|l.stamps| - |l.window|];
    forall t | t in l.window ensures t in l.stamps {}
  }

  lemma WindowInOrder(l: Ledger, rpm: nat, now: real)
    requires Sliding(l, rpm, now)
    ensures InOrder(l.window)
  {
  }

  lemma CountSplit(gone: seq<real>, live: seq<real>, now: real)
    requires forall t :: t in gone ==> t <= now - 60.0
    requires forall t :: t in live ==> now - 60.0 < t <= now
    ensures Count(gone + live, After(now - 60.0)) == |live|
  {
    CountConcat(gone, live, After(now - 60.0));
    CountNone(gone, After(now - 60.0));
    CountAll(live, After(now - 60.0));
  }

  /** A request is refused for its rate exactly when the minute up to now
      already holds rpm stamps of the run (and no earlier check refuses it). */
  lemma {:induction false} RateRefusedExactly(requests: seq<Request>, rpm: nat, q: Request)
    requires rpm > 0 && forall p :: p in requests + [q] ==> p.r.rpm == rpm
    requires forall i, j :: 0 <= i < j < |requests| ==> requests[i].now <= requests[j].now
    requires requests != [] ==> requests[|requests| - 1].now <= q.now
    requires q.r.enabled && !Expired(q.r, q.now)
    ensures var l := Run(requests);
      Decide(q.r, q.model, q.now, Live(l.window, q.now)) == Denied(429, "rate_limit_exceeded")
      <==> Count(l.stamps, After(q.now - 60.0)) >= rpm
  {
    assert q in requests + [q];
    forall p | p in requests ensures p.r.rpm == rpm { assert p in requests + [q]; }
    RunSlides(requests, rpm);
    RefusedAt(Run(requests), rpm, if requests == [] then q.now else requests[|requests| - 1].now, q);
  }

  lemma RefusedAt(l: Ledger, rpm: nat, earlier: real, q: Request)
    requires Sliding(l, rpm, earlier) && earlier <= q.now && q.r.rpm == rpm > 0
    requires q.r.enabled && !Expired(q.r, q.now)
    ensures Decide(q.r, q.model, q.now, Live(l.window, q.now)) == Denied(429, "rate_limit_exceeded")
       <==> Count(l.stamps, After(q.now - 60.0)) >= rpm
  {
    LiveCountsLastMinute(l, rpm, earlier, q.now);
  }
}
