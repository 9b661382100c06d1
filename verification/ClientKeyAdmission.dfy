/** The rate limit as the request handler uses it: a request is checked, and
    stamped in a second call with its own clock reading, so that other requests
    of the same key can be checked in between. */
module ClientKeyAdmission {
  import opened Options
  import opened ClientKeyStore
  import S = ClientKeyStore

  /** One key: the window kept for it, every stamp ever made, and the requests
      that passed their check and are not stamped yet. */
  datatype Desk = Desk(window: seq<real>, stamps: seq<real>, pending: nat)

  datatype Move =
    | Check(r: KeyRecord, model: Option<string>, at: real)
    | Stamp(at: real)

  const INITIAL := Desk([], [], 0)

  function Next(d: Desk, move: Move): Desk
    requires move.Stamp? ==> d.pending > 0
  {
    match move
    case Check(r, model, at) =>
      Desk(if Windowed(r, at) then Live(d.window, at) else d.window, d.stamps,
           if Decide(r, model, at, Live(d.window, at)).Allowed? then d.pending + 1 else d.pending)
    case Stamp(at) => Desk(d.window + [at], d.stamps + [at], d.pending - 1)
  }

  predicate Run(moves: seq<Move>)
    decreases |moves|, 0
  {
    moves == [] ||
    (Run(moves[..|moves| - 1]) && (moves[|moves| - 1].Stamp? ==> After(moves[..|moves| - 1]).pending > 0))
  }

  function After(moves: seq<Move>): Desk
    requires Run(moves)
    decreases |moves|, 1
  {
    if moves == [] then INITIAL else Next(After(moves[..|moves| - 1]), moves[|moves| - 1])
  }

  // The most requests that ever were between their check and their stamp.
  function Peak(moves: seq<Move>): nat
    requires Run(moves)
  {
    if moves == [] then 0 else
    var front, pending := Peak(moves[..|moves| - 1]), After(moves).pending;
    if pending > front then pending else front
  }

  // One rate for the whole run, on a clock that does not go back.
  predicate Steady(moves: seq<Move>, rpm: nat) {
    && (forall i :: 0 <= i < |moves| && moves[i].Check? ==> moves[i].r.rpm == rpm)
    && (forall i, j :: 0 <= i < j < |moves| ==> moves[i].at <= moves[j].at)
  }

  function Book(d: Desk): Ledger {
    Ledger(d.window, d.stamps)
  }

  // The stamps that still count, with those that are owed, fit into the bound.
  predicate Fits(d: Desk, bound: nat, now: real) {
    Sliding(Book(d), bound, now) && |Live(d.window, now)| + d.pending <= bound
  }

  // ------------------------------------------------------------- live stamps

  lemma {:induction false} LiveSnoc(window: seq<real>, at: real)
    ensures Live(window + [at], at) == Live(window, at) + [at]
  {
    if window == [] {
      assert window + [at] == [at] && [] + [at] == [at];
    } else if window[0] <= at - 60.0 {
      assert (window + [at])[1..] == window[1..] + [at];
      LiveSnoc(window[1..], at);
    }
  }

  lemma {:induction false} LiveShrinks(window: seq<real>, earlier: real, now: real)
    requires earlier <= now
    ensures |Live(window, now)| <= |Live(window, earlier)|
  {
    if window != [] && window[0] <= now - 60.0 {
      LiveShrinks(window[1..], earlier, now);
      if window[0] > earlier - 60.0 { LiveIsSuffix(window[1..], earlier); }
    }
  }

  lemma {:induction false} LiveAgain(window: seq<real>, now: real)
    ensures Live(Live(window, now), now) == Live(window, now)
  {
    if window != [] && window[0] <= now - 60.0 { LiveAgain(window[1..], now); }
  }

  lemma LaterFits(d: Desk, bound: nat, earlier: real, now: real)
    requires Fits(d, bound, earlier) && earlier <= now
    ensures Fits(d, bound, now)
  {
    LiveShrinks(d.window, earlier, now);
  }

  // ------------------------------------------------------------ the two moves

  lemma StampFits(d: Desk, bound: nat, at: real)
    requires Fits(d, bound, at) && d.pending > 0
    ensures Fits(Next(d, Stamp(at)), bound, at)
  {
    var trimmed := Ledger(Live(d.window, at), d.stamps);
    TrimmedSlides(Book(d), bound, at, at);
    StampSlides(trimmed, bound, at);
    LiveSnoc(d.window, at);
  }

  // Only a request within the limit passes.
  lemma AllowedWithin(r: KeyRecord, model: Option<string>, at: real, live: seq<real>)
    requires r.rpm > 0 && Decide(r, model, at, live).Allowed?
    ensures |live| < r.rpm
  {
  }

  // A check trims the window or leaves it.
  lemma CheckSlides(d: Desk, bound: nat, move: Move)
    requires move.Check? && Sliding(Book(d), bound, move.at)
    ensures Sliding(Book(Next(d, move)), bound, move.at)
    ensures Live(Next(d, move).window, move.at) == Live(d.window, move.at)
  {
    TrimmedSlides(Book(d), bound, move.at, move.at);
    LiveAgain(d.window, move.at);
  }

  lemma CheckFits(d: Desk, rpm: nat, inFlight: nat, move: Move)
    requires move.Check? && move.r.rpm == rpm > 0 && inFlight > 0
    requires Fits(d, rpm - 1 + inFlight, move.at) && Next(d, move).pending <= inFlight
    ensures Fits(Next(d, move), rpm - 1 + inFlight, move.at)
  {
    CheckSlides(d, rpm - 1 + inFlight, move);
    if Next(d, move).pending > d.pending {
      AllowedWithin(move.r, move.model, move.at, Live(d.window, move.at));
    }
  }

  lemma {:induction false} RunFits(moves: seq<Move>, rpm: nat, inFlight: nat)
    requires Run(moves) && Steady(moves, rpm) && rpm > 0 && inFlight > 0 && Peak(moves) <= inFlight
    ensures moves != [] ==> Fits(After(moves), rpm - 1 + inFlight, moves[|moves| - 1].at)
  {
    if moves != [] {
      var front, move := moves[..|moves| - 1], moves[|moves| - 1];
      var bound := rpm - 1 + inFlight;
      SteadyFront(moves, rpm);
      PeakFront(moves);
      RunFits(front, rpm, inFlight);
      if front != [] { LaterFits(After(front), bound, front[|front| - 1].at, move.at); }
      MoveFits(After(front), rpm, inFlight, move);
    }
  }

  lemma PeakFront(moves: seq<Move>)
    requires moves != [] && Run(moves)
    ensures var front, move := moves[..|moves| - 1], moves[|moves| - 1];
            && Run(front) && (move.Stamp? ==> After(front).pending > 0)
            && After(moves) == Next(After(front), move)
            && Peak(front) <= Peak(moves) && After(moves).pending <= Peak(moves)
  {
  }

  lemma SteadyFront(moves: seq<Move>, rpm: nat)
    requires moves != [] && Steady(moves, rpm)
    ensures Steady(moves[..|moves| - 1], rpm)
    ensures |moves| > 1 ==> moves[|moves| - 2].at <= moves[|moves| - 1].at
    ensures moves[|moves| - 1].Check? ==> moves[|moves| - 1].r.rpm == rpm
  {
  }

  lemma MoveFits(d: Desk, rpm: nat, inFlight: nat, move: Move)
    requires rpm > 0 && inFlight > 0 && Fits(d, rpm - 1 + inFlight, move.at)
    requires if move.Stamp? then d.pending > 0 else move.r.rpm == rpm
    requires Next(d, move).pending <= inFlight
    ensures Fits(Next(d, move), rpm - 1 + inFlight, move.at)
  {
    if move.Stamp? { StampFits(d, rpm - 1 + inFlight, move.at); } else { CheckFits(d, rpm, inFlight, move); }
  }

  /** No half-open minute of any run holds more stamps than the rate, plus the
      requests that can be in flight beside the one being checked. */
  lemma {:induction false} MinuteBounded(moves: seq<Move>, rpm: nat, m: Minute)
    requires Run(moves) && Steady(moves, rpm) && rpm > 0
    ensures Count(After(moves).stamps, m) <= if Peak(moves) <= 1 then rpm else rpm - 1 + Peak(moves)
  {
    var inFlight := if Peak(moves) == 0 then 1 else Peak(moves);
    RunFits(moves, rpm, inFlight);
    if moves != [] { SpacedCount(After(moves).stamps, rpm - 1 + inFlight, m); }
  }

  // No request is let through while another waits for its stamp.
  predicate OneAtATime(moves: seq<Move>)
    requires Run(moves)
  {
    moves == [] || (OneAtATime(moves[..|moves| - 1]) && After(moves).pending <= 1)
  }

  lemma {:induction false} OneAtATimePeak(moves: seq<Move>)
    requires Run(moves) && OneAtATime(moves)
    ensures Peak(moves) <= 1
  {
    if moves != [] { OneAtATimePeak(moves[..|moves| - 1]); }
  }

  /** The limit holds when no request of the key is let through between another
      one's check and its stamp, however long that takes. */
  lemma {:induction false} LimitHolds(moves: seq<Move>, rpm: nat, m: Minute)
    requires Run(moves) && Steady(moves, rpm) && rpm > 0 && OneAtATime(moves)
    ensures Count(After(moves).stamps, m) <= rpm
  {
    OneAtATimePeak(moves);
    MinuteBounded(moves, rpm, m);
  }

  // ------------------------------------------------------- when it can be broken

  // Times at which some of the owed stamps may still be made.
  predicate Completes(d: Desk, now: real, tail: seq<real>) {
    |tail| <= d.pending && InOrder(tail) && forall t :: t in tail ==> now <= t
  }

  lemma {:induction false} CompletedFits(d: Desk, bound: nat, now: real, tail: seq<real>)
    requires Fits(d, bound, now) && Completes(d, now, tail)
    ensures InOrder(d.stamps + tail) && Spaced(d.stamps + tail, bound)
    decreases |tail|
  {
    if tail == [] {
      assert d.stamps + tail == d.stamps;
    } else {
      var at := tail[0];
      assert at in tail;
      LaterFits(d, bound, now, at);
      StampFits(d, bound, at);
      assert tail == [at] + tail[1..];
      forall t | t in tail[1..] ensures at <= t {
        var i :| 0 <= i < |tail[1..]| && tail[1..][i] == t;
        assert tail[i + 1] == t;
      }
      CompletedFits(Next(d, Stamp(at)), bound, at, tail[1..]);
      assert d.stamps + tail == (d.stamps + [at]) + tail[1..];
    }
  }

  function Repeat(at: real, n: nat): seq<real> {
    if n == 0 then [] else Repeat(at, n - 1) + [at]
  }

  lemma {:induction false} RepeatAll(at: real, n: nat)
    ensures |Repeat(at, n)| == n && forall i :: 0 <= i < n ==> Repeat(at, n)[i] == at
  {
    if n > 0 { RepeatAll(at, n - 1); }
  }

  /** While the limit has held so far, the owed stamps can break it if and only
      if the live stamps and the owed ones together exceed the rate: then making
      them at once is enough, and otherwise no timing of them is. */
  lemma {:induction false} BreaksExactly(d: Desk, rpm: nat, now: real)
    requires Sliding(Book(d), rpm, now)
    ensures (exists tail, m :: Completes(d, now, tail) && Count(d.stamps + tail, m) > rpm)
       <==> |Live(d.window, now)| + d.pending > rpm
  {
    if |Live(d.window, now)| + d.pending > rpm {
      AtOnceBreaks(d, rpm, now);
    } else {
      forall tail, m | Completes(d, now, tail) ensures Count(d.stamps + tail, m) <= rpm {
        CompletedFits(d, rpm, now, tail);
        SpacedCount(d.stamps + tail, rpm, m);
      }
    }
  }

  // All owed stamps made now, counted in the minute up to now.
  lemma AtOnceBreaks(d: Desk, rpm: nat, now: real)
    requires Sliding(Book(d), rpm, now) && |Live(d.window, now)| + d.pending > rpm
    ensures exists tail, m :: Completes(d, now, tail) && Count(d.stamps + tail, m) > rpm
  {
    var tail, m := Repeat(now, d.pending), Minute.After(now - 60.0);
    RepeatAll(now, d.pending);
    CountConcat(d.stamps, tail, m);
    CountAll(tail, m);
    LiveCountsLastMinute(Book(d), rpm, now, now);
    assert Completes(d, now, tail);
    assert Count(d.stamps + tail, m) > rpm;
  }

  // -------------------------------------------------------------- a broken run

  // n checks at one instant, then n stamps at that instant.
  function Checks(r: KeyRecord, now: real, n: nat): seq<Move> {
    if n == 0 then [] else Checks(r, now, n - 1) + [Check(r, None, now)]
  }

  function Burst(r: KeyRecord, now: real, n: nat, stamped: nat): seq<Move> {
    if stamped == 0 then Checks(r, now, n) else Burst(r, now, n, stamped - 1) + [Stamp(now)]
  }

  lemma RunSnoc(moves: seq<Move>, move: Move)
    requires Run(moves) && (move.Stamp? ==> After(moves).pending > 0)
    ensures Run(moves + [move]) && After(moves + [move]) == Next(After(moves), move)
  {
    assert (moves + [move])[..|moves|] == moves;
  }

  lemma {:induction false} ChecksPass(r: KeyRecord, now: real, n: nat)
    requires Decide(r, None, now, []).Allowed?
    ensures Run(Checks(r, now, n)) && After(Checks(r, now, n)) == Desk([], [], n)
  {
    if n > 0 {
      ChecksPass(r, now, n - 1);
      RunSnoc(Checks(r, now, n - 1), Check(r, None, now));
    }
  }

  lemma {:induction false} BurstRuns(r: KeyRecord, now: real, n: nat, stamped: nat)
    requires Decide(r, None, now, []).Allowed? && stamped <= n
    ensures Run(Burst(r, now, n, stamped))
    ensures After(Burst(r, now, n, stamped)) == Desk(Repeat(now, stamped), Repeat(now, stamped), n - stamped)
  {
    ChecksPass(r, now, n);
    if stamped > 0 {
      BurstRuns(r, now, n, stamped - 1);
      RunSnoc(Burst(r, now, n, stamped - 1), Stamp(now));
    }
  }

  /** The limit is broken for every rate and any number of requests: n checks
      that arrive before the first stamp all pass, and the minute holds n. */
  lemma {:induction false} SeparateStampsExceed(r: KeyRecord, now: real, n: nat)
    requires Decide(r, None, now, []).Allowed?
    ensures Run(Burst(r, now, n, n)) && Count(After(Burst(r, now, n, n)).stamps, From(now)) == n
  {
    BurstRuns(r, now, n, n);
    RepeatAll(now, n);
    CountAll(Repeat(now, n), From(now));
  }

  // ----------------------------------------------------- one request at a time

  // Each request is checked and, when it passes, stamped at once.
  function Handled(requests: seq<Request>): seq<Move> {
    if requests == [] then [] else
    var front, q := requests[..|requests| - 1], requests[|requests| - 1];
    Handled(front) + [Check(q.r, q.model, q.now)] +
    if Decide(q.r, q.model, q.now, Live(S.Run(front).window, q.now)).Allowed? then [Stamp(q.now)] else []
  }

  /** Handled one at a time, the separate checks and stamps of any requests keep
      the very window and stamps that serving each in one piece does. */
  lemma {:induction false} ServedAtOnce(requests: seq<Request>)
    ensures Run(Handled(requests)) && After(Handled(requests)).pending == 0
    ensures Book(After(Handled(requests))) == S.Run(requests)
  {
    if requests != [] {
      var front, q := requests[..|requests| - 1], requests[|requests| - 1];
      var moves := Handled(front);
      ServedAtOnce(front);
      MoveMade(moves, Check(q.r, q.model, q.now));
      var checked := moves + [Check(q.r, q.model, q.now)];
      if Decide(q.r, q.model, q.now, Live(S.Run(front).window, q.now)).Allowed? {
        MoveMade(checked, Stamp(q.now));
        assert Handled(requests) == checked + [Stamp(q.now)];
      } else {
        assert Handled(requests) == checked + [] == checked;
      }
    }
  }

  lemma MoveMade(moves: seq<Move>, move: Move)
    requires Run(moves) && (move.Stamp? ==> After(moves).pending > 0)
    ensures Run(moves + [move]) && After(moves + [move]) == Next(After(moves), move)
  {
    assert (moves + [move])[..|moves|] == moves;
  }
}
