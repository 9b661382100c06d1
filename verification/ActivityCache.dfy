/** The provider-activity summary: a cache that is keyed by a version number and
    filled by readers that compute outside the lock. */
module ActivityCache {
  import opened Options

  /** A finished request or a health probe, as far as the lists treat it. */
  datatype Item = Item(id: string, body: string)

  type Summary = string

  /** The summary of two lists, for a limit and with or without events; it also
      reads the clock, which the list of readings stands for. */
  type Summarise = (seq<Item>, seq<Item>, int, bool, seq<real>) -> Summary

  datatype CacheKey = CacheKey(version: nat, limit: int, events: bool)

  datatype Entry = Entry(summary: Summary, clock: seq<real>)

  datatype Board = Board(recent: seq<Item>, probes: seq<Item>, version: nat, cache: map<CacheKey, Entry>)

  /** What a reader takes with it when it leaves the lock. */
  datatype Snapshot = Snapshot(key: CacheKey, recent: seq<Item>, probes: seq<Item>)

  datatype Limits = Limits(recent: nat, probes: nat)

  datatype Mutation =
    | FinishRequest(item: Item)
    | RecordProbe(item: Item)
    | DeleteRequests(ids: set<string>)
    | DeleteMatching(matches: Item -> bool)
    | ClearHistory
    | Reset
    | Restore(stored: Option<seq<Item>>)

  function Clamp(limit: int): int {
    if limit < 1 then 1 else if limit > 200 then 200 else limit
  }

  // deque.appendleft with a maximal length.
  function Pushed(items: seq<Item>, x: Item, limit: nat): seq<Item> {
    if |items| < limit then [x] + items else ([x] + items)[..limit]
  }

  // deque(items, maxlen): the last ones stay.
  function Bounded(items: seq<Item>, limit: nat): seq<Item> {
    if |items| <= limit then items else items[|items| - limit..]
  }

  // The items that a filter does not match.
  function Kept(items: seq<Item>, gone: Item -> bool): seq<Item> {
    if items == [] then []
    else Kept(items[..|items| - 1], gone) + (if gone(items[|items| - 1]) then [] else [items[|items| - 1]])
  }

  function Listed(ids: set<string>): Item -> bool {
    (x: Item) => x.id in ids
  }

  // Every mutator ends with `_invalidate_provider_activity_locked`.
  function Mutated(c: Limits, b: Board, m: Mutation): Board {
    var (recent, probes) := match m {
      case FinishRequest(x) => (Pushed(b.recent, x, c.recent), b.probes)
      case RecordProbe(x) => (b.recent, Pushed(b.probes, x, c.probes))
      case DeleteRequests(ids) => (Bounded(Kept(b.recent, Listed(ids)), c.recent), b.probes)
      case DeleteMatching(matches) => (Bounded(Kept(b.recent, matches), c.recent), b.probes)
      case ClearHistory => ([], b.probes)
      case Reset => ([], [])
      case Restore(stored) => (if stored.Some? then Bounded(stored.value, c.recent) else b.recent, [])
    };
    Board(recent, probes, b.version + 1, map[])
  }

  function Taken(b: Board, limit: int, events: bool): Snapshot {
    Snapshot(CacheKey(b.version, Clamp(limit), events), b.recent, b.probes)
  }

  function Computed(f: Summarise, s: Snapshot, clock: seq<real>): Entry {
    Entry(f(s.recent, s.probes, s.key.limit, s.key.events, clock), clock)
  }

  function Published(b: Board, key: CacheKey, e: Entry): Board {
    if key.version == b.version then b.(cache := b.cache[key := e]) else b
  }

  // ------------------------------------------------------ what becomes of the lists

  /** A new item goes to the front; the oldest goes when the list is full. */
  lemma PushedFirst(items: seq<Item>, x: Item, limit: nat)
    requires |items| <= limit
    ensures limit > 0 ==> Pushed(items, x, limit) != [] && Pushed(items, x, limit)[0] == x
    ensures |Pushed(items, x, limit)| == if |items| < limit then |items| + 1 else limit
    ensures forall i :: 0 < i < |Pushed(items, x, limit)| ==> Pushed(items, x, limit)[i] == items[i - 1]
  {
  }

  /** A filter keeps the order of what it leaves. */
  lemma {:induction false} KeptInOrder(a: seq<Item>, b: seq<Item>, gone: Item -> bool)
    ensures Kept(a + b, gone) == Kept(a, gone) + Kept(b, gone)
  {
    if b == [] {
      assert a + b == a && Kept(a, gone) + [] == Kept(a, gone);
    } else {
      var front, last := b[..|b| - 1], b[|b| - 1];
      assert (a + b)[..|a + b| - 1] == a + front && (a + b)[|a + b| - 1] == last;
      KeptInOrder(a, front, gone);
    }
  }

  /** It takes away exactly what it matches. */
  lemma {:induction false} KeptExactly(items: seq<Item>, gone: Item -> bool, x: Item)
    ensures multiset(Kept(items, gone))[x] == if gone(x) then 0 else multiset(items)[x]
    ensures |Kept(items, gone)| <= |items|
  {
    if items != [] {
      var front, last := items[..|items| - 1], items[|items| - 1];
      assert items == front + [last];
      KeptExactly(front, gone, x);
    }
  }

  /** Deleting requests by id leaves the others, of both lists, as they are. */
  lemma {:induction false} DeletionShows(c: Limits, b: Board, ids: set<string>, x: Item)
    requires |b.recent| <= c.recent
    ensures var b' := Mutated(c, b, DeleteRequests(ids));
            b'.probes == b.probes && multiset(b'.recent)[x] == if x.id in ids then 0 else multiset(b.recent)[x]
  {
    KeptExactly(b.recent, Listed(ids), x);
  }

  /** So does deleting those that a filter matches. */
  lemma {:induction false} MatchingShows(c: Limits, b: Board, matches: Item -> bool, x: Item)
    requires |b.recent| <= c.recent
    ensures var b' := Mutated(c, b, DeleteMatching(matches));
            b'.probes == b.probes && multiset(b'.recent)[x] == if matches(x) then 0 else multiset(b.recent)[x]
  {
    KeptExactly(b.recent, matches, x);
  }

  /** A clear empties the requests, a reset both lists; a restore empties the
      probes and puts the last of the stored requests that fit in their place. */
  lemma ClearsShow(c: Limits, b: Board, stored: seq<Item>)
    ensures Mutated(c, b, ClearHistory).recent == [] && Mutated(c, b, ClearHistory).probes == b.probes
    ensures Mutated(c, b, Reset).recent == [] && Mutated(c, b, Reset).probes == []
    ensures Mutated(c, b, Restore(None)).recent == b.recent && Mutated(c, b, Restore(None)).probes == []
    ensures var n := |stored| - c.recent;
      Mutated(c, b, Restore(Some(stored))).recent == if n <= 0 then stored else stored[n..]
    ensures Mutated(c, b, Restore(Some(stored))).probes == []
  {
  }

  /** A finished request joins the requests only, a probe the probes only. */
  lemma ArrivalsShow(c: Limits, b: Board, x: Item)
    requires |b.recent| <= c.recent && |b.probes| <= c.probes
    ensures var r, p := Mutated(c, b, FinishRequest(x)), Mutated(c, b, RecordProbe(x));
      && r.probes == b.probes && p.recent == b.recent
      && (c.recent > 0 ==> r.recent != [] && r.recent[0] == x) && (c.probes > 0 ==> p.probes != [] && p.probes[0] == x)
  {
  }

  /** A summary is asked for with a limit from 1 to 200. */
  lemma LimitAsked(b: Board, limit: int, events: bool)
    ensures 1 <= Taken(b, limit, events).key.limit <= 200
    ensures 1 <= limit <= 200 ==> Taken(b, limit, events).key.limit == limit
    ensures limit > 200 ==> Taken(b, limit, events).key.limit == 200
    ensures limit < 1 ==> Taken(b, limit, events).key.limit == 1
  {
  }

  class ActivityBoard {
    const c: Limits
    var recent: seq<Item>
    var probes: seq<Item>
    var version: nat
    var cache: map<CacheKey, Entry>

    function View(): Board
      reads this
    {
      Board(recent, probes, version, cache)
    }

    constructor (c: Limits)
      ensures this.c == c && View() == Board([], [], 0, map[])
    {
      this.c := c;
      recent, probes, version, cache := [], [], 0, map[];
    }

    /** `_invalidate_provider_activity_locked`. */
    method Invalidate()
      modifies this`version, this`cache
      ensures version == old(version) + 1 && cache == map[]
    {
      version := version + 1;
      cache := map[];
    }

    // The list comprehension of the two deletions.
    method Remaining(gone: Item -> bool) returns (remaining: seq<Item>)
      ensures remaining == Kept(recent, gone)
    {
      remaining := [];
      for i := 0 to |recent|
        invariant remaining == Kept(recent[..i], gone)
      {
        assert recent[..i + 1][..i] == recent[..i];
        if !gone(recent[i]) { remaining := remaining + [recent[i]]; }
      }
      assert recent[..|recent|] == recent;
    }

    /** The lock regions that change the two lists. */
    method Mutate(m: Mutation)
      modifies this
      ensures View() == Mutated(c, old(View()), m)
    {
      match m {
        case FinishRequest(x) => recent := Pushed(recent, x, c.recent);
        case RecordProbe(x) => probes := Pushed(probes, x, c.probes);
        case DeleteRequests(ids) =>
          var remaining := Remaining(Listed(ids));
          recent := Bounded(remaining, c.recent);
        case DeleteMatching(matches) =>
          var remaining := Remaining(matches);
          recent := Bounded(remaining, c.recent);
        case ClearHistory => recent := [];
        case Reset => recent, probes := [], [];
        case Restore(stored) =>
          if stored.Some? { recent := Bounded(stored.value, c.recent); }
          probes := [];
      }
      Invalidate();
    }

    /** The first lock region of `provider_activity_summary`. */
    method Look(limit: int, events: bool) returns (hit: Option<Summary>, s: Snapshot)
      ensures s == Taken(View(), limit, events)
      ensures hit == if s.key in cache then Some(cache[s.key].summary) else None
    {
      s := Snapshot(CacheKey(version, Clamp(limit), events), recent, probes);
      hit := if s.key in cache then Some(cache[s.key].summary) else None;
    }

    /** The last lock region. */
    method Publish(key: CacheKey, e: Entry)
      modifies this`cache
      ensures View() == Published(old(View()), key, e)
    {
      if key.version == version { cache := cache[key := e]; }
    }
  }

  // ------------------------------------------------------- readers and writers

  type Thread = nat

  /** A reader between the two lock regions: computing, or about to publish. */
  datatype Reader = Computing(s: Snapshot) | Publishing(s: Snapshot, e: Entry)

  datatype System = System(board: Board, readers: map<Thread, Reader>)

  datatype Step =
    | Change(m: Mutation)
    | Read(t: Thread, limit: int, events: bool)
    | Compute(t: Thread, clock: seq<real>)
    | Store(t: Thread)

  const INITIAL := System(Board([], [], 0, map[]), map[])

  predicate Enabled(s: System, step: Step) {
    match step
    case Change(_) => true
    case Read(t, _, _) => t !in s.readers
    case Compute(t, _) => t in s.readers && s.readers[t].Computing?
    case Store(t) => t in s.readers && s.readers[t].Publishing?
  }

  function Next(c: Limits, f: Summarise, s: System, step: Step): System
    requires Enabled(s, step)
  {
    match step
    case Change(m) => s.(board := Mutated(c, s.board, m))
    case Read(t, limit, events) =>
      var snap := Taken(s.board, limit, events);
      if snap.key in s.board.cache then s else s.(readers := s.readers[t := Computing(snap)])
    case Compute(t, clock) =>
      s.(readers := s.readers[t := Publishing(s.readers[t].s, Computed(f, s.readers[t].s, clock))])
    case Store(t) =>
      System(Published(s.board, s.readers[t].s.key, s.readers[t].e), s.readers - {t})
  }

  // An entry is what recomputing from the current lists gives.
  predicate Current(f: Summarise, b: Board, key: CacheKey, e: Entry) {
    key.version == b.version && e.summary == f(b.recent, b.probes, key.limit, key.events, e.clock)
  }

  // A snapshot of the current version is a copy of the current lists.
  predicate Faithful(f: Summarise, b: Board, r: Reader) {
    && r.s.key.version <= b.version
    && (r.s.key.version == b.version ==> r.s.recent == b.recent && r.s.probes == b.probes)
    && (r.Publishing? ==> r.e == Computed(f, r.s, r.e.clock))
  }

  /** The cache holds current entries only, whoever is still computing. */
  ghost predicate Coherent(f: Summarise, s: System) {
    && (forall key :: key in s.board.cache ==> Current(f, s.board, key, s.board.cache[key]))
    && (forall t :: t in s.readers ==> Faithful(f, s.board, s.readers[t]))
  }

  lemma {:induction false} StepCoherent(c: Limits, f: Summarise, s: System, step: Step)
    requires Coherent(f, s) && Enabled(s, step)
    ensures Coherent(f, Next(c, f, s, step))
  {
    var s' := Next(c, f, s, step);
    forall t | t in s'.readers ensures Faithful(f, s'.board, s'.readers[t]) {
      if t in s.readers { assert Faithful(f, s.board, s.readers[t]); }
    }
    if step.Store? { assert Faithful(f, s.board, s.readers[step.t]); }
  }

  predicate Run(c: Limits, f: Summarise, s: System, steps: seq<Step>)
    decreases |steps|
  {
    steps == [] || (Enabled(s, steps[0]) && Run(c, f, Next(c, f, s, steps[0]), steps[1..]))
  }

  function After(c: Limits, f: Summarise, s: System, steps: seq<Step>): System
    requires Run(c, f, s, steps)
    decreases |steps|
  {
    if steps == [] then s else After(c, f, Next(c, f, s, steps[0]), steps[1..])
  }

  /** Every cached summary, in every interleaving, is the one recomputed from
      the lists as they are, at the times its reader read the clock. */
  lemma {:induction false} RunCoherent(c: Limits, f: Summarise, s: System, steps: seq<Step>)
    requires Coherent(f, s) && Run(c, f, s, steps)
    ensures Coherent(f, After(c, f, s, steps))
    decreases |steps|
  {
    if steps != [] {
      StepCoherent(c, f, s, steps[0]);
      RunCoherent(c, f, Next(c, f, s, steps[0]), steps[1..]);
    }
  }

  lemma {:induction false} HitIsCurrent(c: Limits, f: Summarise, steps: seq<Step>, limit: int, events: bool)
    requires Run(c, f, INITIAL, steps)
    ensures var b := After(c, f, INITIAL, steps).board;
      var key := Taken(b, limit, events).key;
      key in b.cache ==> b.cache[key].summary == f(b.recent, b.probes, Clamp(limit), events, b.cache[key].clock)
  {
    RunCoherent(c, f, INITIAL, steps);
  }

  // A run in which thread t neither computes nor stores and some change happens.
  predicate Races(steps: seq<Step>, t: Thread) {
    && (exists i :: 0 <= i < |steps| && steps[i].Change?)
    && (forall i :: 0 <= i < |steps| && steps[i].Store? ==> steps[i].t != t)
  }

  lemma {:induction false} VersionGrows(c: Limits, f: Summarise, s: System, steps: seq<Step>, t: Thread)
    requires Run(c, f, s, steps) && t in s.readers
    requires forall i :: 0 <= i < |steps| && steps[i].Store? ==> steps[i].t != t
    ensures var u := After(c, f, s, steps);
      t in u.readers && u.readers[t].s == s.readers[t].s && u.board.version >= s.board.version
      && ((exists i :: 0 <= i < |steps| && steps[i].Change?) ==> u.board.version > s.board.version)
    decreases |steps|
  {
    if steps != [] {
      forall i | 0 <= i < |steps[1..]| ensures steps[1..][i] == steps[i + 1] {}
      VersionGrows(c, f, Next(c, f, s, steps[0]), steps[1..], t);
      if i :| 0 <= i < |steps| && steps[i].Change? {
        if i > 0 { assert steps[1..][i - 1].Change?; }
      }
    }
  }

  /** A reader that raced a mutation never publishes: its store changes nothing. */
  lemma {:induction false} RacedNeverPublishes(c: Limits, f: Summarise, s: System, steps: seq<Step>, t: Thread)
    requires Coherent(f, s) && t in s.readers && Run(c, f, s, steps) && Races(steps, t)
    requires Enabled(After(c, f, s, steps), Store(t))
    ensures Next(c, f, After(c, f, s, steps), Store(t)).board == After(c, f, s, steps).board
  {
    VersionGrows(c, f, s, steps, t);
    assert Faithful(f, s.board, s.readers[t]);
  }

  /** A reader that did not race publishes, and the next reader gets its summary. */
  lemma {:induction false} UnracedPublishes(c: Limits, f: Summarise, s: System, t: Thread)
    requires Coherent(f, s) && Enabled(s, Store(t)) && s.readers[t].s.key.version == s.board.version
    ensures var b := Next(c, f, s, Store(t)).board; var key := s.readers[t].s.key;
      key in b.cache && b.cache[key].summary == f(b.recent, b.probes, key.limit, key.events, b.cache[key].clock)
      && b.cache[key] == s.readers[t].e
  {
    assert Faithful(f, s.board, s.readers[t]);
  }

  /** A reader never waits: from every state it is done in two steps at most, and
      stores what it computed. */
  lemma {:induction false} ReaderCanFinish(c: Limits, f: Summarise, s: System, t: Thread, clock: seq<real>)
    returns (steps: seq<Step>)
    requires t in s.readers
    ensures |steps| <= 2 && Run(c, f, s, steps)
    ensures After(c, f, s, steps).readers == s.readers - {t}
    ensures var r := s.readers[t];
      var e := if r.Publishing? then r.e else Computed(f, r.s, clock);
      r.s.key.version == s.board.version ==> After(c, f, s, steps).board.cache == s.board.cache[r.s.key := e]
  {
    if s.readers[t].Computing? {
      var computed := Next(c, f, s, Compute(t, clock));
      steps := [Compute(t, clock), Store(t)];
      assert steps[1..] == [Store(t)] && [Store(t)][1..] == [];
      assert After(c, f, s, steps) == After(c, f, computed, [Store(t)]) == Next(c, f, computed, Store(t));
    } else {
      steps := [Store(t)];
      assert steps[1..] == [];
      assert After(c, f, s, steps) == Next(c, f, s, Store(t));
    }
  }
}
