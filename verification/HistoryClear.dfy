/** What a completed clear guarantees, and what the statistics keep. */
module HistoryClear {
  import opened HistoryStore
  import opened HistoryBarrier

  // ------------------------------------------------- numbers name one request

  /** A number is given once, and only to numbers up to the counter. */
  ghost predicate Distinct(s: State) {
    && (forall x :: x in s.books.offered && x.Request? ==> x.number <= s.marks.sequence && s.books.offered[x] == 1)
    && (forall x, y ::
          x in s.books.offered && y in s.books.offered && x.Request? && y.Request? && x.number == y.number ==> x == y)
  }

  lemma {:induction false} StepDistinct(c: Limits, s: State, step: Step)
    requires Distinct(s) && Enabled(c, s, step)
    ensures Distinct(Next(c, s, step))
  {
    var s' := Next(c, s, step);
    if step.Number? {
      var x := Request(step.id, s.marks.sequence + 1);
      assert s'.books.offered == s.books.offered + multiset{x} && x !in s.books.offered;
    } else if step.OfferProbe? {
      assert s'.books.offered == s.books.offered + multiset{ProbeEvent(step.event)};
    } else {
      assert s'.books.offered == s.books.offered && s'.marks.sequence == s.marks.sequence;
    }
  }

  // ------------------------------------------------------------- the barrier

  predicate Above(rows: map<string, Sequence>, barrier: nat, except: set<string>) {
    forall id :: id in rows && id !in except ==> rows[id] > barrier
  }

  function Unchecked(w: Writer): set<string>
    requires w.Writing? && (w.checking ==> w.at < |w.items|)
  {
    if w.checking && Detailed(w.items[w.at]) then {w.items[w.at].id} else {}
  }

  /** No committed row is at or before a completed clear; in the open
      transaction only the row about to be screened may be. */
  predicate Cleared(s: State) {
    && s.marks.cleared <= s.marks.historyClear <= s.marks.sequence
    && (forall b :: b in s.marks.clears ==> b <= s.marks.historyClear)
    && Above(s.tables.rows, s.marks.cleared, {})
    && (s.writer.Writing? && (s.writer.checking ==> s.writer.at < |s.writer.items|)
        ==> Above(s.writer.work.rows, s.marks.cleared, Unchecked(s.writer)))
  }

  // The record about to be screened has its row in the open transaction.
  predicate Pending(w: Writer) {
    w.Writing? && w.checking && w.at < |w.items| && Detailed(w.items[w.at]) ==>
      var x := w.items[w.at]; x.id in w.work.rows && w.work.rows[x.id] == x.number
  }

  lemma {:induction false} StepPending(c: Limits, s: State, step: Step)
    requires Pending(s.writer) && Enabled(c, s, step)
    ensures Pending(Next(c, s, step).writer)
  {
  }

  lemma StillCleared(s: State, t: State)
    requires Cleared(s) && Still(s, t)
    ensures Cleared(t)
  {
  }

  lemma BeginCleared(c: Limits, s: State)
    requires Cleared(s) && Enabled(c, s, Begin)
    ensures Cleared(Next(c, s, Begin))
  {
  }

  lemma InsertCleared(c: Limits, s: State)
    requires Cleared(s) && Enabled(c, s, Insert)
    ensures Cleared(Next(c, s, Insert))
  {
  }

  lemma CheckCleared(c: Limits, s: State)
    requires Cleared(s) && Pending(s.writer) && Enabled(c, s, Check)
    ensures Cleared(Next(c, s, Check))
  {
    var w := s.writer;
    var x := w.items[w.at];
    var rows := Next(c, s, Check).writer.work.rows;
    forall id | id in rows ensures rows[id] > s.marks.cleared {
      if Detailed(x) && id == x.id { assert x.number > s.marks.historyClear; }
    }
  }

  lemma CommitCleared(c: Limits, s: State, pruned: set<string>)
    requires Cleared(s) && Enabled(c, s, Commit(pruned))
    ensures Cleared(Next(c, s, Commit(pruned)))
  {
  }

  lemma MarkCleared(c: Limits, s: State)
    requires Cleared(s)
    ensures Cleared(Next(c, s, MarkClear))
  {
  }

  lemma FinishCleared(c: Limits, s: State, b: nat)
    requires Cleared(s) && Enabled(c, s, FinishClear(b))
    ensures Cleared(Next(c, s, FinishClear(b)))
  {
  }

  // The statistics do not touch the rows.
  lemma StatisticsStepCleared(c: Limits, s: State, step: Step)
    requires Cleared(s) && Enabled(c, s, step)
    requires step.MarkStatisticsClear? || step.FinishStatisticsClear? || step.Backfill? || step.EndBackfill?
    ensures Cleared(Next(c, s, step))
  {
    var t := Next(c, s, step);
    assert t.tables.rows == s.tables.rows && t.writer == s.writer;
    assert t.marks.cleared == s.marks.cleared && t.marks.historyClear == s.marks.historyClear;
    assert t.marks.clears == s.marks.clears && t.marks.sequence == s.marks.sequence;
  }

  lemma {:induction false} StepCleared(c: Limits, s: State, step: Step)
    requires Cleared(s) && Pending(s.writer) && Enabled(c, s, step)
    ensures Cleared(Next(c, s, step))
  {
    if Quiet(step) {
      QuietStep(c, s, step);
      StillCleared(s, Next(c, s, step));
    } else if step.Begin? {
      BeginCleared(c, s);
    } else if step.Insert? {
      InsertCleared(c, s);
    } else if step.Check? {
      CheckCleared(c, s);
    } else if step.Commit? {
      CommitCleared(c, s, step.pruned);
    } else if step.MarkClear? {
      MarkCleared(c, s);
    } else if step.FinishClear? {
      FinishCleared(c, s, step.barrier);
    } else {
      StatisticsStepCleared(c, s, step);
    }
  }

  // ----------------------------------------------------------- the statistics

  /** Every detailed request of a committed or open log has been accounted,
      unless a statistics clear covers its number or has wiped it since. */
  ghost predicate AccountedIn(t: Tables, statisticsClear: nat, wiped: set<nat>) {
    forall x :: x in t.log && Detailed(x) ==>
      x.number in t.accounted || x.number <= statisticsClear || x.number in wiped
  }

  ghost predicate Accounted(s: State) {
    && s.marks.statisticsClear <= s.marks.sequence
    && AccountedIn(s.tables, s.marks.statisticsClear, s.marks.wiped)
    && (s.writer.Writing? ==> AccountedIn(s.writer.work, s.marks.statisticsClear, s.marks.wiped))
  }

  lemma StoredAccounted(t: Tables, x: Item, statisticsClear: nat, wiped: set<nat>)
    requires AccountedIn(t, statisticsClear, wiped)
    ensures AccountedIn(Stored(t, x, statisticsClear), statisticsClear, wiped)
  {
  }

  lemma RaisedAccounted(t: Tables, lower: nat, higher: nat, wiped: set<nat>)
    requires AccountedIn(t, lower, wiped) && lower <= higher
    ensures AccountedIn(t, higher, wiped)
  {
  }

  lemma {:induction false} StepAccounted(c: Limits, s: State, step: Step)
    requires Accounted(s) && Enabled(c, s, step)
    ensures Accounted(Next(c, s, step))
  {
    match step
    case Number(id) =>
    case OfferProbe(e) =>
    case Offer(x) =>
    case CountDrop(x) =>
    case Take =>
    case Begin =>
    case Insert => StoredAccounted(s.writer.work, s.writer.items[s.writer.at], s.marks.statisticsClear, s.marks.wiped);
    case Check =>
    case Commit(pruned) =>
    case Fail =>
    case MarkClear =>
    case FinishClear(b) =>
    case AbandonClear(b) =>
    case MarkStatisticsClear =>
      RaisedAccounted(s.tables, s.marks.statisticsClear, s.marks.sequence, s.marks.wiped);
      if s.writer.Writing? { RaisedAccounted(s.writer.work, s.marks.statisticsClear, s.marks.sequence, s.marks.wiped); }
    case FinishStatisticsClear(b) =>
    case Backfill(ids) =>
    case EndBackfill =>
  }

  // ----------------------------------------------------------- what is kept

  predicate Clash(x: Item, y: Item) {
    Detailed(x) && Detailed(y) && y.id == x.id && y != x
  }

  predicate Shows(t: Tables, x: Item)
    requires Detailed(x)
  {
    x.id in t.rows && t.rows[x.id] == x.number
  }

  /** Every row holds a logged request, and a logged request keeps its row
      unless the barrier covers it, a clear or retention removed it, or another
      logged request has the same id. */
  ghost predicate KeptIn(t: Tables, historyClear: nat, removed: set<nat>) {
    && (forall id :: id in t.rows ==> Request(id, t.rows[id]) in t.log && id != "")
    && (forall x :: x in t.log && Detailed(x) ==>
          Shows(t, x) || x.number <= historyClear || x.number in removed || exists y :: y in t.log && Clash(x, y))
  }

  ghost predicate Kept(s: State) {
    && s.marks.historyClear <= s.marks.sequence
    && KeptIn(s.tables, s.marks.historyClear, s.marks.removed)
    && (s.writer.Writing? ==> KeptIn(s.writer.work, s.marks.historyClear, s.marks.removed))
  }

  lemma StoredKept(t: Tables, x: Item, statisticsClear: nat, historyClear: nat, removed: set<nat>)
    requires KeptIn(t, historyClear, removed)
    ensures KeptIn(Stored(t, x, statisticsClear), historyClear, removed)
  {
    var u := Stored(t, x, statisticsClear);
    assert u.log == t.log + [x] && x in u.log;
    forall z | z in u.log && Detailed(z)
      ensures Shows(u, z) || z.number <= historyClear || z.number in removed || exists y :: y in u.log && Clash(z, y)
    {
      if z != x {
        assert z in t.log;
        if Detailed(x) && x.id == z.id { assert Clash(z, x); }
        if y :| y in t.log && Clash(z, y) { assert y in u.log; }
      }
    }
    forall id | id in u.rows ensures Request(id, u.rows[id]) in u.log && id != "" {
      if id in t.rows { assert Request(id, t.rows[id]) in t.log; }
    }
  }

  lemma ScreenedKept(t: Tables, x: Item, historyClear: nat, removed: set<nat>)
    requires KeptIn(t, historyClear, removed) && (Detailed(x) ==> Shows(t, x))
    ensures KeptIn(Screened(t, x, historyClear), historyClear, removed)
  {
  }

  lemma DroppedKept(t: Tables, ids: set<string>, historyClear: nat, removed: set<nat>)
    requires KeptIn(t, historyClear, removed)
    ensures KeptIn(t.(rows := t.rows - ids), historyClear, removed + RowNumbers(t.rows, ids))
  {
    var u := t.(rows := t.rows - ids);
    forall x | x in u.log && Detailed(x) && Shows(t, x)
      ensures Shows(u, x) || x.number in RowNumbers(t.rows, ids)
    {
      if x.id in ids { assert t.rows[x.id] in RowNumbers(t.rows, ids); }
    }
  }

  lemma RaisedKept(t: Tables, lower: nat, higher: nat, removed: set<nat>)
    requires KeptIn(t, lower, removed) && lower <= higher
    ensures KeptIn(t, higher, removed)
  {
  }

  lemma {:induction false} StepKept(c: Limits, s: State, step: Step)
    requires Kept(s) && Pending(s.writer) && Enabled(c, s, step)
    ensures Kept(Next(c, s, step))
  {
    match step
    case Number(id) =>
    case OfferProbe(e) =>
    case Offer(x) =>
    case CountDrop(x) =>
    case Take =>
    case Begin =>
    case Insert =>
      StoredKept(s.writer.work, s.writer.items[s.writer.at], s.marks.statisticsClear, s.marks.historyClear,
                 s.marks.removed);
    case Check => ScreenedKept(s.writer.work, s.writer.items[s.writer.at], s.marks.historyClear, s.marks.removed);
    case Commit(pruned) => DroppedKept(s.writer.work, pruned, s.marks.historyClear, s.marks.removed);
    case Fail =>
    case MarkClear =>
      RaisedKept(s.tables, s.marks.historyClear, s.marks.sequence, s.marks.removed);
      if s.writer.Writing? { RaisedKept(s.writer.work, s.marks.historyClear, s.marks.sequence, s.marks.removed); }
    case FinishClear(b) =>
      DroppedKept(s.tables, s.tables.rows.Keys, s.marks.historyClear, s.marks.removed);
      assert s.tables.rows - s.tables.rows.Keys == map[];
    case AbandonClear(b) =>
    case MarkStatisticsClear =>
    case FinishStatisticsClear(b) =>
    case Backfill(ids) =>
    case EndBackfill =>
  }

  // ------------------------------------------------------ statistics clears

  /** Accounted requests were logged, and none is at or before a completed
      statistics clear. */
  ghost predicate CountedIn(t: Tables, cleared: nat) {
    forall n: nat :: n in t.accounted ==> n > cleared && exists x :: x in t.log && Detailed(x) && x.number == n
  }

  ghost predicate StatisticsCleared(s: State) {
    && s.marks.statisticsCleared <= s.marks.statisticsClear <= s.marks.sequence
    && (forall b :: b in s.marks.statisticsClears ==> b <= s.marks.statisticsClear)
    && (s.marks.backfilling ==> s.marks.statisticsCleared == 0)
    && CountedIn(s.tables, s.marks.statisticsCleared)
    && (s.writer.Writing? ==> CountedIn(s.writer.work, s.marks.statisticsCleared))
  }

  lemma StoredCounted(t: Tables, x: Item, statisticsClear: nat, cleared: nat)
    requires CountedIn(t, cleared) && cleared <= statisticsClear
    ensures CountedIn(Stored(t, x, statisticsClear), cleared)
  {
    var u := Stored(t, x, statisticsClear);
    assert u.log == t.log + [x] && x in u.log;
    forall n: nat | n in u.accounted ensures n > cleared && exists y :: y in u.log && Detailed(y) && y.number == n {
      if n in t.accounted {
        var y :| y in t.log && Detailed(y) && y.number == n;
        assert y in u.log;
      }
    }
  }

  // Rows are logged requests, so adding them keeps the statistics honest.
  lemma BackfillCounted(s: State, ids: set<string>)
    requires StatisticsCleared(s) && Kept(s) && s.marks.backfilling
    ensures CountedIn(s.tables.(accounted := s.tables.accounted + RowNumbers(s.tables.rows, ids)),
        s.marks.statisticsCleared)
  {
    var t := s.tables;
    forall n: nat | n in RowNumbers(t.rows, ids)
      ensures n > 0 && exists x :: x in t.log && Detailed(x) && x.number == n
    {
      var id :| id in ids && id in t.rows && t.rows[id] == n;
      assert Request(id, t.rows[id]) in t.log;
    }
  }

  lemma StillCounted(s: State, t: State)
    requires StatisticsCleared(s) && Still(s, t)
    ensures StatisticsCleared(t)
  {
  }

  // The writer's steps keep the statistics honest.
  lemma WriterStepCounted(c: Limits, s: State, step: Step)
    requires StatisticsCleared(s) && Enabled(c, s, step)
    requires step.Begin? || step.Insert? || step.Check? || step.Commit?
    ensures StatisticsCleared(Next(c, s, step))
  {
    if step.Insert? {
      StoredCounted(s.writer.work, s.writer.items[s.writer.at], s.marks.statisticsClear, s.marks.statisticsCleared);
    } else if step.Check? {
      ScreenedCounted(s.writer.work, s.writer.items[s.writer.at], s.marks.historyClear, s.marks.statisticsCleared);
    } else if step.Commit? {
      RowsUncounted(s.writer.work, s.writer.work.rows - step.pruned, s.marks.statisticsCleared);
    }
  }

  lemma ScreenedCounted(t: Tables, x: Item, historyClear: nat, cleared: nat)
    requires CountedIn(t, cleared)
    ensures CountedIn(Screened(t, x, historyClear), cleared)
  {
  }

  lemma RowsUncounted(t: Tables, rows: map<string, Sequence>, cleared: nat)
    requires CountedIn(t, cleared)
    ensures CountedIn(t.(rows := rows), cleared)
  {
  }

  lemma ClearStepCounted(c: Limits, s: State, step: Step)
    requires StatisticsCleared(s) && Enabled(c, s, step)
    requires step.MarkClear? || step.FinishClear? || step.MarkStatisticsClear? || step.EndBackfill?
    ensures StatisticsCleared(Next(c, s, step))
  {
    if step.FinishClear? { RowsUncounted(s.tables, map[], s.marks.statisticsCleared); }
  }

  lemma FinishCounted(c: Limits, s: State, b: nat)
    requires StatisticsCleared(s) && Enabled(c, s, FinishStatisticsClear(b))
    ensures StatisticsCleared(Next(c, s, FinishStatisticsClear(b)))
  {
  }

  lemma BackfillStepCounted(c: Limits, s: State, ids: set<string>)
    requires StatisticsCleared(s) && Kept(s) && Enabled(c, s, Backfill(ids))
    ensures StatisticsCleared(Next(c, s, Backfill(ids)))
  {
    BackfillCounted(s, ids);
  }

  lemma {:induction false} StepStatisticsCleared(c: Limits, s: State, step: Step)
    requires StatisticsCleared(s) && Kept(s) && Enabled(c, s, step)
    ensures StatisticsCleared(Next(c, s, step))
  {
    if Quiet(step) {
      QuietStep(c, s, step);
      StillCounted(s, Next(c, s, step));
    } else if step.Begin? || step.Insert? || step.Check? || step.Commit? {
      WriterStepCounted(c, s, step);
    } else if step.FinishStatisticsClear? {
      FinishCounted(c, s, step.barrier);
    } else if step.Backfill? {
      BackfillStepCounted(c, s, step.ids);
    } else {
      ClearStepCounted(c, s, step);
    }
  }

  // -------------------------------------------------------------------- runs

  ghost predicate Good(c: Limits, s: State) {
    && WriterOk(s.writer, s.tables) && Conserved(s) && Counted(c, s)
    && Distinct(s) && Pending(s.writer) && Cleared(s) && Accounted(s) && Kept(s)
    && StatisticsCleared(s)
  }

  lemma {:induction false} StepGood(c: Limits, s: State, step: Step)
    requires Good(c, s) && Enabled(c, s, step)
    ensures Good(c, Next(c, s, step))
  {
    StepWriterOk(c, s, step);
    StepConserves(c, s, step);
    StepCounted(c, s, step);
    StepDistinct(c, s, step);
    StepPending(c, s, step);
    StepCleared(c, s, step);
    StepAccounted(c, s, step);
    StepKept(c, s, step);
    StepStatisticsCleared(c, s, step);
  }

  lemma InitialGood(c: Limits)
    ensures Good(c, INITIAL)
  {
  }

  lemma {:induction false} RunGood(c: Limits, s: State, steps: seq<Step>)
    requires Good(c, s) && Run(c, s, steps)
    ensures Good(c, After(c, s, steps))
    decreases |steps|
  {
    if steps != [] {
      StepGood(c, s, steps[0]);
      RunGood(c, Next(c, s, steps[0]), steps[1..]);
    }
  }

  lemma {:induction false} RunGrows(c: Limits, s: State, steps: seq<Step>)
    requires Run(c, s, steps)
    ensures After(c, s, steps).marks.cleared >= s.marks.cleared
    ensures After(c, s, steps).marks.statisticsCleared >= s.marks.statisticsCleared
    decreases |steps|
  {
    if steps != [] { RunGrows(c, Next(c, s, steps[0]), steps[1..]); }
  }

  /** The invariants hold in every state any interleaving can reach. */
  lemma {:induction false} ReachableGood(c: Limits, s: State)
    requires Reaches(c, INITIAL, s)
    ensures Good(c, s)
  {
    var steps :| Run(c, INITIAL, steps) && After(c, INITIAL, steps) == s;
    InitialGood(c);
    RunGood(c, INITIAL, steps);
  }

  lemma {:induction false} ReachedGood(c: Limits, s: State, t: State)
    requires Good(c, s) && Reaches(c, s, t)
    ensures Good(c, t) && t.marks.cleared >= s.marks.cleared && t.marks.statisticsCleared >= s.marks.statisticsCleared
  {
    var steps :| Run(c, s, steps) && After(c, s, steps) == t;
    RunGood(c, s, steps);
    RunGrows(c, s, steps);
  }

  lemma {:induction false} FinishedAbove(c: Limits, s: State, barrier: nat, later: State)
    requires Good(c, s) && Enabled(c, s, FinishClear(barrier))
    requires Reaches(c, Next(c, s, FinishClear(barrier)), later)
    ensures Above(later.tables.rows, barrier, {})
  {
    var done := Next(c, s, FinishClear(barrier));
    StepGood(c, s, FinishClear(barrier));
    assert done.marks.cleared >= barrier;
    ReachedGood(c, done, later);
    GoodAbove(c, later);
  }

  lemma GoodAbove(c: Limits, s: State)
    requires Good(c, s)
    ensures Above(s.tables.rows, s.marks.cleared, {})
  {
  }

  /** When nothing is queued and the writer is idle, every accepted record has
      been committed once or counted as a write failure. */
  lemma {:induction false} AtRestAllSettled(c: Limits, s: State, x: Item)
    requires Reaches(c, INITIAL, s) && s.queue == [] && s.writer.Idle?
    ensures s.books.accepted[x] == multiset(s.tables.log)[x] + s.books.failed[x]
    ensures x.Request? ==> multiset(s.tables.log)[x] + s.books.failed[x] <= 1
  {
    ReachableGood(c, s);
  }

  /** A clear is final: once the clear that was marked in state s has finished,
      in state `marked` and every later one, no request numbered when it was
      marked has a row, whatever is still queued or being written. */
  lemma {:induction false} ClearIsFinal(c: Limits, s: State, marked: State, later: State, x: Item)
    requires Reaches(c, INITIAL, s) && Reaches(c, Next(c, s, MarkClear), marked)
    requires Enabled(c, marked, FinishClear(s.marks.sequence))
    requires Reaches(c, Next(c, marked, FinishClear(s.marks.sequence)), later)
    requires x in s.books.offered && Detailed(x)
    ensures !Shows(later.tables, x)
    ensures forall id :: id in later.tables.rows ==> later.tables.rows[id] > s.marks.sequence
  {
    ReachableGood(c, s);
    StepGood(c, s, MarkClear);
    ReachedGood(c, Next(c, s, MarkClear), marked);
    FinishedAbove(c, marked, s.marks.sequence, later);
  }

  /** A statistics clear is final too: once it has finished, no request numbered
      when it was marked is in the statistics, and what is there was committed. */
  lemma {:induction false} StatisticsClearIsFinal(c: Limits, s: State, marked: State, later: State)
    requires Reaches(c, INITIAL, s) && Reaches(c, Next(c, s, MarkStatisticsClear), marked)
    requires Enabled(c, marked, FinishStatisticsClear(s.marks.sequence))
    requires Reaches(c, Next(c, marked, FinishStatisticsClear(s.marks.sequence)), later)
    ensures CountedIn(later.tables, s.marks.sequence)
  {
    ReachableGood(c, s);
    StepGood(c, s, MarkStatisticsClear);
    ReachedGood(c, Next(c, s, MarkStatisticsClear), marked);
    FinishedCounted(c, marked, s.marks.sequence, later);
  }

  lemma FinishedCounted(c: Limits, s: State, barrier: nat, later: State)
    requires Good(c, s) && Enabled(c, s, FinishStatisticsClear(barrier))
    requires Reaches(c, Next(c, s, FinishStatisticsClear(barrier)), later)
    ensures CountedIn(later.tables, barrier)
  {
    var done := Next(c, s, FinishStatisticsClear(barrier));
    StepGood(c, s, FinishStatisticsClear(barrier));
    assert done.marks.statisticsCleared >= barrier;
    ReachedGood(c, done, later);
    GoodCounted(c, later);
  }

  lemma GoodCounted(c: Limits, s: State)
    requires Good(c, s)
    ensures CountedIn(s.tables, s.marks.statisticsCleared)
  {
  }

  /** A committed request is accounted even if a history clear hid it, unless a
      statistics clear covers it or came after it. */
  lemma {:induction false} CommittedIsAccounted(c: Limits, s: State, x: Item)
    requires Reaches(c, INITIAL, s) && x in s.tables.log && Detailed(x)
    ensures x.number in s.tables.accounted || x.number <= s.marks.statisticsClear || x.number in s.marks.wiped
  {
    ReachableGood(c, s);
  }

  predicate Statistics(step: Step) {
    step.MarkStatisticsClear? || step.FinishStatisticsClear?
  }

  lemma {:induction false} NothingWiped(c: Limits, s: State, steps: seq<Step>)
    requires Run(c, s, steps) && forall step :: step in steps ==> !Statistics(step)
    ensures After(c, s, steps).marks.wiped == s.marks.wiped
    ensures After(c, s, steps).marks.statisticsClear == s.marks.statisticsClear
    decreases |steps|
  {
    if steps != [] {
      assert steps[0] in steps;
      NothingWiped(c, Next(c, s, steps[0]), steps[1..]);
    }
  }

  /** With history clears alone, every committed request stays accounted. */
  lemma {:induction false} HistoryClearsKeepStatistics(c: Limits, steps: seq<Step>, x: Item)
    requires Run(c, INITIAL, steps) && forall step :: step in steps ==> !Statistics(step)
    requires var s := After(c, INITIAL, steps); x in s.tables.log && Detailed(x)
    ensures x.number in After(c, INITIAL, steps).tables.accounted
  {
    NothingWiped(c, INITIAL, steps);
    CommittedIsAccounted(c, After(c, INITIAL, steps), x);
  }

  /** The barrier is not exact from above: a request numbered after the clear
      was marked is lost too when it is written before the clear finishes. */
  lemma NewerMayGo(c: Limits) returns (s: State)
    requires c.capacity > 0 && c.batchSize > 0
    ensures Reaches(c, INITIAL, s)
    ensures s.tables.log == [Request("a", 1)] && s.tables.rows == map[]
    ensures s.marks.historyClear == 0 && s.marks.clears == multiset{}
  {
    s := OneTaken(c);
    s := OneInserted(c, s);
    s := Advance(c, s, Commit({}));
    s := Advance(c, s, FinishClear(0));
  }

  // A clear is marked, then a request is numbered, queued and taken.
  lemma OneTaken(c: Limits) returns (s: State)
    requires c.capacity > 0 && c.batchSize > 0
    ensures Reaches(c, INITIAL, s) && s.writer == Filling([Request("a", 1)]) && s.tables == EMPTY
    ensures s.marks.historyClear == 0 && s.marks.clears == multiset{0}
  {
    s := OneQueued(c);
    s := Advance(c, s, Take);
  }

  lemma OneQueued(c: Limits) returns (s: State)
    requires c.capacity > 0
    ensures Reaches(c, INITIAL, s) && s.writer.Idle? && s.tables == EMPTY && s.queue == [Request("a", 1)]
    ensures s.marks.historyClear == 0 && s.marks.clears == multiset{0}
  {
    s := OneNumbered(c);
    var x := Request("a", 1);
    assert s.queue + [x] == [x];
    s := Advance(c, s, Offer(x));
  }

  lemma OneNumbered(c: Limits) returns (s: State)
    ensures Reaches(c, INITIAL, s) && s.writer.Idle? && s.tables == EMPTY && s.queue == []
    ensures Request("a", 1) in s.books.numbered && s.marks.historyClear == 0 && s.marks.clears == multiset{0}
  {
    ReachesItself(c, INITIAL);
    s := Advance(c, INITIAL, MarkClear);
    assert s.writer.Idle? && s.queue == [] && s.marks.sequence == 0;
    s := Advance(c, s, Number("a"));
  }

  lemma OneInserted(c: Limits, s: State) returns (t: State)
    requires Reaches(c, INITIAL, s) && s.writer == Filling([Request("a", 1)]) && s.tables == EMPTY
    requires s.marks.historyClear == 0 && s.marks.clears == multiset{0}
    ensures Reaches(c, INITIAL, t) && t.marks.historyClear == 0 && t.marks.clears == multiset{0}
    ensures t.writer.Writing? && Enabled(c, t, Commit({}))
    ensures t.writer.work.log == [Request("a", 1)] && t.writer.rest == []
  {
    t := Advance(c, s, Begin);
    t := Advance(c, t, Insert);
    t := Advance(c, t, Check);
  }

  lemma Advance(c: Limits, s: State, step: Step) returns (t: State)
    requires Reaches(c, INITIAL, s) && Enabled(c, s, step)
    ensures Reaches(c, INITIAL, t) && t == Next(c, s, step)
  {
    ReachesNext(c, INITIAL, s, step);
    t := Next(c, s, step);
  }
}
