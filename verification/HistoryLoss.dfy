/** Exactly which requests a history clear takes with it. */
module HistoryLoss {
  import opened HistoryStore
  import opened HistoryBarrier
  import opened HistoryClear

  // The tables as if only the records after the first n had ever been logged.
  function Since(t: Tables, n: nat): Tables
    requires n <= |t.log|
  {
    t.(log := t.log[n..])
  }

  // No row is older than the first n records, and no later one is missing.
  ghost predicate KeptSince(s: State, n: nat) {
    && n <= |s.tables.log| && KeptIn(Since(s.tables, n), s.marks.historyClear, {})
    && (s.writer.Writing? ==> n <= |s.writer.work.log| && KeptIn(Since(s.writer.work, n), s.marks.historyClear, {}))
  }

  // Neither a clear that finishes nor retention removes rows.
  predicate Sparing(step: Step) {
    !step.FinishClear? && (step.Commit? ==> step.pruned == {})
  }

  lemma StoredSince(t: Tables, x: Item, statisticsClear: nat, n: nat)
    requires n <= |t.log|
    ensures n <= |Stored(t, x, statisticsClear).log|
    ensures Since(Stored(t, x, statisticsClear), n) == Stored(Since(t, n), x, statisticsClear)
  {
    assert (t.log + [x])[n..] == t.log[n..] + [x];
  }

  lemma StillKept(s: State, t: State, n: nat)
    requires KeptSince(s, n) && Still(s, t)
    ensures KeptSince(t, n)
  {
  }

  // The writer's steps.
  lemma WriterStepKept(c: Limits, s: State, step: Step, n: nat)
    requires KeptSince(s, n) && Pending(s.writer) && Enabled(c, s, step) && Sparing(step)
    requires step.Begin? || step.Insert? || step.Check? || step.Commit?
    ensures KeptSince(Next(c, s, step), n)
  {
    if step.Insert? {
      var x := s.writer.items[s.writer.at];
      StoredSince(s.writer.work, x, s.marks.statisticsClear, n);
      StoredKept(Since(s.writer.work, n), x, s.marks.statisticsClear, s.marks.historyClear, {});
    } else if step.Check? {
      ScreenedKept(Since(s.writer.work, n), s.writer.items[s.writer.at], s.marks.historyClear, {});
    } else if step.Commit? {
      assert s.writer.work.rows - {} == s.writer.work.rows;
    }
  }

  lemma MarkKept(c: Limits, s: State, n: nat)
    requires KeptSince(s, n) && s.marks.historyClear <= s.marks.sequence
    ensures KeptSince(Next(c, s, MarkClear), n)
  {
    RaisedKept(Since(s.tables, n), s.marks.historyClear, s.marks.sequence, {});
    if s.writer.Writing? { RaisedKept(Since(s.writer.work, n), s.marks.historyClear, s.marks.sequence, {}); }
  }

  // The statistics do not touch the rows.
  lemma StatisticsStepKept(c: Limits, s: State, step: Step, n: nat)
    requires KeptSince(s, n) && Enabled(c, s, step)
    requires step.MarkStatisticsClear? || step.FinishStatisticsClear? || step.Backfill? || step.EndBackfill?
    ensures KeptSince(Next(c, s, step), n)
  {
    var t := Next(c, s, step);
    assert t.tables.rows == s.tables.rows && t.tables.log == s.tables.log && t.writer == s.writer;
    assert t.marks.historyClear == s.marks.historyClear;
  }

  lemma {:induction false} StepKeptSince(c: Limits, s: State, step: Step, n: nat)
    requires KeptSince(s, n) && Pending(s.writer) && Enabled(c, s, step) && Sparing(step)
    requires s.marks.historyClear <= s.marks.sequence
    ensures KeptSince(Next(c, s, step), n)
  {
    if Quiet(step) {
      QuietStep(c, s, step);
      StillKept(s, Next(c, s, step), n);
    } else if step.Begin? || step.Insert? || step.Check? || step.Commit? {
      WriterStepKept(c, s, step, n);
    } else if step.MarkClear? {
      MarkKept(c, s, n);
    } else {
      StatisticsStepKept(c, s, step, n);
    }
  }

  lemma {:induction false} RunKeptSince(c: Limits, s: State, steps: seq<Step>, n: nat)
    requires Good(c, s) && KeptSince(s, n) && Run(c, s, steps) && forall step :: step in steps ==> Sparing(step)
    ensures KeptSince(After(c, s, steps), n) && Good(c, After(c, s, steps))
    decreases |steps|
  {
    if steps != [] {
      assert steps[0] in steps;
      StepGood(c, s, steps[0]);
      StepKeptSince(c, s, steps[0], n);
      RunKeptSince(c, Next(c, s, steps[0]), steps[1..], n);
    }
  }

  lemma {:induction false} StepLogGrows(c: Limits, s: State, step: Step)
    requires WriterOk(s.writer, s.tables) && Enabled(c, s, step)
    ensures s.tables.log <= Next(c, s, step).tables.log
  {
  }

  lemma {:induction false} RunLogGrows(c: Limits, s: State, steps: seq<Step>)
    requires Good(c, s) && Run(c, s, steps)
    ensures s.tables.log <= After(c, s, steps).tables.log
    decreases |steps|
  {
    if steps != [] {
      StepGood(c, s, steps[0]);
      StepLogGrows(c, s, steps[0]);
      RunLogGrows(c, Next(c, s, steps[0]), steps[1..]);
    }
  }

  // A request is logged at most once.
  lemma LoggedOnce(c: Limits, s: State, front: seq<Item>, back: seq<Item>, x: Item)
    requires Good(c, s) && s.tables.log == front + back && Detailed(x)
    ensures !(x in front && x in back)
  {
    assert s.books.accepted[x] == Places(s, x) &&
        s.books.offered[x] == s.books.numbered[x] + s.books.accepted[x] + s.books.refused[x];
    assert multiset(s.tables.log) == multiset(front) + multiset(back);
    assert x in s.books.offered ==> s.books.offered[x] == 1;
  }

  /** After a moment at which there are no rows and nothing is being written,
      while no clear finishes and retention removes nothing: a request logged by
      then or later, numbered above the barrier and alone with its id, has its
      row if and only if it was not logged by that moment. */
  lemma {:induction false} HiddenExactly(c: Limits, start: State, steps: seq<Step>, x: Item)
    requires Reaches(c, INITIAL, start) && start.tables.rows == map[] && LockFree(start)
    requires Run(c, start, steps) && forall step :: step in steps ==> Sparing(step)
    requires var later := After(c, start, steps);
      x in later.tables.log && Detailed(x) && x.number > later.marks.historyClear
      && forall y :: y in later.tables.log ==> !Clash(x, y)
    ensures Shows(After(c, start, steps).tables, x) <==> x !in start.tables.log
  {
    var n := |start.tables.log|;
    ReachableGood(c, start);
    NothingSince(start);
    RunKeptSince(c, start, steps, n);
    RunLogGrows(c, start, steps);
    ShownSince(c, After(c, start, steps), n, x);
  }

  lemma NothingSince(s: State)
    requires s.tables.rows == map[] && LockFree(s)
    ensures KeptSince(s, |s.tables.log|)
  {
    assert s.tables.log[|s.tables.log|..] == [];
  }

  lemma ShownSince(c: Limits, later: State, n: nat, x: Item)
    requires Good(c, later) && KeptSince(later, n)
    requires x in later.tables.log && Detailed(x) && x.number > later.marks.historyClear
    requires forall y :: y in later.tables.log ==> !Clash(x, y)
    ensures Shows(later.tables, x) <==> x !in later.tables.log[..n]
  {
    var front, back := later.tables.log[..n], later.tables.log[n..];
    assert later.tables.log == front + back;
    LoggedOnce(c, later, front, back, x);
    LastWord(Since(later.tables, n), later.marks.historyClear, x);
  }

  // What the invariant says of one request that is alone with its id.
  lemma LastWord(t: Tables, historyClear: nat, x: Item)
    requires KeptIn(t, historyClear, {}) && Detailed(x) && x.number > historyClear
    requires forall y :: y in t.log ==> !Clash(x, y)
    ensures Shows(t, x) <==> x in t.log
  {
  }

  /** A finishing clear loses a request numbered after its barrier if and only if
      the request was committed before the clear finished. */
  lemma {:induction false} ClearLosesExactly(c: Limits, marked: State, barrier: nat, steps: seq<Step>, x: Item)
    requires Reaches(c, INITIAL, marked) && Enabled(c, marked, FinishClear(barrier))
    requires Run(c, Next(c, marked, FinishClear(barrier)), steps) && forall step :: step in steps ==> Sparing(step)
    requires var later := After(c, Next(c, marked, FinishClear(barrier)), steps);
      x in later.tables.log && Detailed(x) && x.number > later.marks.historyClear
      && forall y :: y in later.tables.log ==> !Clash(x, y)
    ensures Shows(After(c, Next(c, marked, FinishClear(barrier)), steps).tables, x) <==> x !in marked.tables.log
  {
    ReachesNext(c, INITIAL, marked, FinishClear(barrier));
    HiddenExactly(c, Next(c, marked, FinishClear(barrier)), steps, x);
  }
}
