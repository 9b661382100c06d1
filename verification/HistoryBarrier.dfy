/** The history store under any interleaving of recording threads, the writer
    thread and clearing threads. Each step is one lock region, or one statement
    of the writer's transaction. */
module HistoryBarrier {
  import opened HistoryStore

  datatype Limits = Limits(capacity: nat, batchSize: nat)

  /** What the writer thread holds. While Writing it owns the store's lock. */
  datatype Writer =
    | Idle
    | Filling(batch: seq<Item>)
    | Writing(items: seq<Item>, at: nat, checking: bool, work: Tables, rest: seq<Item>, single: bool)
    | Retrying(left: seq<Item>)

  /** Where the records went: numbered but not yet offered, refused but not yet
      counted, and everything that has happened so far. */
  datatype Books = Books(
    numbered: multiset<Item>, turnedAway: multiset<Item>, dropped: nat, writeFailures: nat,
    offered: multiset<Item>, accepted: multiset<Item>, refused: multiset<Item>, failed: multiset<Item>)

  /** The counter and the clears: the two barriers, the marked clears that have
      not finished, and the highest barriers of those that have. */
  datatype Marks = Marks(
    sequence: nat, historyClear: nat, statisticsClear: nat,
    clears: multiset<nat>, statisticsClears: multiset<nat>, cleared: nat, statisticsCleared: nat,
    backfilling: bool,  // older rows are still being added to the statistics
    wiped: set<nat>,    // accounted, then wiped by a statistics clear
    removed: set<nat>)  // detail rows deleted by a clear or by retention

  datatype State = State(queue: seq<Item>, writer: Writer, tables: Tables, books: Books, marks: Marks)

  datatype Step =
    | Number(id: string)
    | Offer(x: Item)
    | OfferProbe(event: nat)
    | CountDrop(x: Item)
    | Take
    | Begin
    | Insert
    | Check
    | Commit(pruned: set<string>)
    | Fail
    | MarkClear
    | FinishClear(barrier: nat)
    | AbandonClear(barrier: nat)
    | MarkStatisticsClear
    | FinishStatisticsClear(barrier: nat)
    | Backfill(ids: set<string>)
    | EndBackfill

  const INITIAL := State([], Idle, EMPTY,
                         Books(multiset{}, multiset{}, 0, 0, multiset{}, multiset{}, multiset{}, multiset{}),
                         Marks(0, 0, 0, multiset{}, multiset{}, 0, 0, true, {}, {}))

  predicate LockFree(s: State) {
    !s.writer.Writing?
  }

  predicate Enabled(c: Limits, s: State, step: Step) {
    match step
    case Number(_) => true
    case Offer(x) => x in s.books.numbered
    case OfferProbe(_) => true
    case CountDrop(x) => LockFree(s) && x in s.books.turnedAway
    case Take => s.queue != [] && (s.writer.Idle? || (s.writer.Filling? && |s.writer.batch| < c.batchSize))
    case Begin => s.writer.Filling? || (s.writer.Retrying? && s.writer.left != [])
    case Insert => s.writer.Writing? && s.writer.at < |s.writer.items| && !s.writer.checking
    case Check => s.writer.Writing? && s.writer.at < |s.writer.items| && s.writer.checking
    case Commit(pruned) => s.writer.Writing? && s.writer.at == |s.writer.items| && !s.writer.checking
                           && (s.writer.single ==> pruned == {})
    case Fail => s.writer.Writing? || s.writer.Filling?
    case MarkClear => true
    case FinishClear(b) => LockFree(s) && b in s.marks.clears
    case AbandonClear(b) => LockFree(s) && b in s.marks.clears
    case MarkStatisticsClear => true
    case FinishStatisticsClear(b) => LockFree(s) && b in s.marks.statisticsClears
    case Backfill(_) => LockFree(s) && s.marks.backfilling
    case EndBackfill => LockFree(s)
  }

  function Queued(c: Limits, s: State, x: Item): State {
    if |s.queue| < c.capacity
    then s.(queue := s.queue + [x], books := s.books.(accepted := s.books.accepted + multiset{x}))
    else s.(books := s.books.(turnedAway := s.books.turnedAway + multiset{x}, refused := s.books.refused + multiset{x}))
  }

  function Resume(left: seq<Item>): Writer {
    if left == [] then Idle else Retrying(left)
  }

  function RowNumbers(rows: map<string, Sequence>, ids: set<string>): set<nat> {
    set id | id in ids && id in rows :: rows[id]
  }

  function Begun(s: State): State
    requires s.writer.Filling? || (s.writer.Retrying? && s.writer.left != [])
  {
    if s.writer.Filling?
    then s.(writer := Writing(s.writer.batch, 0, false, s.tables, [], false))
    else s.(writer := Writing(s.writer.left[..1], 0, false, s.tables, s.writer.left[1..], true))
  }

  function Failed(s: State): State
    requires s.writer.Writing? || s.writer.Filling?
  {
    if s.writer.Filling? then s.(writer := Resume(s.writer.batch))
    else if !s.writer.single then s.(writer := Resume(s.writer.items))
    else s.(writer := Resume(s.writer.rest),
            books := s.books.(writeFailures := s.books.writeFailures + 1,
                              failed := s.books.failed + multiset(s.writer.items)))
  }

  function Committed(s: State, pruned: set<string>): State
    requires s.writer.Writing?
  {
    State(s.queue, Resume(s.writer.rest), s.writer.work.(rows := s.writer.work.rows - pruned), s.books,
          s.marks.(removed := s.marks.removed + RowNumbers(s.writer.work.rows, pruned)))
  }

  // What a clearing thread, retention aside, does to the counters.
  function Marked(m: Marks): Marks {
    m.(historyClear := m.sequence, clears := m.clears + multiset{m.sequence})
  }

  function Finished(m: Marks, b: nat, gone: set<nat>): Marks {
    m.(clears := m.clears - multiset{b}, cleared := if b > m.cleared then b else m.cleared, removed := m.removed + gone)
  }

  function StatisticsMarked(m: Marks): Marks {
    m.(statisticsClear := m.sequence, statisticsClears := m.statisticsClears + multiset{m.sequence})
  }

  function StatisticsFinished(m: Marks, b: nat, gone: set<nat>): Marks {
    m.(statisticsClears := m.statisticsClears - multiset{b}, backfilling := false,
       statisticsCleared := if b > m.statisticsCleared then b else m.statisticsCleared, wiped := m.wiped + gone)
  }

  function Next(c: Limits, s: State, step: Step): State
    requires Enabled(c, s, step)
  {
    match step
    case Number(id) =>
      var x := Request(id, s.marks.sequence + 1);
      s.(marks := s.marks.(sequence := s.marks.sequence + 1),
         books := s.books.(numbered := s.books.numbered + multiset{x}, offered := s.books.offered + multiset{x}))
    case Offer(x) => Queued(c, s.(books := s.books.(numbered := s.books.numbered - multiset{x})), x)
    case OfferProbe(e) =>
      Queued(c, s.(books := s.books.(offered := s.books.offered + multiset{ProbeEvent(e)})), ProbeEvent(e))
    case CountDrop(x) =>
      s.(books := s.books.(turnedAway := s.books.turnedAway - multiset{x}, dropped := s.books.dropped + 1))
    case Take =>
      s.(writer := Filling((if s.writer.Idle? then [] else s.writer.batch) + [s.queue[0]]), queue := s.queue[1..])
    case Begin => Begun(s)
    case Insert =>
      var work := Stored(s.writer.work, s.writer.items[s.writer.at], s.marks.statisticsClear);
      s.(writer := s.writer.(work := work, checking := true))
    case Check =>
      s.(writer := s.writer.(work := Screened(s.writer.work, s.writer.items[s.writer.at], s.marks.historyClear),
                             checking := false, at := s.writer.at + 1))
    case Commit(pruned) => Committed(s, pruned)
    case Fail => Failed(s)
    case MarkClear => s.(marks := Marked(s.marks))
    case FinishClear(b) =>
      s.(tables := s.tables.(rows := map[]),
         marks := Finished(s.marks, b, RowNumbers(s.tables.rows, s.tables.rows.Keys)))
    case AbandonClear(b) => s.(marks := s.marks.(clears := s.marks.clears - multiset{b}))
    case MarkStatisticsClear => s.(marks := StatisticsMarked(s.marks))
    case FinishStatisticsClear(b) =>
      s.(tables := s.tables.(accounted := {}), marks := StatisticsFinished(s.marks, b, s.tables.accounted))
    case Backfill(ids) => s.(tables := s.tables.(accounted := s.tables.accounted + RowNumbers(s.tables.rows, ids)))
    case EndBackfill => s.(marks := s.marks.(backfilling := false))
  }

  // Steps that leave the tables and an open transaction alone.
  predicate Quiet(step: Step) {
    step.Number? || step.Offer? || step.OfferProbe? || step.CountDrop? || step.Take? || step.Fail? || step.AbandonClear?
  }

  // What such a step may change of the tables, the writer and the marks.
  predicate Still(s: State, t: State) {
    && t.tables == s.tables && (t.writer.Writing? ==> t.writer == s.writer)
    && t.marks.sequence >= s.marks.sequence && t.marks.clears <= s.marks.clears
    && t.marks == s.marks.(sequence := t.marks.sequence, clears := t.marks.clears)
  }

  lemma QuietStep(c: Limits, s: State, step: Step)
    requires Enabled(c, s, step) && Quiet(step)
    ensures Still(s, Next(c, s, step))
  {
  }

  predicate Run(c: Limits, s: State, steps: seq<Step>)
    decreases |steps|
  {
    steps == [] || (Enabled(c, s, steps[0]) && Run(c, Next(c, s, steps[0]), steps[1..]))
  }

  function After(c: Limits, s: State, steps: seq<Step>): State
    requires Run(c, s, steps)
    decreases |steps|
  {
    if steps == [] then s else After(c, Next(c, s, steps[0]), steps[1..])
  }

  /** State t can follow state s in some interleaving. */
  ghost predicate Reaches(c: Limits, s: State, t: State) {
    exists steps :: Run(c, s, steps) && After(c, s, steps) == t
  }

  lemma ReachesItself(c: Limits, s: State)
    ensures Reaches(c, s, s)
  {
    assert Run(c, s, []) && After(c, s, []) == s;
  }

  lemma RunSnoc(c: Limits, s: State, steps: seq<Step>, step: Step)
    requires Run(c, s, steps) && Enabled(c, After(c, s, steps), step)
    ensures Run(c, s, steps + [step]) && After(c, s, steps + [step]) == Next(c, After(c, s, steps), step)
    decreases |steps|
  {
    if steps == [] {
      var t := Next(c, s, step);
      assert steps + [step] == [step] && [step][1..] == [];
      assert Run(c, t, []) && After(c, t, []) == t;
    } else {
      assert (steps + [step])[1..] == steps[1..] + [step];
      RunSnoc(c, Next(c, s, steps[0]), steps[1..], step);
    }
  }

  lemma ReachesNext(c: Limits, s: State, t: State, step: Step)
    requires Reaches(c, s, t) && Enabled(c, t, step)
    ensures Reaches(c, s, Next(c, t, step))
  {
    var steps :| Run(c, s, steps) && After(c, s, steps) == t;
    RunSnoc(c, s, steps, step);
  }

  // ------------------------------------------------------------- conservation

  function Held(w: Writer): multiset<Item> {
    match w
    case Idle => multiset{}
    case Filling(batch) => multiset(batch)
    case Writing(items, _, _, _, rest, _) => multiset(items) + multiset(rest)
    case Retrying(left) => multiset(left)
  }

  // What the open transaction has inserted so far.
  function Inside(w: Writer): seq<Item>
    requires w.Writing? && w.at <= |w.items| && (w.checking ==> w.at < |w.items|)
  {
    w.items[..if w.checking then w.at + 1 else w.at]
  }

  predicate WriterOk(w: Writer, tables: Tables) {
    w.Writing? ==>
      && w.at <= |w.items| && (w.checking ==> w.at < |w.items|)
      && (if w.single then |w.items| == 1 else w.rest == [])
      && w.work.log == tables.log + Inside(w)
  }

  lemma {:induction false} StepWriterOk(c: Limits, s: State, step: Step)
    requires WriterOk(s.writer, s.tables) && Enabled(c, s, step)
    ensures var s' := Next(c, s, step); WriterOk(s'.writer, s'.tables)
  {
    if step.Insert? { InsertWriterOk(c, s); } else if step.Begin? { BeginWriterOk(c, s); }
  }

  lemma InsertWriterOk(c: Limits, s: State)
    requires WriterOk(s.writer, s.tables) && Enabled(c, s, Insert)
    ensures WriterOk(Next(c, s, Insert).writer, s.tables)
  {
    var w := s.writer;
    assert w.items[..w.at + 1] == w.items[..w.at] + [w.items[w.at]];
  }

  lemma BeginWriterOk(c: Limits, s: State)
    requires Enabled(c, s, Begin)
    ensures WriterOk(Next(c, s, Begin).writer, s.tables)
  {
    assert s.tables.log + [] == s.tables.log;
  }

  // How often a record is in one of the places an accepted record can be.
  function Places(s: State, x: Item): nat {
    multiset(s.queue)[x] + Held(s.writer)[x] + multiset(s.tables.log)[x] + s.books.failed[x]
  }

  /** Every accepted record is in exactly one place: queued, held by the writer,
      committed, or failed. Every record offered was accepted, was refused, or
      is about to be offered. */
  ghost predicate Conserved(s: State) {
    forall x: Item ::
      && s.books.accepted[x] == Places(s, x)
      && s.books.offered[x] == s.books.numbered[x] + s.books.accepted[x] + s.books.refused[x]
  }

  /** The counters count the losses. */
  predicate Counted(c: Limits, s: State) {
    && |s.queue| <= c.capacity
    && s.books.dropped + |s.books.turnedAway| == |s.books.refused|
    && s.books.writeFailures == |s.books.failed|
  }

  lemma {:induction false} StepCounted(c: Limits, s: State, step: Step)
    requires WriterOk(s.writer, s.tables) && Counted(c, s) && Enabled(c, s, step)
    ensures Counted(c, Next(c, s, step))
  {
    if step.Fail? { FailCounted(c, s); }
  }

  lemma FailCounted(c: Limits, s: State)
    requires WriterOk(s.writer, s.tables) && Counted(c, s) && Enabled(c, s, Fail)
    ensures Counted(c, Next(c, s, Fail))
  {
  }

  lemma TakeConserves(c: Limits, s: State, x: Item)
    requires Enabled(c, s, Take)
    ensures Places(Next(c, s, Take), x) == Places(s, x)
  {
    assert s.queue == [s.queue[0]] + s.queue[1..];
  }

  lemma BeginConserves(c: Limits, s: State, x: Item)
    requires Enabled(c, s, Begin)
    ensures Places(Next(c, s, Begin), x) == Places(s, x)
  {
    if s.writer.Retrying? {
      assert s.writer.left == s.writer.left[..1] + s.writer.left[1..];
    }
  }

  lemma CommitConserves(c: Limits, s: State, pruned: set<string>, x: Item)
    requires WriterOk(s.writer, s.tables) && Enabled(c, s, Commit(pruned))
    ensures Places(Next(c, s, Commit(pruned)), x) == Places(s, x)
  {
    var w := s.writer;
    assert w.items[..|w.items|] == w.items;
    assert multiset(s.tables.log + w.items) == multiset(s.tables.log) + multiset(w.items);
  }

  lemma ResumeHolds(left: seq<Item>)
    ensures Held(Resume(left)) == multiset(left)
  {
  }

  lemma FailConserves(c: Limits, s: State, x: Item)
    requires WriterOk(s.writer, s.tables) && Enabled(c, s, Fail)
    ensures Places(Next(c, s, Fail), x) == Places(s, x)
  {
    var w := s.writer;
    if w.Filling? {
      ResumeHolds(w.batch);
    } else if w.single {
      OneFails(s, x);
    } else {
      ResumeHolds(w.items);
      RestEmpty(w);
    }
  }

  // The record retried on its own is written off.
  lemma OneFails(s: State, x: Item)
    requires s.writer.Writing? && s.writer.single
    ensures Places(Failed(s), x) == Places(s, x)
  {
    ResumeHolds(s.writer.rest);
  }

  lemma RestEmpty(w: Writer)
    requires w.Writing? && w.rest == []
    ensures Held(w) == multiset(w.items)
  {
  }

  lemma QueuedConserves(c: Limits, s: State, y: Item, x: Item)
    requires s.books.accepted[x] == Places(s, x)
    ensures var s' := Queued(c, s, y); s'.books.accepted[x] == Places(s', x)
  {
  }

  lemma {:induction false} StepPlaced(c: Limits, s: State, step: Step, x: Item)
    requires WriterOk(s.writer, s.tables) && Enabled(c, s, step) && s.books.accepted[x] == Places(s, x)
    ensures var s' := Next(c, s, step); s'.books.accepted[x] == Places(s', x)
  {
    match step
    case Number(id) =>
    case Offer(y) => QueuedConserves(c, s.(books := s.books.(numbered := s.books.numbered - multiset{y})), y, x);
    case OfferProbe(e) =>
      QueuedConserves(c, s.(books := s.books.(offered := s.books.offered + multiset{ProbeEvent(e)})), ProbeEvent(e), x);
    case CountDrop(y) =>
    case Take => TakeConserves(c, s, x);
    case Begin => BeginConserves(c, s, x);
    case Insert =>
    case Check =>
    case Commit(pruned) => CommitConserves(c, s, pruned, x);
    case Fail => FailConserves(c, s, x);
    case MarkClear =>
    case FinishClear(b) =>
    case AbandonClear(b) =>
    case MarkStatisticsClear =>
    case FinishStatisticsClear(b) =>
    case Backfill(ids) =>
    case EndBackfill =>
  }

  lemma {:induction false} StepOffered(c: Limits, s: State, step: Step, x: Item)
    requires Enabled(c, s, step) && s.books.offered[x] == s.books.numbered[x] + s.books.accepted[x] + s.books.refused[x]
    ensures var s' := Next(c, s, step);
            s'.books.offered[x] == s'.books.numbered[x] + s'.books.accepted[x] + s'.books.refused[x]
  {
  }

  /** One step of any thread keeps the records. */
  lemma {:induction false} StepConserves(c: Limits, s: State, step: Step)
    requires WriterOk(s.writer, s.tables) && Conserved(s) && Enabled(c, s, step)
    ensures Conserved(Next(c, s, step))
  {
    forall x: Item ensures var s' := Next(c, s, step);
        && s'.books.accepted[x] == Places(s', x)
        && s'.books.offered[x] == s'.books.numbered[x] + s'.books.accepted[x] + s'.books.refused[x] {
      StepPlaced(c, s, step, x);
      StepOffered(c, s, step, x);
    }
  }
}
