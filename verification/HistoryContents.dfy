/** What the tables hold of the records that were written. */
module HistoryContents {
  import opened HistoryStore
  import opened HistoryBarrier

  // ----------------------------------------------------------- one written batch

  /** The healthy records of a batch are those that do not raise, as often as
      they occur, and every other one is a fault. */
  lemma {:induction false} HealthyExactly(xs: seq<Item>, bad: Item -> bool, x: Item)
    ensures multiset(Healthy(xs, bad))[x] == if bad(x) then 0 else multiset(xs)[x]
    ensures |Healthy(xs, bad)| + Faults(xs, bad) == |xs|
  {
    if xs != [] {
      var front, last := xs[..|xs| - 1], xs[|xs| - 1];
      assert xs == front + [last];
      HealthyExactly(front, bad, x);
    }
  }

  /** Their order is the order of the batch. */
  lemma {:induction false} HealthyInOrder(a: seq<Item>, b: seq<Item>, bad: Item -> bool)
    ensures Healthy(a + b, bad) == Healthy(a, bad) + Healthy(b, bad)
  {
    if b == [] {
      assert a + b == a && Healthy(a, bad) + [] == Healthy(a, bad);
    } else {
      var front, last := b[..|b| - 1], b[|b| - 1];
      assert (a + b)[..|a + b| - 1] == a + front && (a + b)[|a + b| - 1] == last;
      HealthyInOrder(a, front, bad);
    }
  }

  // The probe events among some records.
  function ProbesIn(log: seq<Item>): multiset<nat> {
    if log == [] then multiset{} else
    var front, last := ProbesIn(log[..|log| - 1]), log[|log| - 1];
    if last.ProbeEvent? then front + multiset{last.event} else front
  }

  lemma ProbesSnoc(log: seq<Item>, x: Item)
    ensures ProbesIn(log + [x]) == ProbesIn(log) + (if x.ProbeEvent? then multiset{x.event} else multiset{})
  {
    assert (log + [x])[..|log|] == log;
  }

  // A later record replaces the row of the same request.
  predicate Replaces(y: Item, x: Item) {
    Detailed(x) && Detailed(y) && y.id == x.id
  }

  /** Records stored together are logged in order; each probe event has its row;
      a request has its row, unless a later record of the batch has its id or the
      clear barrier covers it; and it counts in the statistics unless their
      barrier covers it. */
  lemma {:induction false} InsertedShows(t: Tables, xs: seq<Item>, sc: nat, hc: nat, i: nat)
    ensures var u := InsertedAll(t, xs, sc, hc);
      && u.log == t.log + xs && u.probes == t.probes + ProbesIn(xs)
      && (i < |xs| && Detailed(xs[i]) ==>
            && ((forall j :: i < j < |xs| ==> !Replaces(xs[j], xs[i])) ==>
                  if xs[i].number > hc then xs[i].id in u.rows && u.rows[xs[i].id] == xs[i].number
                  else xs[i].id !in u.rows)
            && (xs[i].number > sc ==> xs[i].number in u.accounted))
  {
    if xs == [] {
      assert t.log + [] == t.log;
    } else {
      var front, last := xs[..|xs| - 1], xs[|xs| - 1];
      assert xs == front + [last];
      InsertedShows(t, front, sc, hc, i);
      assert t.log + xs == (t.log + front) + [last];
      LastShows(InsertedAll(t, front, sc, hc), last, sc, hc);
    }
  }

  lemma LastShows(t: Tables, x: Item, sc: nat, hc: nat)
    ensures var u := Inserted(t, x, sc, hc);
      && u.log == t.log + [x]
      && u.probes == t.probes + (if x.ProbeEvent? then multiset{x.event} else multiset{})
      && t.accounted <= u.accounted
      && (Detailed(x) ==>
            && (if x.number > hc then x.id in u.rows && u.rows[x.id] == x.number else x.id !in u.rows)
            && (x.number > sc ==> x.number in u.accounted))
      && (forall id :: !(Detailed(x) && id == x.id) ==>
            (id in u.rows <==> id in t.rows) && (id in t.rows ==> u.rows[id] == t.rows[id]))
  {
  }

  // ---------------------------------------------------------- retention, backfill

  /** A commit publishes the writer's tables; the rows that retention selected are
      gone, all others stay, and the statistics keep what they counted. */
  lemma CommitShows(c: Limits, s: State, pruned: set<string>)
    requires Enabled(c, s, Commit(pruned))
    ensures var t, work := Next(c, s, Commit(pruned)).tables, s.writer.work;
      && t.log == work.log && t.accounted == work.accounted && t.probes == work.probes
      && forall id :: (id in t.rows <==> id in work.rows && id !in pruned)
                   && (id in t.rows ==> t.rows[id] == work.rows[id])
  {
  }

  /** A backfill counts exactly the rows that it visits. */
  lemma BackfillShows(c: Limits, s: State, ids: set<string>, n: nat)
    requires Enabled(c, s, Backfill(ids))
    ensures var t := Next(c, s, Backfill(ids)).tables;
      && t.rows == s.tables.rows && t.log == s.tables.log && t.probes == s.tables.probes
      && (n in t.accounted <==>
            n in s.tables.accounted || exists id :: id in ids && id in s.tables.rows && s.tables.rows[id] == n)
  {
  }

  // --------------------------------------------------------- in every interleaving

  ghost predicate ProbesOk(s: State) {
    && s.tables.probes == ProbesIn(s.tables.log)
    && (s.writer.Writing? ==> s.writer.work.probes == ProbesIn(s.writer.work.log))
  }

  lemma {:induction false} StepProbesOk(c: Limits, s: State, step: Step)
    requires ProbesOk(s) && Enabled(c, s, step)
    ensures ProbesOk(Next(c, s, step))
  {
    if Quiet(step) {
      QuietStep(c, s, step);
    } else if step.Insert? {
      ProbesSnoc(s.writer.work.log, s.writer.items[s.writer.at]);
    }
  }

  lemma {:induction false} RunProbesOk(c: Limits, s: State, steps: seq<Step>)
    requires ProbesOk(s) && Run(c, s, steps)
    ensures ProbesOk(After(c, s, steps))
    decreases |steps|
  {
    if steps != [] {
      StepProbesOk(c, s, steps[0]);
      RunProbesOk(c, Next(c, s, steps[0]), steps[1..]);
    }
  }

  /** In every interleaving the probe table holds exactly the committed probe
      events, as often as each was committed; no clear touches it. */
  lemma {:induction false} ProbesKept(c: Limits, s: State)
    requires Reaches(c, INITIAL, s)
    ensures s.tables.probes == ProbesIn(s.tables.log)
  {
    var steps :| Run(c, INITIAL, steps) && After(c, INITIAL, steps) == s;
    RunProbesOk(c, INITIAL, steps);
  }

  // ------------------------------------------------------- in the order accepted

  // The records the writer holds, in the order it will store them.
  function InHand(w: Writer): seq<Item> {
    match w
    case Idle => []
    case Filling(batch) => batch
    case Writing(items, _, _, _, rest, _) => items + rest
    case Retrying(left) => left
  }

  // Committed, in the writer's hands, queued.
  function Line(s: State): seq<Item> {
    s.tables.log + InHand(s.writer) + s.queue
  }

  // The records a run accepted, in order.
  function Arrivals(c: Limits, s: State, steps: seq<Step>): seq<Item>
    requires Run(c, s, steps)
    decreases |steps|
  {
    if steps == [] then []
    else Accepting(c, s, steps[0]) + Arrivals(c, Next(c, s, steps[0]), steps[1..])
  }

  function Accepting(c: Limits, s: State, step: Step): seq<Item> {
    if |s.queue| >= c.capacity then []
    else match step
    case Offer(x) => [x]
    case OfferProbe(e) => [ProbeEvent(e)]
    case _ => []
  }

  /** One list is another with some elements left out: `at` tells where each
      element stands in the whole. */
  predicate Within(part: seq<Item>, whole: seq<Item>, at: seq<nat>) {
    && |at| == |part| && (forall i :: 0 <= i < |at| ==> at[i] < |whole| && part[i] == whole[at[i]])
    && forall i, j :: 0 <= i < j < |at| ==> at[i] < at[j]
  }

  lemma WithinGrown(part: seq<Item>, whole: seq<Item>, at: seq<nat>, more: seq<Item>) returns (at': seq<nat>)
    requires Within(part, whole, at)
    ensures Within(part + more, whole + more, at')
  {
    at' := at + seq(|more|, i requires 0 <= i < |more| => |whole| + i);
  }

  lemma WithinLess(part: seq<Item>, whole: seq<Item>, at: seq<nat>, n: nat) returns (at': seq<nat>)
    requires Within(part, whole, at) && n < |part|
    ensures Within(part[..n] + part[n + 1..], whole, at')
  {
    at' := at[..n] + at[n + 1..];
  }

  lemma OfferLine(c: Limits, s: State, step: Step)
    requires Enabled(c, s, step) && (step.Offer? || step.OfferProbe?)
    ensures Line(Next(c, s, step)) == Line(s) + Accepting(c, s, step)
  {
    var t := Next(c, s, step);
    assert t.tables == s.tables && t.writer == s.writer && t.queue == s.queue + Accepting(c, s, step);
  }

  lemma TakeLine(c: Limits, s: State)
    requires Enabled(c, s, Take)
    ensures Line(Next(c, s, Take)) == Line(s)
  {
    assert s.queue == [s.queue[0]] + s.queue[1..];
  }

  lemma BeginLine(c: Limits, s: State)
    requires Enabled(c, s, Begin)
    ensures Line(Next(c, s, Begin)) == Line(s)
  {
    if s.writer.Retrying? { assert s.writer.left == s.writer.left[..1] + s.writer.left[1..]; }
  }

  lemma CommitLine(c: Limits, s: State, pruned: set<string>)
    requires WriterOk(s.writer, s.tables) && Enabled(c, s, Commit(pruned))
    ensures Line(Next(c, s, Commit(pruned))) == Line(s)
  {
    assert Inside(s.writer) == s.writer.items;
    assert InHand(Resume(s.writer.rest)) == s.writer.rest;
  }

  lemma RetryLine(c: Limits, s: State)
    requires WriterOk(s.writer, s.tables) && Enabled(c, s, Fail) && !(s.writer.Writing? && s.writer.single)
    ensures Line(Next(c, s, Fail)) == Line(s)
  {
    if s.writer.Writing? { assert s.writer.items + s.writer.rest == s.writer.items; }
    assert InHand(Next(c, s, Fail).writer) == InHand(s.writer);
  }

  lemma StepLine(c: Limits, s: State, step: Step)
    requires WriterOk(s.writer, s.tables) && Enabled(c, s, step)
    requires !(step.Fail? && s.writer.Writing? && s.writer.single)
    ensures Line(Next(c, s, step)) == Line(s) + Accepting(c, s, step)
  {
    assert Line(s) + [] == Line(s);
    match step
    case Offer(_) => OfferLine(c, s, step);
    case OfferProbe(_) => OfferLine(c, s, step);
    case Take => TakeLine(c, s);
    case Begin => BeginLine(c, s);
    case Commit(pruned) => CommitLine(c, s, pruned);
    case Fail => RetryLine(c, s);
    case _ => StillLine(c, s, step);
  }

  lemma StillLine(c: Limits, s: State, step: Step)
    requires Enabled(c, s, step)
    requires !step.Offer? && !step.OfferProbe? && !step.Take? && !step.Begin? && !step.Commit? && !step.Fail?
    ensures Line(Next(c, s, step)) == Line(s)
  {
    var t := Next(c, s, step);
    assert t.queue == s.queue && t.tables.log == s.tables.log && InHand(t.writer) == InHand(s.writer);
  }

  lemma CutOne(log: seq<Item>, x: Item, tail: seq<Item>)
    ensures var line := log + ([x] + tail);
      |log| < |line| && line[..|log|] == log && line[|log| + 1..] == tail
  {
  }

  lemma LineTail(s: State)
    ensures Line(s) == s.tables.log + (InHand(s.writer) + s.queue) && Line(s) + [] == Line(s)
  {
  }

  lemma GivenUp(c: Limits, s: State)
    requires WriterOk(s.writer, s.tables) && s.writer.Writing? && s.writer.single
    ensures var t := Next(c, s, Fail);
      && t.tables == s.tables && t.books.writeFailures == s.books.writeFailures + 1
      && InHand(s.writer) + s.queue == s.writer.items[..1] + (InHand(t.writer) + t.queue)
  {
    assert s.writer.items == s.writer.items[..1] && InHand(Resume(s.writer.rest)) == s.writer.rest;
  }

  lemma FailLine(c: Limits, s: State)
    requires WriterOk(s.writer, s.tables) && s.writer.Writing? && s.writer.single
    ensures var n, line := |s.tables.log|, Line(s);
      n < |line| && Line(Next(c, s, Fail)) == line[..n] + line[n + 1..]
  {
    var t, x := Next(c, s, Fail), s.writer.items[0];
    GivenUp(c, s);
    LineTail(s);
    LineTail(t);
    assert s.writer.items[..1] == [x];
    CutOne(s.tables.log, x, InHand(t.writer) + t.queue);
  }

  lemma StepWithin(c: Limits, s: State, step: Step, whole: seq<Item>, at: seq<nat>) returns (next: seq<nat>)
    requires WriterOk(s.writer, s.tables) && Enabled(c, s, step) && Within(Line(s), whole, at)
    ensures Within(Line(Next(c, s, step)), whole + Accepting(c, s, step), next)
  {
    if step.Fail? && s.writer.Writing? && s.writer.single {
      FailLine(c, s);
      next := WithinLess(Line(s), whole, at, |s.tables.log|);
      assert whole + Accepting(c, s, step) == whole;
    } else {
      StepLine(c, s, step);
      next := WithinGrown(Line(s), whole, at, Accepting(c, s, step));
    }
  }

  lemma Regrouped(a: seq<Item>, b: seq<Item>, d: seq<Item>)
    ensures (a + b) + d == a + (b + d)
  {
  }

  lemma {:induction false} RunLine(c: Limits, s: State, steps: seq<Step>, whole: seq<Item>, at: seq<nat>)
    returns (at': seq<nat>)
    requires WriterOk(s.writer, s.tables) && Run(c, s, steps) && Within(Line(s), whole, at)
    ensures Within(Line(After(c, s, steps)), whole + Arrivals(c, s, steps), at')
    decreases |steps|
  {
    if steps == [] {
      assert whole + [] == whole;
      at' := at;
    } else {
      var t, more := Next(c, s, steps[0]), Accepting(c, s, steps[0]);
      var next := StepWithin(c, s, steps[0], whole, at);
      StepWriterOk(c, s, steps[0]);
      at' := RunLine(c, t, steps[1..], whole + more, next);
      Regrouped(whole, more, Arrivals(c, t, steps[1..]));
    }
  }

  /** In every interleaving the committed records, those in the writer's hands and
      the queued ones are, in this order, the accepted records in the order in
      which they were accepted, without those that were given up. */
  lemma {:induction false} CommittedInOrder(c: Limits, steps: seq<Step>) returns (at: seq<nat>)
    requires Run(c, INITIAL, steps)
    ensures Within(Line(After(c, INITIAL, steps)), Arrivals(c, INITIAL, steps), at)
  {
    at := RunLine(c, INITIAL, steps, [], []);
    assert [] + Arrivals(c, INITIAL, steps) == Arrivals(c, INITIAL, steps);
  }

  // ------------------------------------------------------ nothing stays behind

  // How many steps the writer has before it, at most.
  function Work(w: Writer): int {
    match w
    case Idle => 0
    case Filling(batch) => 6 * |batch| + 2
    case Writing(items, at, checking, _, rest, single) =>
      (if single then 0 else 4 * |items|) + 2 * (|items| - at) - (if checking then 1 else 0) + 1 + 4 * |rest|
    case Retrying(left) => 4 * |left|
  }

  function Ahead(s: State): int {
    Work(s.writer) + 9 * |s.queue|
  }

  // Where the writer stands between two of its steps.
  predicate Steady(w: Writer, tables: Tables) {
    WriterOk(w, tables) && (w.Retrying? ==> w.left != [])
  }

  predicate AnyBad(xs: seq<Item>, bad: Item -> bool) {
    exists x :: x in xs && bad(x)
  }

  // The next step of the writer, when exactly the bad records raise.
  function Onward(w: Writer, bad: Item -> bool): Step {
    match w
    case Idle => Take
    case Filling(_) => Begin
    case Retrying(_) => Begin
    case Writing(items, at, checking, _, _, _) =>
      if AnyBad(items, bad) then Fail
      else if at == |items| then Commit({})
      else if checking then Check
      else Insert
  }

  // What will be committed, and how many failures there will be.
  function Fate(s: State, bad: Item -> bool): (seq<Item>, nat) {
    var left := InHand(s.writer) + s.queue;
    (s.tables.log + Healthy(left, bad), s.books.writeFailures + Faults(left, bad))
  }

  lemma {:induction false} NoneBad(xs: seq<Item>, bad: Item -> bool)
    requires !AnyBad(xs, bad)
    ensures Healthy(xs, bad) == xs && Faults(xs, bad) == 0
  {
    if xs != [] {
      assert xs == xs[..|xs| - 1] + [xs[|xs| - 1]];
      NoneBad(xs[..|xs| - 1], bad);
    }
  }

  lemma HealthyJoin(a: seq<Item>, b: seq<Item>, bad: Item -> bool)
    ensures Healthy(a + b, bad) == Healthy(a, bad) + Healthy(b, bad)
    ensures Faults(a + b, bad) == Faults(a, bad) + Faults(b, bad)
  {
    HealthyInOrder(a, b, bad);
    if a + b != [] { HealthyExactly(a + b, bad, (a + b)[0]); }
    if a != [] { HealthyExactly(a, bad, a[0]); }
    if b != [] { HealthyExactly(b, bad, b[0]); }
  }

  lemma FateWith(s: State, t: State, items: seq<Item>, left: seq<Item>, bad: Item -> bool)
    requires !AnyBad(items, bad) && t.books.writeFailures == s.books.writeFailures
    requires t.tables.log == s.tables.log + items
    requires InHand(s.writer) + s.queue == items + left && InHand(t.writer) + t.queue == left
    ensures Fate(t, bad) == Fate(s, bad)
  {
    HealthyJoin(items, left, bad);
    NoneBad(items, bad);
    assert s.tables.log + (items + Healthy(left, bad)) == (s.tables.log + items) + Healthy(left, bad);
  }

  lemma BadFirst(x: Item, left: seq<Item>, bad: Item -> bool)
    requires bad(x)
    ensures Healthy([x] + left, bad) == Healthy(left, bad) && Faults([x] + left, bad) == Faults(left, bad) + 1
  {
    HealthyJoin([x], left, bad);
    assert Healthy([x], bad) == [] && Faults([x], bad) == 1;
    assert [] + Healthy(left, bad) == Healthy(left, bad);
  }

  lemma FateWithout(s: State, t: State, x: Item, left: seq<Item>, bad: Item -> bool)
    requires bad(x) && t.tables.log == s.tables.log && t.books.writeFailures == s.books.writeFailures + 1
    requires InHand(s.writer) + s.queue == [x] + left && InHand(t.writer) + t.queue == left
    ensures Fate(t, bad) == Fate(s, bad)
  {
    BadFirst(x, left, bad);
  }

  lemma PutAway(c: Limits, s: State)
    requires WriterOk(s.writer, s.tables) && Enabled(c, s, Commit({}))
    ensures var t := Next(c, s, Commit({}));
      && t.tables.log == s.tables.log + s.writer.items && t.books == s.books
      && InHand(s.writer) + s.queue == s.writer.items + (InHand(t.writer) + t.queue)
  {
    assert Inside(s.writer) == s.writer.items && InHand(Resume(s.writer.rest)) == s.writer.rest;
  }

  lemma CommitFate(c: Limits, s: State, bad: Item -> bool)
    requires WriterOk(s.writer, s.tables) && Enabled(c, s, Commit({})) && !AnyBad(s.writer.items, bad)
    ensures Fate(Next(c, s, Commit({})), bad) == Fate(s, bad)
  {
    var t := Next(c, s, Commit({}));
    PutAway(c, s);
    FateWith(s, t, s.writer.items, InHand(t.writer) + t.queue, bad);
  }

  lemma GiveUpFate(c: Limits, s: State, bad: Item -> bool)
    requires WriterOk(s.writer, s.tables) && s.writer.Writing? && s.writer.single && AnyBad(s.writer.items, bad)
    ensures Fate(Next(c, s, Fail), bad) == Fate(s, bad)
  {
    var t, x := Next(c, s, Fail), s.writer.items[0];
    GivenUp(c, s);
    assert s.writer.items[..1] == [x];
    FateWithout(s, t, x, InHand(t.writer) + t.queue, bad);
  }

  // The other steps leave the records where they stand in line.
  lemma HeldLine(c: Limits, s: State, step: Step)
    requires WriterOk(s.writer, s.tables) && Enabled(c, s, step)
    requires step.Take? || step.Begin? || step.Insert? || step.Check? || step.Fail?
    requires !(step.Fail? && s.writer.Writing? && s.writer.single)
    ensures var t := Next(c, s, step);
      && t.tables == s.tables && t.books.writeFailures == s.books.writeFailures
      && InHand(t.writer) + t.queue == InHand(s.writer) + s.queue
  {
    var t := Next(c, s, step);
    StepLine(c, s, step);
    assert t.tables == s.tables && t.books.writeFailures == s.books.writeFailures;
    LineTail(s);
    LineTail(t);
    SameTail(s.tables.log, InHand(t.writer) + t.queue, InHand(s.writer) + s.queue);
  }

  lemma HeldFate(c: Limits, s: State, step: Step, bad: Item -> bool)
    requires WriterOk(s.writer, s.tables) && Enabled(c, s, step)
    requires step.Take? || step.Begin? || step.Insert? || step.Check? || step.Fail?
    requires !(step.Fail? && s.writer.Writing? && s.writer.single)
    ensures Fate(Next(c, s, step), bad) == Fate(s, bad)
  {
    HeldLine(c, s, step);
  }

  lemma SameTail(log: seq<Item>, a: seq<Item>, b: seq<Item>)
    requires log + a == log + b
    ensures a == b
  {
    assert (log + a)[|log|..] == a && (log + b)[|log|..] == b;
  }

  lemma ResumedWork(left: seq<Item>)
    ensures Work(Resume(left)) == 4 * |left| && (Resume(left).Retrying? ==> Resume(left).left != [])
  {
  }

  lemma FailAhead(c: Limits, s: State)
    requires Steady(s.writer, s.tables) && s.writer.Writing? && s.writer.items != []
    ensures var t := Next(c, s, Fail); (t.writer.Retrying? ==> t.writer.left != []) && 0 <= Ahead(t) < Ahead(s)
  {
    ResumedWork(s.writer.items);
    ResumedWork(s.writer.rest);
  }

  lemma MoveAhead(c: Limits, s: State, step: Step)
    requires Steady(s.writer, s.tables) && Enabled(c, s, step)
    requires (step.Take? && s.writer.Idle?) || step.Begin? || step.Insert? || step.Check? || step == Commit({})
    ensures var t := Next(c, s, step); (t.writer.Retrying? ==> t.writer.left != []) && 0 <= Ahead(t) < Ahead(s)
  {
    if step.Commit? { ResumedWork(s.writer.rest); }
  }

  lemma OnwardStep(c: Limits, s: State, bad: Item -> bool)
    requires Steady(s.writer, s.tables) && (s.writer.Idle? ==> s.queue != [])
    ensures Enabled(c, s, Onward(s.writer, bad))
    ensures var t := Next(c, s, Onward(s.writer, bad));
      Steady(t.writer, t.tables) && 0 <= Ahead(t) < Ahead(s) && StillWaits(s, t)
  {
    var step := Onward(s.writer, bad);
    StepWriterOk(c, s, step);
    if step.Fail? { FailAhead(c, s); } else { MoveAhead(c, s, step); }
  }

  // The writer's steps leave the clears, the backfill and the refused records
  // that wait for the lock.
  predicate StillWaits(s: State, t: State) {
    && t.marks == s.marks.(removed := t.marks.removed)
    && t.books.turnedAway == s.books.turnedAway
  }

  predicate Waits(s: State, step: Step) {
    match step
    case FinishClear(b) => b in s.marks.clears
    case AbandonClear(b) => b in s.marks.clears
    case FinishStatisticsClear(b) => b in s.marks.statisticsClears
    case CountDrop(x) => x in s.books.turnedAway
    case Backfill(_) => s.marks.backfilling
    case EndBackfill => true
    case _ => false
  }

  lemma OnwardFate(c: Limits, s: State, bad: Item -> bool)
    requires Steady(s.writer, s.tables) && (s.writer.Idle? ==> s.queue != [])
    ensures Enabled(c, s, Onward(s.writer, bad)) && Fate(Next(c, s, Onward(s.writer, bad)), bad) == Fate(s, bad)
  {
    var step := Onward(s.writer, bad);
    OnwardStep(c, s, bad);
    if step.Commit? {
      CommitFate(c, s, bad);
    } else if step.Fail? && s.writer.single {
      GiveUpFate(c, s, bad);
    } else {
      HeldFate(c, s, step, bad);
    }
  }

  lemma {:induction false} WriterCanFinish(c: Limits, s: State, bad: Item -> bool) returns (steps: seq<Step>)
    requires Steady(s.writer, s.tables) && Ahead(s) >= 0
    ensures Run(c, s, steps)
    ensures var t := After(c, s, steps);
      t.queue == [] && t.writer == Idle && (t.tables.log, t.books.writeFailures) == Fate(s, bad) && StillWaits(s, t)
    decreases Ahead(s)
  {
    if s.writer.Idle? && s.queue == [] {
      steps := [];
      assert s.tables.log + [] == s.tables.log;
    } else {
      OnwardStep(c, s, bad);
      OnwardFate(c, s, bad);
      var rest := WriterCanFinish(c, Next(c, s, Onward(s.writer, bad)), bad);
      steps := [Onward(s.writer, bad)] + rest;
      assert steps[1..] == rest;
    }
  }

  lemma {:induction false} RunSteady(c: Limits, s: State, steps: seq<Step>)
    requires Steady(s.writer, s.tables) && Run(c, s, steps)
    ensures var t := After(c, s, steps); Steady(t.writer, t.tables) && Ahead(t) >= 0
    decreases |steps|
  {
    if steps != [] {
      StepWriterOk(c, s, steps[0]);
      RunSteady(c, Next(c, s, steps[0]), steps[1..]);
    }
  }

  /** From every state a run can reach, and whichever records raise, the writer
      alone can finish: it commits exactly the other records that it holds or that
      are queued, in their order, and counts those that raise; and then nothing
      holds up whatever waits for the lock. */
  lemma {:induction false} CanFinish(c: Limits, s: State, bad: Item -> bool) returns (steps: seq<Step>)
    requires Reaches(c, INITIAL, s)
    ensures Run(c, s, steps)
    ensures var t, left := After(c, s, steps), InHand(s.writer) + s.queue;
      && t.queue == [] && t.writer == Idle
      && t.tables.log == s.tables.log + Healthy(left, bad)
      && t.books.writeFailures == s.books.writeFailures + Faults(left, bad)
      && forall step :: Waits(s, step) ==> Enabled(c, t, step)
  {
    var before :| Run(c, INITIAL, before) && After(c, INITIAL, before) == s;
    RunSteady(c, INITIAL, before);
    steps := WriterCanFinish(c, s, bad);
    var t := After(c, s, steps);
    forall step | Waits(s, step) ensures Enabled(c, t, step) { WaitOver(c, s, t, step); }
  }

  lemma WaitOver(c: Limits, s: State, t: State, step: Step)
    requires StillWaits(s, t) && t.writer == Idle && Waits(s, step)
    ensures Enabled(c, t, step)
  {
  }
}
