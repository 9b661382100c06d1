/** The history store's write path: numbering, the bounded queue, and batches
    that are written in one transaction or else record by record. */
module HistoryStore {
  type Sequence = n: nat | 0 < n witness 1

  datatype Item = Request(id: string, number: Sequence) | ProbeEvent(event: nat)

  /** The tables: detail rows by request id (here reduced to the number of the
      request they hold), the requests handed to the permanent statistics, the
      probe events. `log` lists every record whose transaction committed. */
  datatype Tables = Tables(rows: map<string, Sequence>, accounted: set<nat>,
                           probes: multiset<nat>, log: seq<Item>)

  const EMPTY := Tables(map[], {}, multiset{}, [])

  predicate Detailed(x: Item) {
    x.Request? && x.id != ""
  }

  /** `_insert_request` up to the statistics check, `_insert_probe_event`. */
  function Stored(t: Tables, x: Item, statisticsClear: nat): Tables {
    match x
    case ProbeEvent(e) => t.(probes := t.probes + multiset{e}, log := t.log + [x])
    case Request(id, n) =>
      if id == "" then t.(log := t.log + [x])
      else t.(rows := t.rows[id := n],
              accounted := if n > statisticsClear then t.accounted + {n} else t.accounted,
              log := t.log + [x])
  }

  /** The end of `_insert_request`: a request at or before the clear barrier
      loses its detail row again. */
  function Screened(t: Tables, x: Item, historyClear: nat): Tables {
    if Detailed(x) && x.number <= historyClear then t.(rows := t.rows - {x.id}) else t
  }

  function Inserted(t: Tables, x: Item, statisticsClear: nat, historyClear: nat): Tables {
    Screened(Stored(t, x, statisticsClear), x, historyClear)
  }

  // Several records in their order.
  function InsertedAll(t: Tables, xs: seq<Item>, statisticsClear: nat, historyClear: nat): Tables {
    if xs == [] then t
    else
      var before := InsertedAll(t, xs[..|xs| - 1], statisticsClear, historyClear);
      Inserted(before, xs[|xs| - 1], statisticsClear, historyClear)
  }

  // The records that do not raise.
  function Healthy(xs: seq<Item>, bad: Item -> bool): seq<Item> {
    if xs == [] then []
    else Healthy(xs[..|xs| - 1], bad) + (if bad(xs[|xs| - 1]) then [] else [xs[|xs| - 1]])
  }

  // How many do.
  function Faults(xs: seq<Item>, bad: Item -> bool): nat {
    if xs == [] then 0 else Faults(xs[..|xs| - 1], bad) + (if bad(xs[|xs| - 1]) then 1 else 0)
  }

  lemma HealthySnoc(xs: seq<Item>, i: nat, bad: Item -> bool)
    requires i < |xs|
    ensures Healthy(xs[..i + 1], bad) == Healthy(xs[..i], bad) + (if bad(xs[i]) then [] else [xs[i]])
    ensures Faults(xs[..i + 1], bad) == Faults(xs[..i], bad) + (if bad(xs[i]) then 1 else 0)
  {
    assert xs[..i + 1][..i] == xs[..i];
  }

  lemma InsertedSnoc(t: Tables, xs: seq<Item>, x: Item, statisticsClear: nat, historyClear: nat)
    ensures InsertedAll(t, xs + [x], statisticsClear, historyClear)
         == Inserted(InsertedAll(t, xs, statisticsClear, historyClear), x, statisticsClear, historyClear)
  {
    assert (xs + [x])[..|xs|] == xs;
  }

  lemma RetryStep(t: Tables, xs: seq<Item>, i: nat, bad: Item -> bool, sc: nat, hc: nat)
    requires i < |xs|
    ensures Faults(xs[..i + 1], bad) == Faults(xs[..i], bad) + (if bad(xs[i]) then 1 else 0)
    ensures var done, next := Healthy(xs[..i], bad), Healthy(xs[..i + 1], bad);
      if bad(xs[i]) then next == done
      else InsertedAll(t, next, sc, hc) == Inserted(InsertedAll(t, done, sc, hc), xs[i], sc, hc)
  {
    HealthySnoc(xs, i, bad);
    if !bad(xs[i]) { InsertedSnoc(t, Healthy(xs[..i], bad), xs[i], sc, hc); }
  }

  // The first i records were healthy, and are all that has been written.
  ghost predicate WrittenUpTo(t: Tables, batch: seq<Item>, bad: Item -> bool, sc: nat, hc: nat, i: nat, work: Tables) {
    && i <= |batch| && (forall j :: 0 <= j < i ==> !bad(batch[j]))
    && work == InsertedAll(t, batch[..i], sc, hc)
  }

  lemma NoneWritten(t: Tables, batch: seq<Item>, bad: Item -> bool, sc: nat, hc: nat)
    ensures WrittenUpTo(t, batch, bad, sc, hc, 0, t)
  {
  }

  lemma OneWritten(t: Tables, batch: seq<Item>, bad: Item -> bool, sc: nat, hc: nat, i: nat, work: Tables)
    requires WrittenUpTo(t, batch, bad, sc, hc, i, work) && i < |batch| && !bad(batch[i])
    ensures WrittenUpTo(t, batch, bad, sc, hc, i + 1, Inserted(work, batch[i], sc, hc))
  {
    assert batch[..i + 1][..i] == batch[..i];
  }

  lemma AllWritten(t: Tables, batch: seq<Item>, bad: Item -> bool, sc: nat, hc: nat, work: Tables)
    requires WrittenUpTo(t, batch, bad, sc, hc, |batch|, work)
    ensures Healthy(batch, bad) == batch && Faults(batch, bad) == 0 && work == InsertedAll(t, batch, sc, hc)
  {
    AllHealthy(batch, bad);
    assert batch[..|batch|] == batch;
  }

  /** The whole batch in one transaction, given up at the first bad record. */
  method WriteAll(t: Tables, batch: seq<Item>, bad: Item -> bool, statisticsClear: nat, historyClear: nat)
    returns (ok: bool, work: Tables)
    ensures ok <==> Faults(batch, bad) == 0
    ensures ok ==> Healthy(batch, bad) == batch && work == InsertedAll(t, batch, statisticsClear, historyClear)
  {
    work := t;
    var i := 0;
    NoneWritten(t, batch, bad, statisticsClear, historyClear);
    while i < |batch| && !bad(batch[i])
      invariant 0 <= i <= |batch| && WrittenUpTo(t, batch, bad, statisticsClear, historyClear, i, work)
    {
      OneWritten(t, batch, bad, statisticsClear, historyClear, i, work);
      work := Inserted(work, batch[i], statisticsClear, historyClear);
      i := i + 1;
    }
    ok := i == |batch|;
    if ok { AllWritten(t, batch, bad, statisticsClear, historyClear, work); } else { FirstFault(batch, i, bad); }
  }

  lemma {:induction false} AllHealthy(xs: seq<Item>, bad: Item -> bool)
    requires forall j :: 0 <= j < |xs| ==> !bad(xs[j])
    ensures Healthy(xs, bad) == xs && Faults(xs, bad) == 0
  {
    if xs != [] {
      AllHealthy(xs[..|xs| - 1], bad);
      assert xs == xs[..|xs| - 1] + [xs[|xs| - 1]];
    }
  }

  lemma FirstFault(xs: seq<Item>, i: nat, bad: Item -> bool)
    requires i < |xs| && bad(xs[i])
    ensures Faults(xs, bad) > 0
  {
    HealthySnoc(xs, i, bad);
    FaultsGrow(xs, i + 1, bad);
  }

  lemma {:induction false} FaultsGrow(xs: seq<Item>, i: nat, bad: Item -> bool)
    requires i <= |xs|
    ensures Faults(xs[..i], bad) <= Faults(xs, bad)
  {
    if i == |xs| {
      assert xs[..i] == xs;
    } else {
      var front := xs[..|xs| - 1];
      assert front[..i] == xs[..i];
      FaultsGrow(front, i, bad);
    }
  }

  /** The writer's own view, with no other thread in between. */
  class HistoryStore {
    const capacity: nat
    var sequence: nat
    var statisticsClear: nat
    var historyClear: nat
    var queue: seq<Item>
    var dropped: nat
    var writeFailures: nat
    var tables: Tables

    ghost predicate Valid()
      reads this
    {
      |queue| <= capacity && statisticsClear <= sequence && historyClear <= sequence
    }

    constructor (capacity: nat)
      ensures Valid() && this.capacity == capacity && queue == [] && tables == EMPTY
      ensures sequence == 0 && dropped == 0 && writeFailures == 0
    {
      this.capacity := capacity;
      sequence, statisticsClear, historyClear, queue, dropped, writeFailures := 0, 0, 0, [], 0, 0;
      tables := EMPTY;
    }

    /** `record_request`: the record is numbered, then queued or counted as dropped. */
    method RecordRequest(id: string) returns (x: Item)
      requires Valid()
      modifies this`sequence, this`queue, this`dropped
      ensures Valid() && sequence == old(sequence) + 1 && x == Request(id, sequence)
      ensures |old(queue)| < capacity ==> queue == old(queue) + [x] && dropped == old(dropped)
      ensures |old(queue)| == capacity ==> queue == old(queue) && dropped == old(dropped) + 1
    {
      sequence := sequence + 1;
      x := Request(id, sequence);
      if |queue| < capacity {
        queue := queue + [x];
      } else {
        dropped := dropped + 1;
      }
    }

    /** The first record waits, the others are taken while there are any. */
    method TakeBatch(batchSize: nat) returns (batch: seq<Item>)
      requires Valid() && queue != [] && batchSize > 0
      modifies this`queue
      ensures Valid() && old(queue) == batch + queue
      ensures |batch| == if |old(queue)| < batchSize then |old(queue)| else batchSize
    {
      batch, queue := [queue[0]], queue[1..];
      while |batch| < batchSize && queue != []
        invariant old(queue) == batch + queue
        invariant 0 < |batch| <= batchSize
        decreases |queue|
      {
        batch, queue := batch + [queue[0]], queue[1..];
      }
    }

    /** One drained batch. If any record raises, the transaction is rolled back
        and every record is tried again on its own: in the end the healthy
        records are stored exactly as if the bad ones had never been queued,
        and each bad one is one write failure. */
    method WriteBatch(batch: seq<Item>, bad: Item -> bool)
      requires Valid()
      modifies this`tables, this`writeFailures
      ensures Valid()
      ensures tables == InsertedAll(old(tables), Healthy(batch, bad), statisticsClear, historyClear)
      ensures writeFailures == old(writeFailures) + Faults(batch, bad)
    {
      var ok, work := WriteAll(tables, batch, bad, statisticsClear, historyClear);
      if ok {
        tables := work;
      } else {
        RetrySingly(batch, bad);
      }
    }

    method RetrySingly(batch: seq<Item>, bad: Item -> bool)
      requires Valid()
      modifies this`tables, this`writeFailures
      ensures Valid()
      ensures tables == InsertedAll(old(tables), Healthy(batch, bad), statisticsClear, historyClear)
      ensures writeFailures == old(writeFailures) + Faults(batch, bad)
    {
      ghost var start, failures := tables, writeFailures;
      ghost var sc, hc := statisticsClear, historyClear;
      for i := 0 to |batch|
        invariant statisticsClear == sc && historyClear == hc
        invariant tables == InsertedAll(start, Healthy(batch[..i], bad), sc, hc)
        invariant writeFailures == failures + Faults(batch[..i], bad)
      {
        RetryStep(start, batch, i, bad, sc, hc);
        if bad(batch[i]) {
          writeFailures := writeFailures + 1;
        } else {
          tables := Inserted(tables, batch[i], statisticsClear, historyClear);
        }
      }
      assert batch[..|batch|] == batch;
    }

    /** `clear`: the barrier is raised first, then the rows go. */
    method Clear()
      requires Valid()
      modifies this`historyClear, this`tables
      ensures Valid() && historyClear == sequence && tables == old(tables).(rows := map[])
    {
      historyClear := sequence;
      tables := tables.(rows := map[]);
    }
  }
}
