/** The diagnostics log: one current file, older files behind it, rotation by
    size, and the export of everything that is retained. */
module ConversionDiagnostics {
  type Size = n: nat | 0 < n witness 1

  datatype Record = Record(bytes: Size, text: string)

  datatype File = Missing | Present(records: seq<Record>)

  function Bytes(records: seq<Record>): nat {
    if records == [] then 0 else Bytes(records[..|records| - 1]) + records[|records| - 1].bytes
  }

  function Records(f: File): seq<Record> {
    if f.Present? then f.records else []
  }

  // os.path.getsize, or 0 for a missing file.
  function FileSize(f: File): nat {
    Bytes(Records(f))
  }

  /** Everything retained, oldest file first; files[0] is the current file. */
  function Contents(files: seq<File>): seq<Record> {
    if files == [] then [] else Contents(files[1..]) + Records(files[0])
  }

  predicate MustRotate(files: seq<File>, incoming: nat, limit: nat)
    requires files != []
  {
    FileSize(files[0]) > 0 && FileSize(files[0]) + incoming > limit
  }

  // Every file moves one place back; a gap leaves the oldest file where it is.
  function Rotated(files: seq<File>): seq<File>
    requires files != [] && files[0].Present?
  {
    var last := |files| - 1;
    if last == 0 then files
    else [Missing] + files[..last - 1] + [if files[last - 1].Present? then files[last - 1] else files[last]]
  }

  function Settled(files: seq<File>, incoming: nat, limit: nat): seq<File>
    requires files != []
  {
    if MustRotate(files, incoming, limit) then Rotated(files) else files
  }

  function Written(files: seq<File>, r: Record, limit: nat): seq<File>
    requires files != []
  {
    var settled := Settled(files, r.bytes, limit);
    settled[0 := Present(Records(settled[0]) + [r])]
  }

  // What the renames leave, place by place.
  lemma RotatedIs(was: seq<File>, now: seq<File>)
    requires |was| == |now| > 0 && was[0].Present?
    requires now[0] == if |was| == 1 then was[0] else Missing
    requires forall j :: 1 <= j < |was| - 1 ==> now[j] == was[j - 1]
    requires var last := |was| - 1;
      last > 0 ==> now[last] == if was[last - 1].Present? then was[last - 1] else was[last]
    ensures now == Rotated(was)
  {
  }

  class ConversionDiagnosticStore {
    const maxFileBytes: nat
    const files: array<File>
    var records: nat
    var dropped: nat

    constructor (existing: seq<File>, maxFileBytes: nat)
      requires existing != []
      ensures fresh(files) && files[..] == existing && this.maxFileBytes == maxFileBytes
      ensures records == |Contents(existing)| && dropped == 0
    {
      this.maxFileBytes := maxFileBytes;
      files := new File[|existing|](i requires 0 <= i < |existing| => existing[i]);
      records, dropped := |Contents(existing)|, 0;
    }

    /** `_rotate_locked`: the renames, oldest first. */
    method RotateLocked(incoming: nat)
      requires files.Length > 0
      modifies files
      ensures files[..] == Settled(old(files[..]), incoming, maxFileBytes)
    {
      if FileSize(files[0]) == 0 || FileSize(files[0]) + incoming <= maxFileBytes { return; }
      var last := files.Length - 1;
      for index := files.Length downto 1
        invariant forall j :: 0 <= j < index - 1 ==> files[j] == old(files[j])
        invariant files[index - 1] == if index == files.Length then old(files[last]) else Missing
        invariant forall j :: index <= j < last ==> files[j] == old(files[j - 1])
        invariant index <= last ==>
          files[last] == if old(files[last - 1]).Present? then old(files[last - 1]) else old(files[last])
      {
        if files[index - 1].Present? {
          files[index], files[index - 1] := files[index - 1], Missing;
        }
      }
      RotatedIs(old(files[..]), files[..]);
    }

    /** `_write`: rotate if the line does not fit, then append it. */
    method Write(r: Record)
      requires files.Length > 0
      modifies this`records, files
      ensures files[..] == Written(old(files[..]), r, maxFileBytes) && records == old(records) + 1
    {
      RotateLocked(r.bytes);
      files[0] := Present(Records(files[0]) + [r]);
      records := records + 1;
    }

    /** A write whose append raises: the rotation stays, the record is dropped. */
    method WriteFails(r: Record)
      requires files.Length > 0
      modifies this`dropped, files
      ensures files[..] == Settled(old(files[..]), r.bytes, maxFileBytes) && dropped == old(dropped) + 1
    {
      RotateLocked(r.bytes);
      dropped := dropped + 1;
    }

    /** `export_bytes`: the files in reverse order, missing ones skipped. */
    method Export() returns (chunks: seq<Record>)
      ensures chunks == Contents(files[..])
    {
      chunks := [];
      for index := files.Length downto 0
        invariant chunks == Contents(files[index..])
      {
        assert files[index..] == [files[index]] + files[index + 1..];
        if files[index].Present? { chunks := chunks + files[index].records; }
      }
      assert files[0..] == files[..];
    }
  }

  // -------------------------------------------------- what the log guarantees

  lemma {:induction false} ContentsConcat(a: seq<File>, b: seq<File>)
    ensures Contents(a + b) == Contents(b) + Contents(a)
  {
    if a == [] {
      assert a + b == b;
    } else {
      assert (a + b)[1..] == a[1..] + b;
      ContentsConcat(a[1..], b);
    }
  }

  lemma ContentsOne(f: File)
    ensures Contents([f]) == Records(f)
  {
    assert Contents([f][1..]) == [];
  }

  // What a rotation gives up: the oldest file, if another one moves over it.
  function Lost(files: seq<File>): seq<Record>
    requires files != []
  {
    var last := |files| - 1;
    if last > 0 && files[last - 1].Present? then Records(files[last]) else []
  }

  lemma ContentsSnoc(front: seq<File>, f: File)
    ensures Contents(front + [f]) == Records(f) + Contents(front)
  {
    ContentsConcat(front, [f]);
    ContentsOne(f);
  }

  // A rotated log begins with a missing file.
  lemma ContentsShifted(front: seq<File>, f: File)
    ensures Contents([Missing] + front + [f]) == Records(f) + Contents(front)
  {
    ContentsSnoc([Missing] + front, f);
    ContentsConcat([Missing], front);
    ContentsOne(Missing);
  }

  // The two oldest files and the rest.
  lemma SplitTwo(files: seq<File>)
    requires |files| >= 2
    ensures var n := |files|; files == files[..n - 2] + [files[n - 2]] + [files[n - 1]]
  {
  }

  lemma LastTwo(front: seq<File>, a: File, b: File)
    ensures Contents(front + [a] + [b]) == Records(b) + (Records(a) + Contents(front))
  {
    ContentsSnoc(front + [a], b);
    ContentsSnoc(front, a);
  }

  lemma Regroup(x: seq<Record>, y: seq<Record>, z: seq<Record>)
    ensures x + (y + z) == x + y + z && x + ([] + z) == [] + (x + z)
  {
  }

  /** A rotation drops the oldest file and keeps the rest in order. */
  lemma {:induction false} RotationLoses(files: seq<File>)
    requires files != [] && files[0].Present?
    ensures Contents(files) == Lost(files) + Contents(Rotated(files))
  {
    var n := |files|;
    if n == 1 {
      assert [] + Contents(files) == Contents(files);
    } else {
      var front, a, b := files[..n - 2], files[n - 2], files[n - 1];
      SplitTwo(files);
      LastTwo(front, a, b);
      ContentsShifted(front, if a.Present? then a else b);
      Regroup(Records(b), Records(a), Contents(front));
    }
  }

  lemma AppendContents(files: seq<File>, r: Record)
    requires files != []
    ensures Contents(files[0 := Present(Records(files[0]) + [r])]) == Contents(files) + [r]
  {
    var next := files[0 := Present(Records(files[0]) + [r])];
    assert next[1..] == files[1..];
  }

  // What settling gives up before an append.
  function Given(files: seq<File>, incoming: nat, limit: nat): seq<Record>
    requires files != []
  {
    if MustRotate(files, incoming, limit) then Lost(files) else []
  }

  lemma SettlingLoses(files: seq<File>, incoming: nat, limit: nat)
    requires files != []
    ensures Contents(files) == Given(files, incoming, limit) + Contents(Settled(files, incoming, limit))
  {
    if MustRotate(files, incoming, limit) { RotationLoses(files); }
  }

  /** A write, or a write whose append fails. */
  datatype Event = Wrote(r: Record) | Failed(r: Record)

  function Apply(files: seq<File>, e: Event, limit: nat): (next: seq<File>)
    requires files != []
    ensures |next| == |files|
  {
    match e
    case Wrote(r) => Written(files, r, limit)
    case Failed(r) => Settled(files, r.bytes, limit)
  }

  function Run(files: seq<File>, events: seq<Event>, limit: nat): (next: seq<File>)
    requires files != []
    ensures |next| == |files|
  {
    if events == [] then files
    else Apply(Run(files, events[..|events| - 1], limit), events[|events| - 1], limit)
  }

  function Adds(e: Event): seq<Record> {
    if e.Wrote? then [e.r] else []
  }

  function Appended(events: seq<Event>): seq<Record> {
    if events == [] then [] else Appended(events[..|events| - 1]) + Adds(events[|events| - 1])
  }

  lemma WriteLoses(files: seq<File>, r: Record, limit: nat)
    requires files != []
    ensures Contents(files) + [r] == Given(files, r.bytes, limit) + Contents(Written(files, r, limit))
  {
    var given, settled := Given(files, r.bytes, limit), Settled(files, r.bytes, limit);
    SettlingLoses(files, r.bytes, limit);
    AppendContents(settled, r);
    Regroup(given, Contents(settled), [r]);
  }

  lemma ApplyLoses(files: seq<File>, e: Event, limit: nat)
    requires files != []
    ensures Contents(files) + Adds(e) == Given(files, e.r.bytes, limit) + Contents(Apply(files, e, limit))
  {
    if e.Wrote? {
      WriteLoses(files, e.r, limit);
    } else {
      SettlingLoses(files, e.r.bytes, limit);
      assert Contents(files) + [] == Contents(files);
    }
  }

  /** The export is a contiguous suffix of everything ever written, oldest
      first, after any number of writes and rotations: what is missing is a
      prefix of the history. With a single file nothing is missing. */
  lemma {:induction false} ExportIsSuffix(files: seq<File>, events: seq<Event>, limit: nat) returns (lost: seq<Record>)
    requires files != []
    ensures Contents(files) + Appended(events) == lost + Contents(Run(files, events, limit))
    ensures |files| == 1 ==> lost == []
  {
    if events == [] {
      lost := [];
      assert Contents(files) + [] == [] + Contents(files);
    } else {
      var front, e := events[..|events| - 1], events[|events| - 1];
      var before := Run(files, front, limit);
      var earlier := ExportIsSuffix(files, front, limit);
      ApplyLoses(before, e, limit);
      var given := Given(before, e.r.bytes, limit);
      lost := earlier + given;
      Reassociate(Contents(files), Appended(front), Adds(e), earlier, Contents(before), given,
                  Contents(Apply(before, e, limit)));
    }
  }

  lemma Reassociate(a: seq<Record>, b: seq<Record>, x: seq<Record>, l: seq<Record>, c: seq<Record>,
                    g: seq<Record>, d: seq<Record>)
    requires a + b == l + c && c + x == g + d
    ensures a + (b + x) == l + g + d
  {
    assert a + (b + x) == a + b + x;
    assert l + c + x == l + (c + x);
    assert l + (g + d) == l + g + d;
  }

  lemma NewestIsKept(files: seq<File>, r: Record, limit: nat)
    requires files != []
    ensures var c := Contents(Written(files, r, limit)); c != [] && c[|c| - 1] == r
  {
    AppendContents(Settled(files, r.bytes, limit), r);
  }

  predicate Bounded(f: File, limit: nat) {
    FileSize(f) <= limit || |Records(f)| == 1
  }

  lemma OneBytes(r: Record)
    ensures Bytes([r]) == r.bytes
  {
    assert [r][..0] == [];
  }

  lemma {:induction false} NoBytes(records: seq<Record>)
    requires Bytes(records) == 0
    ensures records == []
  {
  }

  /** With two or more retained files, no file outgrows the limit unless it
      holds a single record, across any number of rotations. */
  lemma {:induction false} FilesStayBounded(files: seq<File>, events: seq<Event>, limit: nat)
    requires |files| >= 2 && forall f :: f in files ==> Bounded(f, limit)
    ensures forall f :: f in Run(files, events, limit) ==> Bounded(f, limit)
  {
    if events != [] {
      var front, e := events[..|events| - 1], events[|events| - 1];
      FilesStayBounded(files, front, limit);
      ApplyBounded(Run(files, front, limit), e, limit);
    }
  }

  lemma ApplyBounded(files: seq<File>, e: Event, limit: nat)
    requires |files| >= 2 && forall f :: f in files ==> Bounded(f, limit)
    ensures forall f :: f in Apply(files, e, limit) ==> Bounded(f, limit)
  {
    var settled := Settled(files, e.r.bytes, limit);
    forall f | f in settled ensures Bounded(f, limit) {}
    if e.Wrote? {
      var next := Records(settled[0]) + [e.r];
      assert next[..|next| - 1] == Records(settled[0]);
      OneBytes(e.r);
      if FileSize(settled[0]) == 0 {
        NoBytes(Records(settled[0]));
        assert next == [e.r];
      }
    }
  }

  // ------------------------------------------------------ how much is retained

  // Once the log has rotated, the two newest files exceed one file's limit.
  predicate Brimming(files: seq<File>, limit: nat) {
    |files| >= 2 && files[1].Present? ==> FileSize(files[0]) + FileSize(files[1]) > limit
  }

  lemma {:induction false} BytesConcat(a: seq<Record>, b: seq<Record>)
    ensures Bytes(a + b) == Bytes(a) + Bytes(b)
  {
    if b == [] {
      assert a + b == a;
    } else {
      assert (a + b)[..|a + b| - 1] == a + b[..|b| - 1];
      BytesConcat(a, b[..|b| - 1]);
    }
  }

  lemma NewestTwo(files: seq<File>)
    requires |files| >= 2
    ensures Bytes(Contents(files)) >= FileSize(files[0]) + FileSize(files[1])
  {
    BytesConcat(Contents(files[1..]), Records(files[0]));
    BytesConcat(Contents(files[1..][1..]), Records(files[1]));
  }

  lemma WriteBrims(files: seq<File>, r: Record, limit: nat)
    requires |files| >= 2 && Brimming(files, limit)
    ensures Brimming(Written(files, r, limit), limit)
    ensures files[1].Present? || Given(files, r.bytes, limit) != [] ==> Written(files, r, limit)[1].Present?
  {
    var settled := Settled(files, r.bytes, limit);
    BytesConcat(Records(settled[0]), [r]);
    OneBytes(r);
  }

  function Writes(records: seq<Record>): seq<Event> {
    seq(|records|, i requires 0 <= i < |records| => Wrote(records[i]))
  }

  // A state of the log after the given records were written.
  predicate Remains(files: seq<File>, records: seq<Record>, lost: seq<Record>, limit: nat) {
    && |files| >= 2 && records == lost + Contents(files)
    && Brimming(files, limit) && (lost != [] ==> files[1].Present?)
  }

  lemma WriteRemains(files: seq<File>, front: seq<Record>, r: Record, earlier: seq<Record>, limit: nat)
    requires Remains(files, front, earlier, limit)
    ensures Remains(Written(files, r, limit), front + [r], earlier + Given(files, r.bytes, limit), limit)
  {
    WriteBrims(files, r, limit);
    ApplyLoses(files, Wrote(r), limit);
    Reassociate([], front, [r], earlier, Contents(files), Given(files, r.bytes, limit),
        Contents(Written(files, r, limit)));
  }

  function EmptyLog(n: nat): (files: seq<File>)
    ensures |files| == n
  {
    seq(n, i => Missing)
  }

  lemma WritesSnoc(start: seq<File>, front: seq<Record>, r: Record, limit: nat)
    requires start != []
    ensures Run(start, Writes(front + [r]), limit) == Written(Run(start, Writes(front), limit), r, limit)
  {
    var events := Writes(front + [r]);
    assert events[..|events| - 1] == Writes(front);
  }

  lemma NothingWritten(n: nat, limit: nat)
    requires n >= 2
    ensures Run(EmptyLog(n), Writes([]), limit) == EmptyLog(n) && Remains(EmptyLog(n), [], [], limit)
  {
    NoContents(EmptyLog(n));
  }

  lemma RemainsFull(files: seq<File>, records: seq<Record>, lost: seq<Record>, limit: nat)
    requires Remains(files, records, lost, limit)
    ensures lost != [] ==> Bytes(Contents(files)) > limit
  {
    NewestTwo(files);
  }

  /** The log never forgets early: if any record of an unbroken run of writes to
      an empty log is gone, what is left still exceeds one file's limit. */
  lemma {:induction false} LossMeansFull(n: nat, records: seq<Record>, limit: nat) returns (lost: seq<Record>)
    requires n >= 2
    ensures var files := Run(EmptyLog(n), Writes(records), limit);
      Remains(files, records, lost, limit) && (lost != [] ==> Bytes(Contents(files)) > limit)
  {
    if records == [] {
      lost := [];
      NothingWritten(n, limit);
    } else {
      var front, r := records[..|records| - 1], records[|records| - 1];
      var earlier := LossMeansFull(n, front, limit);
      var before := Run(EmptyLog(n), Writes(front), limit);
      assert records == front + [r];
      WritesSnoc(EmptyLog(n), front, r, limit);
      WriteRemains(before, front, r, earlier, limit);
      lost := earlier + Given(before, r.bytes, limit);
      RemainsFull(Written(before, r, limit), records, lost, limit);
    }
  }

  lemma {:induction false} NoContents(files: seq<File>)
    requires forall f :: f in files ==> f == Missing
    ensures Contents(files) == []
  {
    if files != [] {
      assert files[0] in files && forall f :: f in files[1..] ==> f in files;
      NoContents(files[1..]);
    }
  }
}
