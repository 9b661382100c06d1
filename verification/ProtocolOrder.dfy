/** What any Anthropic request keeps on its way to Chat: every kind of event in
    its order, and the order between kinds exactly where the turn is tidy. */
module ProtocolOrder {
  import opened Options
  import opened Sequences
  import opened ProtocolAdapters
  import opened ProtocolRoundTrip

  // --------------------------------------------------- sorting events by kind

  type Rank = Event -> nat

  function Of(rank: Rank, n: nat): Event -> seq<Event> {
    (e: Event) => if rank(e) == n then [e] else []
  }

  // The events of one kind.
  function Kind(rank: Rank, n: nat, es: seq<Event>): seq<Event> {
    FlatMap(Of(rank, n), es)
  }

  predicate Sorted(rank: Rank, es: seq<Event>) {
    forall i, j :: 0 <= i < j < |es| ==> rank(es[i]) <= rank(es[j])
  }

  function ByKind(rank: Rank, es: seq<Event>): seq<Event> {
    Kind(rank, 0, es) + Kind(rank, 1, es) + Kind(rank, 2, es) + Kind(rank, 3, es)
  }

  lemma {:induction false} KindNone(rank: Rank, n: nat, es: seq<Event>)
    requires forall e :: e in es ==> rank(e) != n
    ensures Kind(rank, n, es) == []
  {
    FlatMapNone(Of(rank, n), es);
  }

  lemma KindSnoc(rank: Rank, n: nat, es: seq<Event>, e: Event)
    ensures Kind(rank, n, es + [e]) == if rank(e) == n then Kind(rank, n, es) + [e] else Kind(rank, n, es)
  {
    FlatMapSnoc(Of(rank, n), es, e);
  }

  /** Sorted events are their kinds, one after the other. */
  lemma {:induction false} SortedByKind(rank: Rank, es: seq<Event>)
    requires Sorted(rank, es) && Ranked(rank, es)
    ensures es == ByKind(rank, es)
  {
    if es != [] {
      var front, e := es[..|es| - 1], es[|es| - 1];
      assert es == front + [e] && e in es;
      SortedByKind(rank, front);
      LastKind(rank, front, e);
    }
  }

  lemma LastKind(rank: Rank, front: seq<Event>, e: Event)
    requires front == ByKind(rank, front) && rank(e) <= 3 && forall x :: x in front ==> rank(x) <= rank(e)
    ensures front + [e] == ByKind(rank, front + [e])
  {
    KindSnoc(rank, 0, front, e);
    KindSnoc(rank, 1, front, e);
    KindSnoc(rank, 2, front, e);
    KindSnoc(rank, 3, front, e);
    if rank(e) < 1 { KindNone(rank, 1, front); }
    if rank(e) < 2 { KindNone(rank, 2, front); }
    if rank(e) < 3 { KindNone(rank, 3, front); }
    AddLast(Kind(rank, 0, front), Kind(rank, 1, front), Kind(rank, 2, front), Kind(rank, 3, front), e, rank(e));
  }

  // Appending to the last kind that is not empty.
  lemma AddLast(a: seq<Event>, b: seq<Event>, c: seq<Event>, d: seq<Event>, e: Event, n: nat)
    requires n <= 3 && (n < 1 ==> b == []) && (n < 2 ==> c == []) && (n < 3 ==> d == [])
    ensures (a + b + c + d) + [e] ==
      (if n == 0 then a + [e] else a) + (if n == 1 then b + [e] else b)
      + (if n == 2 then c + [e] else c) + (if n == 3 then d + [e] else d)
  {
  }

  // Three pieces of one kind each.
  lemma PiecesByKind(rank: Rank, n: nat, a: seq<Event>, b: seq<Event>, c: seq<Event>)
    requires forall e :: e in a ==> rank(e) == 0
    requires forall e :: e in b ==> rank(e) == 1
    requires forall e :: e in c ==> rank(e) == 2
    ensures Kind(rank, n, a + b + c) == if n == 0 then a else if n == 1 then b else if n == 2 then c else []
  {
    OneKind(rank, 0, a, n);
    OneKind(rank, 1, b, n);
    OneKind(rank, 2, c, n);
    KindThree(rank, n, a, b, c);
    Glued(Kind(rank, n, a), Kind(rank, n, b), Kind(rank, n, c), n, a, b, c);
  }

  lemma KindThree(rank: Rank, n: nat, a: seq<Event>, b: seq<Event>, c: seq<Event>)
    ensures Kind(rank, n, a + b + c) == Kind(rank, n, a) + Kind(rank, n, b) + Kind(rank, n, c)
  {
    FlatMapConcat(Of(rank, n), a + b, c);
    FlatMapConcat(Of(rank, n), a, b);
  }

  lemma Glued(x: seq<Event>, y: seq<Event>, z: seq<Event>, n: nat, a: seq<Event>, b: seq<Event>, c: seq<Event>)
    requires x == (if n == 0 then a else []) && y == (if n == 1 then b else []) && z == if n == 2 then c else []
    ensures x + y + z == if n == 0 then a else if n == 1 then b else if n == 2 then c else []
  {
  }

  lemma AllKinds(rank: Rank, a: seq<Event>, b: seq<Event>, c: seq<Event>)
    requires forall e :: e in a ==> rank(e) == 0
    requires forall e :: e in b ==> rank(e) == 1
    requires forall e :: e in c ==> rank(e) == 2
    ensures SplitsInto(rank, a + b + c, a, b, c, [])
  {
    PiecesByKind(rank, 0, a, b, c);
    PiecesByKind(rank, 1, a, b, c);
    PiecesByKind(rank, 2, a, b, c);
    PiecesByKind(rank, 3, a, b, c);
  }

  lemma ThreePieces(rank: Rank, a: seq<Event>, b: seq<Event>, c: seq<Event>)
    requires forall e :: e in a ==> rank(e) == 0
    requires forall e :: e in b ==> rank(e) == 1
    requires forall e :: e in c ==> rank(e) == 2
    ensures Sorted(rank, a + b + c) && Ranked(rank, a + b + c) && SplitsInto(rank, a + b + c, a, b, c, [])
  {
    PiecesSorted(rank, a, b, c);
    AllKinds(rank, a, b, c);
  }

  lemma TwoPieces(rank: Rank, a: seq<Event>, b: seq<Event>)
    requires forall e :: e in a ==> rank(e) == 0
    requires forall e :: e in b ==> rank(e) == 1
    ensures Sorted(rank, a + b) && Ranked(rank, a + b) && SplitsInto(rank, a + b, a, b, [], [])
  {
    assert a + b == a + b + [];
    ThreePieces(rank, a, b, []);
  }

  // The four kinds of some events.
  predicate SplitsInto(rank: Rank, es: seq<Event>, a: seq<Event>, b: seq<Event>, c: seq<Event>, d: seq<Event>) {
    Kind(rank, 0, es) == a && Kind(rank, 1, es) == b && Kind(rank, 2, es) == c && Kind(rank, 3, es) == d
  }

  predicate Ranked(rank: Rank, es: seq<Event>) {
    forall e :: e in es ==> rank(e) <= 3
  }

  /** Sorted events equal others exactly when those are sorted too and have the
      same kinds. */
  lemma {:induction false} EventsExactly(rank: Rank, es: seq<Event>, others: seq<Event>, a: seq<Event>, b: seq<Event>,
                                         c: seq<Event>, d: seq<Event>)
    requires Sorted(rank, es) && Ranked(rank, es) && Ranked(rank, others) && SplitsInto(rank, es, a, b, c, d)
    ensures es == others <==> Sorted(rank, others) && SplitsInto(rank, others, a, b, c, d)
  {
    if Sorted(rank, others) && SplitsInto(rank, others, a, b, c, d) {
      SortedByKind(rank, es);
      SortedByKind(rank, others);
    }
  }

  lemma PiecesSorted(rank: Rank, a: seq<Event>, b: seq<Event>, c: seq<Event>)
    requires forall e :: e in a ==> rank(e) == 0
    requires forall e :: e in b ==> rank(e) == 1
    requires forall e :: e in c ==> rank(e) == 2
    ensures Sorted(rank, a + b + c)
  {
    var es := a + b + c;
    forall i | 0 <= i < |es| ensures rank(es[i]) == if i < |a| then 0 else if i < |a| + |b| then 1 else 2 {
      assert es[i] == if i < |a| then a[i] else if i < |a| + |b| then b[i - |a|] else c[i - |a| - |b|];
    }
  }

  lemma {:induction false} OneKind(rank: Rank, n: nat, es: seq<Event>, m: nat)
    requires forall e :: e in es ==> rank(e) == n
    ensures Kind(rank, m, es) == if m == n then es else []
  {
    if m != n {
      KindNone(rank, m, es);
    } else if es != [] {
      var front, e := es[..|es| - 1], es[|es| - 1];
      assert es == front + [e] && e in es;
      OneKind(rank, n, front, n);
      KindSnoc(rank, n, front, e);
    }
  }

  lemma KindsOfOne(rank: Rank, n: nat, es: seq<Event>)
    requires forall e :: e in es ==> rank(e) == n
    ensures Kind(rank, 0, es) == if n == 0 then es else []
    ensures Kind(rank, 1, es) == if n == 1 then es else []
    ensures Kind(rank, 2, es) == if n == 2 then es else []
    ensures Kind(rank, 3, es) == if n == 3 then es else []
  {
    OneKind(rank, n, es, 0);
    OneKind(rank, n, es, 1);
    OneKind(rank, n, es, 2);
    OneKind(rank, n, es, 3);
  }

  // ------------------------------------------------------- texts joined or not

  // A way of saying a text: nothing for a blank one, else one event that tells it.
  ghost predicate Tells(f: string -> seq<Event>) {
    f("") == [] && (forall s :: s != "" ==> |f(s)| == 1) && forall s, t :: f(s) == f(t) ==> s == t
  }

  lemma {:induction false} JoinLonger(ts: seq<string>, t: string)
    requires |ts| >= 2 && t in ts
    ensures |Join(ts)| > |t|
  {
    var front, last := ts[..|ts| - 1], ts[|ts| - 1];
    assert ts == front + [last];
    if t in front {
      if |front| >= 2 { JoinLonger(front, t); } else { assert front == [t]; }
    }
  }

  lemma {:induction false} OneTold(f: string -> seq<Event>, ts: seq<string>)
    requires Tells(f) && |FlatMap(f, ts)| == 1
    ensures exists t :: t in ts && FlatMap(f, ts) == f(t)
  {
    var front, last := ts[..|ts| - 1], ts[|ts| - 1];
    assert last in ts;
    if f(last) == [] {
      OneTold(f, front);
      assert FlatMap(f, ts) == FlatMap(f, front) + [];
      var t :| t in front && FlatMap(f, front) == f(t);
      assert t in ts;
    } else {
      assert last != "" && |f(last)| == 1;
      assert FlatMap(f, front) == [];
    }
  }

  /** Saying texts one by one is saying their join exactly when there is at most
      one of them. */
  lemma {:induction false} JoinedExactly(f: string -> seq<Event>, ts: seq<string>)
    requires Tells(f)
    ensures FlatMap(f, ts) == f(Join(ts)) <==> |ts| <= 1
  {
    if |ts| == 1 {
      FlatMapOne(f, ts[0]);
      assert ts == [ts[0]];
    } else if |ts| >= 2 && FlatMap(f, ts) == f(Join(ts)) {
      JoinLonger(ts, ts[0]);
      OneTold(f, ts);
      var t :| t in ts && FlatMap(f, ts) == f(t);
      JoinLonger(ts, t);
    }
  }

  function SaysThought(): string -> seq<Event> { (s: string) => Thinks(s) }
  function SaysReply(): string -> seq<Event> { (s: string) => AssistantSays(s) }
  function SaysAsk(): string -> seq<Event> { (s: string) => UserSays(s) }

  lemma AllTell()
    ensures Tells(SaysThought()) && Tells(SaysReply()) && Tells(SaysAsk())
  {
    forall s, t | SaysThought()(s) == SaysThought()(t) ensures s == t { assert Thinks(s) == Thinks(t); }
    forall s, t | SaysReply()(s) == SaysReply()(t) ensures s == t { assert AssistantSays(s) == AssistantSays(t); }
    forall s, t | SaysAsk()(s) == SaysAsk()(t) ensures s == t { assert UserSays(s) == UserSays(t); }
  }

  // ------------------------------------------------- the kinds of a block list

  function UseSays(b: Block): seq<Event> { if b.ToolUse? then [ToolCall(b.id, b.name, b.input)] else [] }

  function ResultSays(b: Block): seq<Event> {
    if b.ResultBlock? then [ToolResult(b.id, ResultText(b.s, b.isError))] else []
  }

  function AssistantRank(e: Event): nat {
    match e
    case Reasoning(_) => 0
    case AssistantText(_) => 1
    case ToolCall(_, _, _) => 2
    case ToolResult(_, _) => 3
    case UserText(_) => 3
  }

  function UserRank(e: Event): nat {
    match e
    case ToolResult(_, _) => 0
    case UserText(_) => 1
    case Reasoning(_) => 2
    case ToolCall(_, _, _) => 3
    case AssistantText(_) => 3
  }

  lemma AssistantRanked(es: seq<Event>)
    ensures Ranked(AssistantRank, es)
  {
  }

  lemma UserRanked(es: seq<Event>)
    ensures Ranked(UserRank, es)
  {
  }

  // What a turn of blocks becomes, placeholder aside.
  function AssistantCore(bs: seq<Block>): seq<Event> {
    Thinks(Join(Thoughts(bs))) + AssistantSays(Join(Texts(bs))) + FlatMap(UseSays, bs)
  }

  function UserCore(bs: seq<Block>): seq<Event> {
    FlatMap(ResultSays, bs) + UserSays(Join(Texts(bs) + Thoughts(bs)))
  }

  lemma AssistantKinds(bs: seq<Block>)
    ensures var es := BlocksSay(FromAssistant, bs);
      && Kind(AssistantRank, 0, es) == FlatMap(SaysThought(), Thoughts(bs))
      && Kind(AssistantRank, 1, es) == FlatMap(SaysReply(), Texts(bs))
      && Kind(AssistantRank, 2, es) == FlatMap(UseSays, bs)
      && Kind(AssistantRank, 3, es) == FlatMap(ResultSays, bs)
  {
    forall n: nat | n <= 3 ensures Kind(AssistantRank, n, BlocksSay(FromAssistant, bs))
        == FlatMap(BlockKind(AssistantRank, FromAssistant, n), bs) {
      FlatMapThrough(BlockSays(FromAssistant), Of(AssistantRank, n), BlockKind(AssistantRank, FromAssistant, n), bs);
    }
    forall b | b in bs ensures FlatMap(SaysThought(), ThoughtIn(b)) == BlockKind(AssistantRank, FromAssistant, 0)(b) {
      AssistantBlock(b);
    }
    FlatMapThrough(ThoughtIn, SaysThought(), BlockKind(AssistantRank, FromAssistant, 0), bs);
    forall b | b in bs ensures FlatMap(SaysReply(), TextIn(b)) == BlockKind(AssistantRank, FromAssistant, 1)(b) {
      AssistantBlock(b);
    }
    FlatMapThrough(TextIn, SaysReply(), BlockKind(AssistantRank, FromAssistant, 1), bs);
    forall b | b in bs ensures UseSays(b) == BlockKind(AssistantRank, FromAssistant, 2)(b) { AssistantBlock(b); }
    FlatMapAgree(UseSays, BlockKind(AssistantRank, FromAssistant, 2), bs);
    forall b | b in bs ensures ResultSays(b) == BlockKind(AssistantRank, FromAssistant, 3)(b) { AssistantBlock(b); }
    FlatMapAgree(ResultSays, BlockKind(AssistantRank, FromAssistant, 3), bs);
  }

  function BlockKind(rank: Rank, role: Role, n: nat): Block -> seq<Event> {
    (b: Block) => Kind(rank, n, BlockSays(role)(b))
  }

  // The kind of everything a block says in an assistant turn.
  function AssistantBlockRank(b: Block): nat {
    match b
    case Thinking(_) => 0
    case TextBlock(_) => 1
    case ToolUse(_, _, _) => 2
    case ResultBlock(_, _, _) => 3
  }

  lemma AssistantBlockRanked(b: Block)
    ensures forall e :: e in BlockSays(FromAssistant)(b) ==> AssistantRank(e) == AssistantBlockRank(b)
  {
  }

  lemma AssistantBlockTold(b: Block)
    ensures FlatMap(SaysThought(), ThoughtIn(b)) == if b.Thinking? then BlockSays(FromAssistant)(b) else []
    ensures FlatMap(SaysReply(), TextIn(b)) == if b.TextBlock? then BlockSays(FromAssistant)(b) else []
    ensures UseSays(b) == if b.ToolUse? then BlockSays(FromAssistant)(b) else []
    ensures ResultSays(b) == if b.ResultBlock? then BlockSays(FromAssistant)(b) else []
  {
    if b.Thinking? { FlatMapOne(SaysThought(), b.s); }
    if b.TextBlock? { FlatMapOne(SaysReply(), b.s); }
  }

  lemma AssistantBlock(b: Block)
    ensures FlatMap(SaysThought(), ThoughtIn(b)) == Kind(AssistantRank, 0, BlockSays(FromAssistant)(b))
    ensures FlatMap(SaysReply(), TextIn(b)) == Kind(AssistantRank, 1, BlockSays(FromAssistant)(b))
    ensures UseSays(b) == Kind(AssistantRank, 2, BlockSays(FromAssistant)(b))
    ensures ResultSays(b) == Kind(AssistantRank, 3, BlockSays(FromAssistant)(b))
  {
    AssistantBlockTold(b);
    AssistantBlockRanked(b);
    KindsOfOne(AssistantRank, AssistantBlockRank(b), BlockSays(FromAssistant)(b));
  }

  lemma UserKinds(bs: seq<Block>)
    ensures var es := BlocksSay(FromUser, bs);
      && Kind(UserRank, 0, es) == FlatMap(ResultSays, bs)
      && Kind(UserRank, 1, es) == FlatMap(SaysAsk(), Texts(bs))
      && Kind(UserRank, 2, es) == FlatMap(SaysThought(), Thoughts(bs))
      && Kind(UserRank, 3, es) == FlatMap(UseSays, bs)
  {
    forall n: nat | n <= 3 ensures Kind(UserRank, n, BlocksSay(FromUser, bs))
        == FlatMap(BlockKind(UserRank, FromUser, n), bs) {
      FlatMapThrough(BlockSays(FromUser), Of(UserRank, n), BlockKind(UserRank, FromUser, n), bs);
    }
    forall b | b in bs ensures ResultSays(b) == BlockKind(UserRank, FromUser, 0)(b) { UserBlock(b); }
    FlatMapAgree(ResultSays, BlockKind(UserRank, FromUser, 0), bs);
    forall b | b in bs ensures FlatMap(SaysAsk(), TextIn(b)) == BlockKind(UserRank, FromUser, 1)(b) { UserBlock(b); }
    FlatMapThrough(TextIn, SaysAsk(), BlockKind(UserRank, FromUser, 1), bs);
    forall b | b in bs ensures FlatMap(SaysThought(), ThoughtIn(b)) == BlockKind(UserRank, FromUser, 2)(b) {
      UserBlock(b);
    }
    FlatMapThrough(ThoughtIn, SaysThought(), BlockKind(UserRank, FromUser, 2), bs);
    forall b | b in bs ensures UseSays(b) == BlockKind(UserRank, FromUser, 3)(b) { UserBlock(b); }
    FlatMapAgree(UseSays, BlockKind(UserRank, FromUser, 3), bs);
  }

  // The kind of everything a block says in a user turn.
  function UserBlockRank(b: Block): nat {
    match b
    case Thinking(_) => 2
    case TextBlock(_) => 1
    case ToolUse(_, _, _) => 3
    case ResultBlock(_, _, _) => 0
  }

  lemma UserBlockRanked(b: Block)
    ensures forall e :: e in BlockSays(FromUser)(b) ==> UserRank(e) == UserBlockRank(b)
  {
  }

  lemma UserBlockTold(b: Block)
    ensures FlatMap(SaysThought(), ThoughtIn(b)) == if b.Thinking? then BlockSays(FromUser)(b) else []
    ensures FlatMap(SaysAsk(), TextIn(b)) == if b.TextBlock? then BlockSays(FromUser)(b) else []
    ensures UseSays(b) == if b.ToolUse? then BlockSays(FromUser)(b) else []
    ensures ResultSays(b) == if b.ResultBlock? then BlockSays(FromUser)(b) else []
  {
    if b.Thinking? { FlatMapOne(SaysThought(), b.s); }
    if b.TextBlock? { FlatMapOne(SaysAsk(), b.s); }
  }

  lemma UserBlock(b: Block)
    ensures ResultSays(b) == Kind(UserRank, 0, BlockSays(FromUser)(b))
    ensures FlatMap(SaysAsk(), TextIn(b)) == Kind(UserRank, 1, BlockSays(FromUser)(b))
    ensures FlatMap(SaysThought(), ThoughtIn(b)) == Kind(UserRank, 2, BlockSays(FromUser)(b))
    ensures UseSays(b) == Kind(UserRank, 3, BlockSays(FromUser)(b))
  {
    UserBlockTold(b);
    UserBlockRanked(b);
    KindsOfOne(UserRank, UserBlockRank(b), BlockSays(FromUser)(b));
  }

  // --------------------------------------------------------------- tidy turns

  // Nothing but the calls, or the results, of a block list.
  lemma {:induction false} OnlyUses(bs: seq<Block>)
    ensures forall e :: e in FlatMap(UseSays, bs) ==> e.ToolCall?
    ensures FlatMap(UseSays, bs) == [] <==> forall b :: b in bs ==> !b.ToolUse?
  {
    if bs != [] {
      assert bs == bs[..|bs| - 1] + [bs[|bs| - 1]];
      OnlyUses(bs[..|bs| - 1]);
    }
  }

  lemma {:induction false} OnlyResults(bs: seq<Block>)
    ensures forall e :: e in FlatMap(ResultSays, bs) ==> e.ToolResult?
    ensures FlatMap(ResultSays, bs) == [] <==> forall b :: b in bs ==> !b.ResultBlock?
  {
    if bs != [] {
      assert bs == bs[..|bs| - 1] + [bs[|bs| - 1]];
      OnlyResults(bs[..|bs| - 1]);
    }
  }

  /** An assistant turn that loses nothing: one reasoning and one text block at
      most, no tool results, and reasoning before text before calls. */
  predicate TidyAssistant(bs: seq<Block>) {
    && |Thoughts(bs)| <= 1 && |Texts(bs)| <= 1 && (forall b :: b in bs ==> !b.ResultBlock?)
    && Sorted(AssistantRank, BlocksSay(FromAssistant, bs))
  }

  /** Such a turn, and no other, comes back with its events in their order. */
  lemma {:induction false} AssistantExactly(bs: seq<Block>)
    ensures AssistantCore(bs) == BlocksSay(FromAssistant, bs) <==> TidyAssistant(bs)
  {
    var a, b, c := Thinks(Join(Thoughts(bs))), AssistantSays(Join(Texts(bs))), FlatMap(UseSays, bs);
    OnlyUses(bs);
    ThreePieces(AssistantRank, a, b, c);
    AssistantRanked(BlocksSay(FromAssistant, bs));
    AssistantTidy(bs);
    EventsExactly(AssistantRank, AssistantCore(bs), BlocksSay(FromAssistant, bs), a, b, c, []);
  }

  lemma AssistantTidy(bs: seq<Block>)
    ensures var es := BlocksSay(FromAssistant, bs);
      TidyAssistant(bs) <==>
        && Sorted(AssistantRank, es)
        && SplitsInto(AssistantRank, es, Thinks(Join(Thoughts(bs))), AssistantSays(Join(Texts(bs))),
                      FlatMap(UseSays, bs), [])
  {
    AssistantKinds(bs);
    OnlyResults(bs);
    AllTell();
    JoinedExactly(SaysThought(), Thoughts(bs));
    JoinedExactly(SaysReply(), Texts(bs));
  }

  /** A user turn that loses nothing: one text or blank reasoning block at most,
      no tool calls, and the results before the text. */
  predicate TidyUser(bs: seq<Block>) {
    && |Texts(bs) + Thoughts(bs)| <= 1 && FlatMap(SaysThought(), Thoughts(bs)) == []
    && (forall b :: b in bs ==> !b.ToolUse?)
    && Sorted(UserRank, BlocksSay(FromUser, bs))
  }

  /** Such a turn, and no other, comes back with its events in their order. */
  lemma {:induction false} UserExactly(bs: seq<Block>)
    ensures UserCore(bs) == BlocksSay(FromUser, bs) <==> TidyUser(bs)
  {
    var a, b := FlatMap(ResultSays, bs), UserSays(Join(Texts(bs) + Thoughts(bs)));
    OnlyResults(bs);
    TwoPieces(UserRank, a, b);
    UserRanked(BlocksSay(FromUser, bs));
    UserTidy(bs);
    EventsExactly(UserRank, UserCore(bs), BlocksSay(FromUser, bs), a, b, [], []);
  }

  lemma UserTidy(bs: seq<Block>)
    ensures var es := BlocksSay(FromUser, bs);
      TidyUser(bs) <==>
        && Sorted(UserRank, es)
        && SplitsInto(UserRank, es, FlatMap(ResultSays, bs), UserSays(Join(Texts(bs) + Thoughts(bs))), [], [])
  {
    UserKinds(bs);
    OnlyUses(bs);
    AllTell();
    AsksJoined(bs);
  }

  // With blank reasoning only, the asks are the texts.
  lemma AsksJoined(bs: seq<Block>)
    requires Tells(SaysAsk())
    ensures FlatMap(SaysThought(), Thoughts(bs)) == [] ==>
      (FlatMap(SaysAsk(), Texts(bs)) == SaysAsk()(Join(Texts(bs) + Thoughts(bs))) <==> |Texts(bs) + Thoughts(bs)| <= 1)
  {
    BlankThoughts(Thoughts(bs));
    FlatMapConcat(SaysAsk(), Texts(bs), Thoughts(bs));
    JoinedExactly(SaysAsk(), Texts(bs) + Thoughts(bs));
  }

  lemma {:induction false} BlankThoughts(ts: seq<string>)
    ensures FlatMap(SaysThought(), ts) == [] ==> FlatMap(SaysAsk(), ts) == []
  {
    if ts != [] {
      assert ts == ts[..|ts| - 1] + [ts[|ts| - 1]];
      BlankThoughts(ts[..|ts| - 1]);
    }
  }

  // -------------------------------------------------- what conversion makes of it

  predicate Tidy(m: Message) {
    m.body.Blocks? ==> if m.role.FromUser? then TidyUser(m.body.blocks) else TidyAssistant(m.body.blocks)
  }

  // The reasoning a turn lacks in thinking mode.
  function Placeholder(thinking: bool, m: Message): seq<Event> {
    if m.role.FromUser? then [] else
    match m.body
    case Plain(_) => Thinks(Reasoned(thinking, ""))
    case Blocks(bs) => if Join(Thoughts(bs)) == "" then Thinks(Reasoned(thinking, "")) else []
    case Annotated(_, reasoning, _) => if reasoning.Some? then [] else Thinks(Reasoned(thinking, ""))
  }

  lemma UsesBack(k: Codec, bs: seq<Block>)
    requires CodecOk(k)
    ensures CallsSay(k, Uses(k, bs)) == FlatMap(UseSays, bs)
  {
    forall b | b in bs ensures FlatMap(CallSays(k), CallIn(k)(b)) == UseSays(b) {
      if b.ToolUse? { FlatMapOne(CallSays(k), Call(b.id, b.name, Some(k.dumps(b.input)))); }
    }
    FlatMapThrough(CallIn(k), CallSays(k), UseSays, bs);
  }

  lemma ResultsBack(k: Codec, bs: seq<Block>)
    ensures Says(k, Results(bs)) == FlatMap(ResultSays, bs)
  {
    forall b | b in bs ensures FlatMap(ChatSays(k), ResultIn(b)) == ResultSays(b) {
      if b.ResultBlock? { FlatMapOne(ChatSays(k), Tool(b.id, Text(ResultText(b.s, b.isError)))); }
    }
    FlatMapThrough(ResultIn, ChatSays(k), ResultSays, bs);
  }

  // An assistant turn of blocks becomes one message.
  lemma AssistantMessage(k: Codec, thinking: bool, bs: seq<Block>)
    ensures ChatOfMessage(k, thinking, Message(FromAssistant, Blocks(bs)))
         == [Assistant(Text(Join(Texts(bs))), Reasoned(thinking, Join(Thoughts(bs))), Uses(k, bs))]
  {
  }

  // Its reasoning is its own, or else the placeholder.
  lemma ReasonedSays(thinking: bool, bs: seq<Block>)
    ensures Thinks(Reasoned(thinking, Join(Thoughts(bs))))
         == Placeholder(thinking, Message(FromAssistant, Blocks(bs))) + Thinks(Join(Thoughts(bs)))
  {
  }

  // Putting the pieces together.
  lemma Regroup(thought: seq<Event>, placeholder: seq<Event>, own: seq<Event>, text: seq<Event>, calls: seq<Event>)
    requires thought == placeholder + own
    ensures thought + (text + calls) == placeholder + (own + text + calls)
  {
  }

  /** Every block turn, tidy or not: an assistant one keeps its calls in order
      behind its joined reasoning and its joined text, a user one its results in
      order before everything else it says. */
  lemma {:induction false} AssistantBlocksBack(k: Codec, thinking: bool, bs: seq<Block>)
    requires CodecOk(k)
    ensures var m := Message(FromAssistant, Blocks(bs));
      Says(k, ChatOfMessage(k, thinking, m)) == Placeholder(thinking, m) + AssistantCore(bs)
  {
    var m, r, t := Message(FromAssistant, Blocks(bs)), Join(Thoughts(bs)), Join(Texts(bs));
    AssistantMessage(k, thinking, bs);
    AssistantSaysAs(k, t, Reasoned(thinking, r), Uses(k, bs));
    UsesBack(k, bs);
    ReasonedSays(thinking, bs);
    Regroup(Thinks(Reasoned(thinking, r)), Placeholder(thinking, m), Thinks(r), AssistantSays(t), FlatMap(UseSays, bs));
  }

  lemma {:induction false} UserBlocksBack(k: Codec, thinking: bool, bs: seq<Block>)
    ensures Says(k, ChatOfMessage(k, thinking, Message(FromUser, Blocks(bs)))) == UserCore(bs)
  {
    var asked := User(Text(Join(Texts(bs) + Thoughts(bs))));
    ResultsBack(k, bs);
    FlatMapConcat(ChatSays(k), Results(bs), [asked]);
    FlatMapOne(ChatSays(k), asked);
    if Results(bs) == [] { assert [] + [asked] == [asked]; }
    if Texts(bs) + Thoughts(bs) == [] { assert Results(bs) + [] == Results(bs); }
  }

  /** A turn comes back with exactly what it says, in its order and after the
      placeholder it may be given, if and only if it is tidy. */
  lemma {:induction false} TurnBackExactly(k: Codec, thinking: bool, m: Message)
    requires CodecOk(k)
    ensures Says(k, ChatOfMessage(k, thinking, m)) == Placeholder(thinking, m) + TurnSays(k, m) <==> Tidy(m)
  {
    match m.body
    case Plain(s) => PlainBack(k, thinking, m);
    case Annotated(s, reasoning, calls) => AnnotatedBack(k, thinking, m);
    case Blocks(bs) =>
      assert m == Message(m.role, Blocks(bs));
      if m.role.FromUser? {
        UserBlocksBack(k, thinking, bs);
        UserExactly(bs);
        assert [] + TurnSays(k, m) == TurnSays(k, m);
      } else {
        AssistantBlocksBack(k, thinking, bs);
        AssistantExactly(bs);
        SamePrefix(Placeholder(thinking, m), AssistantCore(bs), BlocksSay(FromAssistant, bs));
      }
  }

  lemma CallThenText(call: Block, text: string)
    requires call.ToolUse? && text != ""
    ensures BlocksSay(FromAssistant, [call, TextBlock(text)])
         == [ToolCall(call.id, call.name, call.input), AssistantText(text)]
  {
    assert [call, TextBlock(text)] == [call] + [TextBlock(text)];
    FlatMapConcat(BlockSays(FromAssistant), [call], [TextBlock(text)]);
    FlatMapOne(BlockSays(FromAssistant), call);
    FlatMapOne(BlockSays(FromAssistant), TextBlock(text));
  }

  lemma CallThenTextUntidy(call: Block, text: string)
    requires call.ToolUse? && text != ""
    ensures !TidyAssistant([call, TextBlock(text)])
  {
    CallThenText(call, text);
    var es := BlocksSay(FromAssistant, [call, TextBlock(text)]);
    assert AssistantRank(es[0]) > AssistantRank(es[1]);
  }

  /** A client's text after a tool call is moved in front of it. */
  lemma TextAfterCallMoves(k: Codec, thinking: bool, call: Block, text: string)
    requires CodecOk(k) && call.ToolUse? && text != ""
    ensures var m := Message(FromAssistant, Blocks([call, TextBlock(text)]));
      Says(k, ChatOfMessage(k, thinking, m)) != Placeholder(thinking, m) + TurnSays(k, m)
  {
    CallThenTextUntidy(call, text);
    TurnBackExactly(k, thinking, Message(FromAssistant, Blocks([call, TextBlock(text)])));
  }

  lemma SamePrefix(p: seq<Event>, a: seq<Event>, b: seq<Event>)
    ensures p + a == p + b <==> a == b
  {
    assert (p + a)[|p|..] == a && (p + b)[|p|..] == b;
  }

  lemma PlainBack(k: Codec, thinking: bool, m: Message)
    requires m.body.Plain?
    ensures Says(k, ChatOfMessage(k, thinking, m)) == Placeholder(thinking, m) + TurnSays(k, m)
  {
    FlatMapOne(ChatSays(k), User(Text(m.body.s)));
    AssistantSaysAs(k, m.body.s, Reasoned(thinking, ""), []);
    assert AssistantSays(m.body.s) + CallsSay(k, []) == AssistantSays(m.body.s);
  }

  lemma AnnotatedBack(k: Codec, thinking: bool, m: Message)
    requires m.body.Annotated?
    ensures Says(k, ChatOfMessage(k, thinking, m)) == Placeholder(thinking, m) + TurnSays(k, m)
  {
    var b := m.body;
    FlatMapOne(ChatSays(k), User(Text(b.s)));
    AssistantSaysAs(k, b.s, if b.reasoning.Some? then b.reasoning.value else Reasoned(thinking, ""), b.calls);
    Associate(Thinks(if b.reasoning.Some? then b.reasoning.value else ""), AssistantSays(b.s), CallsSay(k, b.calls));
  }

  // What a message should become.
  function Expected(k: Codec, thinking: bool): Message -> seq<Event> {
    (m: Message) => Placeholder(thinking, m) + TurnSays(k, m)
  }

  /** Any Anthropic request with tidy turns, written by a client or by the
      converter, keeps everything it says in its order. */
  lemma {:induction false} TidyConversationKept(k: Codec, r: AnthropicRequest)
    requires CodecOk(k) && forall m :: m in r.messages ==> Tidy(m)
    ensures Says(k, FromAnthropic(k, r)) == FlatMap(Expected(k, ThinkingMode(r.messages)), r.messages)
  {
    var thinking := ThinkingMode(r.messages);
    forall m | m in r.messages ensures FlatMap(ChatSays(k), ChatOf(k, thinking)(m)) == Expected(k, thinking)(m) {
      TurnBackExactly(k, thinking, m);
    }
    FlatMapThrough(ChatOf(k, thinking), ChatSays(k), Expected(k, thinking), r.messages);
    SystemSilent(k, r.system, FlatMap(ChatOf(k, thinking), r.messages));
  }
}
