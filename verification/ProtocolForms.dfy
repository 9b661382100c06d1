/** What the converters promise of the form of a conversation, beyond what it
    says: ids, texts, the grouping of turns, and the reasoning placeholder. */
module ProtocolForms {
  import opened Options
  import J = Json
  import opened Sequences
  import opened ProtocolAdapters
  import opened ProtocolRoundTrip

  // ------------------------------------------------------------------ call ids

  /** Every call of the conversation has an id. */
  predicate Identified(ms: seq<Chat>) {
    forall m :: m in ms && m.Assistant? ==> forall c :: c in m.calls ==> c.id != ""
  }

  // The call is the given one; an id is made up only where there is none.
  predicate SameCall(c: Call, given: Call, made: string) {
    c.name == given.name && c.args == given.args && c.id == if given.id != "" then given.id else made
  }

  // The message is the given one, up to ids that were missing.
  predicate SameMessage(mint: Mint, i: nat, m: Chat, given: Chat) {
    if given.Assistant? then
      && m.Assistant? && m.content == given.content && m.reasoning == given.reasoning
      && |m.calls| == |given.calls|
      && forall j :: 0 <= j < |m.calls| ==> SameCall(m.calls[j], given.calls[j], mint(i, j))
    else m == given
  }

  /** Filling in ids changes nothing but the ids of calls that have none. */
  lemma {:induction false} FillKeeps(mint: Mint, ms: seq<Chat>)
    ensures |Fill(mint, ms)| == |ms|
    ensures forall i :: 0 <= i < |ms| ==> SameMessage(mint, i, Fill(mint, ms)[i], ms[i])
    ensures Identified(ms) ==> Fill(mint, ms) == ms
  {
    if Identified(ms) {
      forall i | 0 <= i < |ms| ensures Fill(mint, ms)[i] == ms[i] {
        assert ms[i] in ms;
        if ms[i].Assistant? { assert FillCalls(mint, i, ms[i].calls) == ms[i].calls; }
      }
    }
  }

  /** The items of a request change only where a call has no id. */
  lemma {:induction false} FillItemsKeep(mint: Mint, items: seq<Item>)
    ensures |FillItems(mint, items)| == |items|
    ensures forall i :: 0 <= i < |items| ==>
      FillItems(mint, items)[i]
      == if items[i].FunctionCall? && items[i].callId == "" then
           FunctionCall(mint(i, 0), items[i].name, items[i].arguments)
         else items[i]
    ensures HasIds(items) ==> FillItems(mint, items) == items
  {
    if HasIds(items) {
      forall i | 0 <= i < |items| ensures FillItems(mint, items)[i] == items[i] { assert items[i] in items; }
    }
  }

  /** With ids given, both round trips keep the very calls and results: nothing
      is renamed on the way. */
  lemma {:induction false} IdsKept(k: Codec, mint: Mint, ms: seq<Chat>)
    requires CodecOk(k) && Identified(ms)
    ensures Spoken(Says(k, FromAnthropic(k, ToAnthropic(k, mint, ms)))) == Spoken(Says(k, ms))
    ensures Says(k, FromResponses(mint, ToResponses(mint, ms))) == Aloud(Says(k, ms))
    ensures AnthropicSays(k, ToAnthropic(k, mint, ms).messages) == Says(k, ms)
    ensures ItemsSay(k, ToResponses(mint, ms).input) == Aloud(Says(k, ms))
  {
    FillKeeps(mint, ms);
    ChatAnthropicChat(k, mint, ms);
    AnthropicSaysAll(k, ms);
    ResponsesSayAloud(k, ms);
    ItemsHaveIds(ms);
    FillItemsKeep(mint, ToResponses(mint, ms).input);
    ItemsComeBack(k, mint, ToResponses(mint, ms));
  }

  /** The calls of an answer change only where one has no id. */
  lemma {:induction false} FillCallsKeep(mint: Mint, i: nat, calls: seq<Call>)
    ensures |FillCalls(mint, i, calls)| == |calls|
    ensures forall j :: 0 <= j < |calls| ==> SameCall(FillCalls(mint, i, calls)[j], calls[j], mint(i, j))
  {
  }

  // --------------------------------------------------------------------- texts

  // Two texts on two lines; a blank one takes no line.
  function Lines(x: string, y: string): string {
    if x == "" then y else if y == "" then x else x + "\n" + y
  }

  lemma {:induction false} JoinConcat(a: seq<string>, b: seq<string>)
    requires a != [] && b != []
    ensures Join(a + b) == Join(a) + "\n" + Join(b)
  {
    var ab := a + b;
    assert ab[..|ab| - 1] == a + b[..|b| - 1];
    if |b| == 1 {
      assert a + b[..0] == a;
    } else {
      JoinConcat(a, b[..|b| - 1]);
      assert Join(a) + "\n" + Join(b[..|b| - 1]) + "\n" + b[|b| - 1] == Join(a) + "\n" + Join(b);
    }
  }

  lemma {:induction false} KeptNonBlank(ts: seq<string>)
    ensures forall t :: t in NonEmpty(ts) ==> t != ""
    ensures NonEmpty(ts) != [] ==> Join(NonEmpty(ts)) != ""
  {
    if ts != [] { KeptNonBlank(ts[..|ts| - 1]); }
    if NonEmpty(ts) != [] { assert NonEmpty(ts)[0] in NonEmpty(ts); }
  }

  /** The texts worth keeping, joined, are joined part by part. */
  lemma {:induction false} JoinedInOrder(a: seq<string>, b: seq<string>)
    ensures Join(NonEmpty(a + b)) == Lines(Join(NonEmpty(a)), Join(NonEmpty(b)))
  {
    FlatMapConcat(Kept, a, b);
    KeptNonBlank(a);
    KeptNonBlank(b);
    if NonEmpty(a) != [] && NonEmpty(b) != [] {
      JoinConcat(NonEmpty(a), NonEmpty(b));
    } else if NonEmpty(a) == [] {
      assert [] + NonEmpty(b) == NonEmpty(b);
    } else {
      assert NonEmpty(a) + [] == NonEmpty(a);
    }
  }

  lemma JoinedOne(s: string)
    ensures Join(NonEmpty([s])) == s
  {
    FlatMapOne(Kept, s);
  }

  lemma {:induction false} PartTextsConcat(a: seq<Part>, b: seq<Part>)
    ensures PartTexts(a + b) == PartTexts(a) + PartTexts(b)
  {
    if a == [] {
      assert a + b == b;
    } else {
      assert (a + b)[1..] == a[1..] + b;
      PartTextsConcat(a[1..], b);
    }
  }

  /** The text of a content list is the text of its parts in their order, a line
      for each that has any. */
  lemma {:induction false} ContentInOrder(a: seq<Part>, b: seq<Part>)
    ensures ContentText(Parts(a + b)) == Lines(ContentText(Parts(a)), ContentText(Parts(b)))
  {
    PartTextsConcat(a, b);
    JoinedInOrder(PartTexts(a), PartTexts(b));
  }

  /** What a single part is read as. */
  lemma PartReads(s: string, inner: Content)
    ensures ContentText(NoContent) == "" && ContentText(Text(s)) == s && ContentText(Parts([])) == ""
    ensures ContentText(Parts([Bare(s)])) == s && ContentText(Parts([TextPart(s)])) == s
    ensures ContentText(Parts([Nested(inner)])) == ContentText(inner) && ContentText(Parts([Opaque])) == ""
  {
    OnePart(Bare(s), s);
    OnePart(TextPart(s), s);
    OnePart(Nested(inner), ContentText(inner));
    assert [Opaque][1..] == [] && PartTexts([Opaque]) == [] + PartTexts([]);
  }

  lemma OnePart(p: Part, s: string)
    requires PartText(p) == [s]
    ensures ContentText(Parts([p])) == s
  {
    assert [p][1..] == [] && PartTexts([p]) == [s] + [];
    assert [s] + [] == [s];
    JoinedOne(s);
  }

  /** A call's arguments are the value they parse to; text that is no JSON, or
      blank, is read as an empty object. */
  lemma ArgumentsRead(k: Codec, s: string, v: J.Json)
    requires k.loads("{}") in [None, Some(J.Obj(map[]))]
    ensures s != "" && k.loads(s) == Some(v) ==> ArgValue(k, Some(s)) == v
    ensures s != "" && k.loads(s) == None ==> ArgValue(k, Some(s)) == J.Obj(map[])
    ensures ArgValue(k, Some("")) == ArgValue(k, None) == J.Obj(map[])
  {
  }

  // ------------------------------------------------------------- system prompt

  /** The system prompt is made of the system messages in their order, a line
      for each that has text, and of nothing else. */
  lemma {:induction false} PromptInOrder(a: seq<Chat>, b: seq<Chat>)
    ensures SystemPrompt(a + b) == Lines(SystemPrompt(a), SystemPrompt(b))
  {
    FlatMapConcat(SystemText, a, b);
    SystemTextsKept(a);
    SystemTextsKept(b);
    var x, y := FlatMap(SystemText, a), FlatMap(SystemText, b);
    if x != [] && y != [] {
      JoinConcat(x, y);
    } else if x == [] {
      assert [] + y == y;
    } else {
      assert x + [] == x;
    }
  }

  lemma {:induction false} SystemTextsKept(ms: seq<Chat>)
    ensures FlatMap(SystemText, ms) != [] ==> SystemPrompt(ms) != ""
  {
    if ms != [] {
      var front, last := ms[..|ms| - 1], ms[|ms| - 1];
      SystemTextsKept(front);
      if FlatMap(SystemText, front) == [] { assert [] + SystemText(last) == SystemText(last); }
    }
  }

  lemma PromptOne(m: Chat)
    ensures SystemPrompt([m]) == if m.System? then ContentText(m.content) else ""
  {
    FlatMapOne(SystemText, m);
  }

  // -------------------------------------------------- the grouping of messages

  // A user message of nothing but tool results.
  predicate ResultsOnly(m: Message) {
    m.role.FromUser? && m.body.Blocks? && forall b :: b in m.body.blocks ==> b.ResultBlock?
  }

  // An assistant message of nothing but tool calls.
  predicate CallsOnly(m: Message) {
    m.role.FromAssistant? && m.body.Blocks? && forall b :: b in m.body.blocks ==> b.ToolUse?
  }

  /** Tool results that follow each other share one message, and tool calls join
      the assistant's blocks in front of them; no message has an empty list. */
  predicate Grouped(ms: seq<Message>) {
    && (forall i :: 0 <= i < |ms| && ms[i].body.Blocks? ==> ms[i].body.blocks != [])
    && (forall i :: 0 < i < |ms| && ResultsOnly(ms[i]) ==> !ResultsOnly(ms[i - 1]))
    && (forall i :: 0 < i < |ms| && CallsOnly(ms[i]) ==> !(ms[i - 1].role.FromAssistant? && ms[i - 1].body.Blocks?))
  }

  lemma AssistantGrouped(ms: seq<Message>, bs: seq<Block>)
    requires Grouped(ms) && (forall b :: b in bs ==> !b.ResultBlock?)
    ensures Grouped(AppendAssistant(ms, bs))
  {
    var out := AppendAssistant(ms, bs);
    if EndsIn(ms, FromAssistant) && bs != [] && AllToolUse(bs) {
      ExtendedGrouped(ms, bs);
    } else {
      assert out == ms + [AssistantMessage(bs)];
    }
  }

  // Calls that join a block list leave it what it was, calls only or not.
  lemma ExtendedGrouped(ms: seq<Message>, bs: seq<Block>)
    requires Grouped(ms) && EndsIn(ms, FromAssistant) && AllToolUse(bs)
    ensures Grouped(Extend(ms, bs))
  {
    var n := |ms| - 1;
    var out := Extend(ms, bs);
    assert forall i :: 0 <= i < n ==> out[i] == ms[i];
    assert CallsOnly(out[n]) ==> CallsOnly(ms[n]) by {
      assert forall b :: b in ms[n].body.blocks ==> b in out[n].body.blocks;
    }
  }

  lemma ResultGrouped(ms: seq<Message>, b: Block)
    requires Grouped(ms) && b.ResultBlock?
    ensures Grouped(AppendResult(ms, b))
  {
    var n := |ms| - 1;
    if EndsIn(ms, FromUser) && AllResults(ms[n].body.blocks) {
      var out := Extend(ms, [b]);
      assert forall i :: 0 <= i < n ==> out[i] == ms[i];
    } else {
      assert [b][0] == b && b in [b];
    }
  }

  /** Every Anthropic conversation that is written is grouped. */
  lemma {:induction false} AnthropicGrouped(k: Codec, ms: seq<Chat>)
    ensures Grouped(AnthropicMessages(k, ms))
  {
    if ms != [] {
      var out, m := AnthropicMessages(k, ms[..|ms| - 1]), ms[|ms| - 1];
      AnthropicGrouped(k, ms[..|ms| - 1]);
      match m
      case Assistant(c, r, calls) => AssistantGrouped(out, Ordered(r, ContentText(c), CallBlocks(k, calls)));
      case Tool(id, c) => ResultGrouped(out, ResultBlock(id, ContentText(c), false));
      case User(c) => assert !ResultsOnly(Message(FromUser, Plain(ContentText(c))));
      case _ =>
    }
  }

  // --------------------------------------------------- reasoning and its marks

  // The assistant turn brings reasoning of its own.
  predicate Thoughtful(m: Message) {
    m.role.FromAssistant? &&
    match m.body
    case Plain(_) => false
    case Blocks(bs) => exists i :: 0 <= i < |bs| && bs[i].Thinking?
    case Annotated(_, reasoning, _) => reasoning.Some?
  }

  /** When some turn of a request brings reasoning, no assistant message goes out
      without any, but for one that carries a blank attribute; when none does,
      every assistant message goes out without reasoning. */
  lemma {:induction false} ReasoningThroughout(k: Codec, r: AnthropicRequest, m: Message, x: Chat)
    requires m in r.messages && x in ChatOfMessage(k, ThinkingMode(r.messages), m) && x.Assistant?
    ensures if exists t :: t in r.messages && Thoughtful(t) then
              (x.reasoning != "" || (m.body.Annotated? && m.body.reasoning == Some("")))
              && (!Thoughtful(m) ==> x.reasoning == ".")
            else x.reasoning == ""
  {
    ThinkingExactly(r.messages);
    if m.body.Blocks? && m.role.FromAssistant? && !Thoughtful(m) { NoThoughts(m.body.blocks); }
    if m.body.Blocks? {
      if m.role.FromAssistant? && !ThinkingMode(r.messages) {
        assert !CarriesReasoning(m);
        FlatMapNone(ThoughtIn, m.body.blocks);
      } else if m.role.FromUser? {
        UserTurnSilent(k, ThinkingMode(r.messages), m, x);
      }
    } else if m.body.Annotated? {
      assert m.role.FromAssistant? && m.body.reasoning.Some? ==> CarriesReasoning(m);
    }
  }

  lemma NoThoughts(bs: seq<Block>)
    requires !exists i :: 0 <= i < |bs| && bs[i].Thinking?
    ensures Thoughts(bs) == []
  {
    FlatMapNone(ThoughtIn, bs);
  }

  lemma ThinkingExactly(ms: seq<Message>)
    ensures (exists t :: t in ms && Thoughtful(t)) <==> ThinkingMode(ms)
  {
    forall t | t in ms ensures Thoughtful(t) <==> CarriesReasoning(t) {
      if t.body.Blocks? {
        if b :| b in t.body.blocks && b.Thinking? {
          var i :| 0 <= i < |t.body.blocks| && t.body.blocks[i] == b;
        }
      }
    }
  }

  lemma UserTurnSilent(k: Codec, thinking: bool, m: Message, x: Chat)
    requires m.role.FromUser? && m.body.Blocks? && x in ChatOfMessage(k, thinking, m)
    ensures !x.Assistant?
  {
    if x in Results(m.body.blocks) { FlatMapFrom(ResultIn, m.body.blocks, x); }
  }

  /** A failed tool result is marked in the text the model reads, another is not. */
  lemma ErrorsMarked(k: Codec, thinking: bool, id: string, s: string)
    ensures ChatOfMessage(k, thinking, Message(FromUser, Blocks([ResultBlock(id, s, true)])))
         == [Tool(id, Text("[ERROR] " + s))]
    ensures ChatOfMessage(k, thinking, Message(FromUser, Blocks([ResultBlock(id, s, false)]))) == [Tool(id, Text(s))]
  {
    OneResult(k, thinking, ResultBlock(id, s, true));
    OneResult(k, thinking, ResultBlock(id, s, false));
  }

  lemma OneResult(k: Codec, thinking: bool, b: Block)
    requires b.ResultBlock?
    ensures ChatOfMessage(k, thinking, Message(FromUser, Blocks([b]))) == [Tool(b.id, Text(ResultText(b.s, b.isError)))]
  {
    FlatMapOne(ResultIn, b);
    FlatMapOne(TextIn, b);
    FlatMapOne(ThoughtIn, b);
  }
}
