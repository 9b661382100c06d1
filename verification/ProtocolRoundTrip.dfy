/** Converting a conversation keeps what it says. */
module ProtocolRoundTrip {
  import opened Options
  import opened Sequences
  import opened ProtocolAdapters

  // ------------------------------------------------ Chat to Anthropic says all

  lemma {:induction false} CallBlocksSay(k: Codec, calls: seq<Call>)
    ensures BlocksSay(FromAssistant, CallBlocks(k, calls)) == CallsSay(k, calls)
  {
    if calls != [] {
      var front, c := calls[..|calls| - 1], calls[|calls| - 1];
      CallBlocksSay(k, front);
      var b := ToolUse(c.id, c.name, ArgValue(k, c.args));
      assert CallBlocks(k, calls) == CallBlocks(k, front) + [b];
      FlatMapSnoc(BlockSays(FromAssistant), CallBlocks(k, front), b);
    }
  }

  lemma PrefixSays(r: string, t: string)
    ensures BlocksSay(FromAssistant, Prefix(r, t)) == Thinks(r) + AssistantSays(t)
  {
    var f := BlockSays(FromAssistant);
    var thought := if r != "" then [Thinking(r)] else [];
    if r != "" { FlatMapOne(f, Thinking(r)); }
    if t != "" { FlatMapSnoc(f, thought, TextBlock(t)); }
  }

  lemma OrderedSays(r: string, t: string, uses: seq<Block>)
    ensures BlocksSay(FromAssistant, Ordered(r, t, uses))
        == Thinks(r) + AssistantSays(t) + BlocksSay(FromAssistant, uses)
  {
    PrefixSays(r, t);
    FlatMapConcat(BlockSays(FromAssistant), Prefix(r, t), uses);
  }

  lemma ExtendSays(k: Codec, ms: seq<Message>, bs: seq<Block>)
    requires ms != [] && ms[|ms| - 1].body.Blocks?
    ensures AnthropicSays(k, Extend(ms, bs)) == AnthropicSays(k, ms) + BlocksSay(ms[|ms| - 1].role, bs)
  {
    var front, last := ms[..|ms| - 1], ms[|ms| - 1];
    var longer := last.(body := Blocks(last.body.blocks + bs));
    FlatMapConcat(BlockSays(last.role), last.body.blocks, bs);
    FlatMapSnoc(BodySays(k), front, longer);
    assert TurnSays(k, longer) == TurnSays(k, last) + BlocksSay(last.role, bs);
    Associate(FlatMap(BodySays(k), front), TurnSays(k, last), BlocksSay(last.role, bs));
  }

  lemma AssistantSaid(k: Codec, ms: seq<Message>, bs: seq<Block>)
    ensures AnthropicSays(k, AppendAssistant(ms, bs)) == AnthropicSays(k, ms) + BlocksSay(FromAssistant, bs)
  {
    if EndsIn(ms, FromAssistant) && bs != [] && AllToolUse(bs) {
      ExtendSays(k, ms, bs);
    } else {
      FlatMapSnoc(BodySays(k), ms, AssistantMessage(bs));
    }
  }

  lemma ResultSaid(k: Codec, ms: seq<Message>, b: Block)
    ensures AnthropicSays(k, AppendResult(ms, b)) == AnthropicSays(k, ms) + BlocksSay(FromUser, [b])
  {
    if EndsIn(ms, FromUser) && AllResults(ms[|ms| - 1].body.blocks) {
      ExtendSays(k, ms, [b]);
    } else {
      FlatMapSnoc(BodySays(k), ms, Message(FromUser, Blocks([b])));
    }
  }

  lemma StepSays(k: Codec, ms: seq<Message>, m: Chat)
    ensures AnthropicSays(k, AnthropicStep(k, ms, m)) == AnthropicSays(k, ms) + MessageSays(k, m)
  {
    match m
    case System(_) =>
    case User(c) => FlatMapSnoc(BodySays(k), ms, Message(FromUser, Plain(ContentText(c))));
    case Assistant(c, r, calls) => AssistantStepSays(k, ms, ContentText(c), r, calls);
    case Tool(id, c) =>
      var b := ResultBlock(id, ContentText(c), false);
      ResultSaid(k, ms, b);
      FlatMapOne(BlockSays(FromUser), b);
    case Ignored =>
  }

  lemma AssistantStepSays(k: Codec, ms: seq<Message>, t: string, r: string, calls: seq<Call>)
    ensures AnthropicSays(k, AppendAssistant(ms, Ordered(r, t, CallBlocks(k, calls))))
         == AnthropicSays(k, ms) + (Thinks(r) + AssistantSays(t) + CallsSay(k, calls))
  {
    OrderedSays(r, t, CallBlocks(k, calls));
    CallBlocksSay(k, calls);
    AssistantSaid(k, ms, Ordered(r, t, CallBlocks(k, calls)));
  }

  /** Every message of the chat conversation is said, in order, however the
      converter groups tool results and tool calls. */
  lemma {:induction false} AnthropicSaysAll(k: Codec, ms: seq<Chat>)
    ensures AnthropicSays(k, AnthropicMessages(k, ms)) == Says(k, ms)
  {
    if ms != [] {
      AnthropicSaysAll(k, ms[..|ms| - 1]);
      StepSays(k, AnthropicMessages(k, ms[..|ms| - 1]), ms[|ms| - 1]);
    }
  }

  // ------------------------------------------------------- the form it produces

  /** A message as the converters write it: reasoning, then text, then tool
      calls; or tool results and nothing else. */
  ghost predicate Canonical(m: Message) {
    match m.body
    case Plain(_) => true
    case Annotated(_, _, _) => false
    case Blocks(bs) =>
      if m.role.FromAssistant? then exists r, t, uses :: AllToolUse(uses) && bs == Ordered(r, t, uses)
      else bs != [] && AllResults(bs)
  }

  ghost predicate AllCanonical(ms: seq<Message>) {
    forall m :: m in ms ==> Canonical(m)
  }

  lemma ExtendedTurn(m: Message, bs: seq<Block>)
    requires Canonical(m) && m.role.FromAssistant? && m.body.Blocks? && AllToolUse(bs)
    ensures Canonical(m.(body := Blocks(m.body.blocks + bs)))
  {
    var r, t, uses :| AllToolUse(uses) && m.body.blocks == Ordered(r, t, uses);
    Associate(Prefix(r, t), uses, bs);
    assert AllToolUse(uses + bs) && m.body.blocks + bs == Ordered(r, t, uses + bs);
  }

  lemma AssistantCanonical(ms: seq<Message>, r: string, t: string, uses: seq<Block>)
    requires AllCanonical(ms) && AllToolUse(uses)
    ensures AllCanonical(AppendAssistant(ms, Ordered(r, t, uses)))
  {
    var bs := Ordered(r, t, uses);
    if EndsIn(ms, FromAssistant) && bs != [] && AllToolUse(bs) {
      ExtendedTurn(ms[|ms| - 1], bs);
    } else {
      assert Canonical(AssistantMessage(bs));
    }
  }

  lemma ResultCanonical(ms: seq<Message>, b: Block)
    requires AllCanonical(ms) && b.ResultBlock?
    ensures AllCanonical(AppendResult(ms, b))
  {
  }

  lemma {:induction false} AnthropicCanonical(k: Codec, ms: seq<Chat>)
    ensures AllCanonical(AnthropicMessages(k, ms))
  {
    if ms != [] {
      var out, m := AnthropicMessages(k, ms[..|ms| - 1]), ms[|ms| - 1];
      AnthropicCanonical(k, ms[..|ms| - 1]);
      match m
      case Assistant(c, r, calls) => AssistantCanonical(out, r, ContentText(c), CallBlocks(k, calls));
      case Tool(id, c) => ResultCanonical(out, ResultBlock(id, ContentText(c), false));
      case _ =>
    }
  }

  // ------------------------------------------------ Anthropic to Chat says all

  function NotPlaceholder(e: Event): seq<Event> { if e == Reasoning(".") then [] else [e] }

  // What is said apart from the reasoning placeholder.
  function Spoken(es: seq<Event>): seq<Event> { FlatMap(NotPlaceholder, es) }

  lemma PrefixParts(r: string, t: string)
    ensures Texts(Prefix(r, t)) == Kept(t) && Thoughts(Prefix(r, t)) == Kept(r)
  {
    var thought := if r != "" then [Thinking(r)] else [];
    if r != "" {
      FlatMapOne(TextIn, Thinking(r));
      FlatMapOne(ThoughtIn, Thinking(r));
    }
    if t != "" {
      FlatMapSnoc(TextIn, thought, TextBlock(t));
      FlatMapSnoc(ThoughtIn, thought, TextBlock(t));
    }
  }

  lemma OrderedParts(k: Codec, r: string, t: string, uses: seq<Block>)
    requires AllToolUse(uses)
    ensures Texts(Ordered(r, t, uses)) == Kept(t) && Thoughts(Ordered(r, t, uses)) == Kept(r)
    ensures Uses(k, Ordered(r, t, uses)) == Uses(k, uses)
  {
    PrefixParts(r, t);
    OrderedUses(k, r, t, uses);
    FlatMapConcat(TextIn, Prefix(r, t), uses);
    FlatMapNone(TextIn, uses);
    FlatMapConcat(ThoughtIn, Prefix(r, t), uses);
    FlatMapNone(ThoughtIn, uses);
  }

  lemma OrderedUses(k: Codec, r: string, t: string, uses: seq<Block>)
    ensures Uses(k, Ordered(r, t, uses)) == Uses(k, uses)
  {
    FlatMapConcat(CallIn(k), Prefix(r, t), uses);
    FlatMapNone(CallIn(k), Prefix(r, t));
  }

  // A printed tool call reads back as the same call.
  lemma UsesSay(k: Codec, uses: seq<Block>)
    requires CodecOk(k) && AllToolUse(uses)
    ensures CallsSay(k, Uses(k, uses)) == BlocksSay(FromAssistant, uses)
  {
    forall b | b in uses ensures FlatMap(CallSays(k), CallIn(k)(b)) == BlockSays(FromAssistant)(b) {
      FlatMapOne(CallSays(k), Call(b.id, b.name, Some(k.dumps(b.input))));
    }
    FlatMapThrough(CallIn(k), CallSays(k), BlockSays(FromAssistant), uses);
  }

  lemma ResultsSay(k: Codec, bs: seq<Block>)
    requires AllResults(bs)
    ensures Says(k, Results(bs)) == BlocksSay(FromUser, bs)
    ensures Texts(bs) == [] && Thoughts(bs) == []
    ensures bs != [] ==> Results(bs) != []
  {
    forall b | b in bs ensures FlatMap(ChatSays(k), ResultIn(b)) == BlockSays(FromUser)(b) {
      FlatMapOne(ChatSays(k), Tool(b.id, Text(ResultText(b.s, b.isError))));
    }
    FlatMapThrough(ResultIn, ChatSays(k), BlockSays(FromUser), bs);
    FlatMapNone(TextIn, bs);
    FlatMapNone(ThoughtIn, bs);
    assert bs != [] ==> bs[|bs| - 1] in bs;
  }

  lemma AssistantSaysAs(k: Codec, s: string, r: string, calls: seq<Call>)
    ensures Says(k, [Assistant(Text(s), r, calls)]) == Thinks(r) + (AssistantSays(s) + CallsSay(k, calls))
  {
    FlatMapOne(ChatSays(k), Assistant(Text(s), r, calls));
    Associate(Thinks(r), AssistantSays(s), CallsSay(k, calls));
  }

  lemma PlaceholderUnspoken(thinking: bool, r: string, rest: seq<Event>)
    ensures Spoken(Thinks(Reasoned(thinking, r)) + rest) == Spoken(Thinks(r) + rest)
  {
    FlatMapConcat(NotPlaceholder, Thinks(Reasoned(thinking, r)), rest);
    FlatMapConcat(NotPlaceholder, Thinks(r), rest);
    FlatMapOne(NotPlaceholder, Reasoning("."));
  }

  // An assistant turn comes back as one assistant message.
  lemma TurnComesBack(k: Codec, thinking: bool, m: Message)
    requires CodecOk(k) && Canonical(m) && m.role.FromAssistant?
    ensures Spoken(Says(k, ChatOfMessage(k, thinking, m))) == Spoken(TurnSays(k, m))
    ensures !thinking ==> Says(k, ChatOfMessage(k, thinking, m)) == TurnSays(k, m)
  {
    if m.body.Plain? {
      AssistantSaysAs(k, m.body.s, Reasoned(thinking, ""), []);
      PlaceholderUnspoken(thinking, "", AssistantSays(m.body.s));
      assert AssistantSays(m.body.s) + CallsSay(k, []) == AssistantSays(m.body.s);
    } else {
      var r, t, uses :| AllToolUse(uses) && m.body.blocks == Ordered(r, t, uses);
      var rest := AssistantSays(t) + BlocksSay(FromAssistant, uses);
      OrderedParts(k, r, t, uses);
      UsesSay(k, uses);
      AssistantSaysAs(k, t, Reasoned(thinking, r), Uses(k, uses));
      OrderedSays(r, t, uses);
      Associate(Thinks(r), AssistantSays(t), BlocksSay(FromAssistant, uses));
      PlaceholderUnspoken(thinking, r, rest);
    }
  }

  lemma UserTurnComesBack(k: Codec, thinking: bool, m: Message)
    requires CodecOk(k) && Canonical(m) && m.role.FromUser?
    ensures Says(k, ChatOfMessage(k, thinking, m)) == TurnSays(k, m)
  {
    if m.body.Plain? {
      FlatMapOne(ChatSays(k), User(Text(m.body.s)));
    } else {
      var bs := m.body.blocks;
      ResultsSay(k, bs);
      assert ChatOfMessage(k, thinking, m) == Results(bs) + [];
      assert Results(bs) + [] == Results(bs);
    }
  }

  lemma {:induction false} ChatSaysAll(k: Codec, thinking: bool, ms: seq<Message>)
    requires CodecOk(k) && AllCanonical(ms)
    ensures var back := FlatMap(ChatOf(k, thinking), ms);
            && Spoken(Says(k, back)) == Spoken(AnthropicSays(k, ms))
            && (!thinking ==> Says(k, back) == AnthropicSays(k, ms))
  {
    if ms != [] {
      var front, last := ms[..|ms| - 1], ms[|ms| - 1];
      ChatSaysAll(k, thinking, front);
      if last.role.FromAssistant? { TurnComesBack(k, thinking, last); } else { UserTurnComesBack(k, thinking, last); }
      var said := Says(k, FlatMap(ChatOf(k, thinking), front));
      FlatMapConcat(ChatSays(k), FlatMap(ChatOf(k, thinking), front), ChatOfMessage(k, thinking, last));
      FlatMapConcat(NotPlaceholder, said, Says(k, ChatOfMessage(k, thinking, last)));
      FlatMapConcat(NotPlaceholder, AnthropicSays(k, front), TurnSays(k, last));
    }
  }

  lemma SystemSilent(k: Codec, s: string, ms: seq<Chat>)
    ensures Says(k, SystemMessage(s) + ms) == Says(k, ms)
  {
    FlatMapConcat(ChatSays(k), SystemMessage(s), ms);
    FlatMapNone(ChatSays(k), SystemMessage(s));
  }

  /** Chat to Anthropic and back keeps every user and assistant text, tool call
      and tool result, in order, and all reasoning up to the placeholder; where
      no turn carries reasoning nothing at all is added. */
  lemma ChatAnthropicChat(k: Codec, mint: Mint, ms: seq<Chat>)
    requires CodecOk(k)
    ensures var there := ToAnthropic(k, mint, ms);
            && Spoken(Says(k, FromAnthropic(k, there))) == Spoken(Says(k, Fill(mint, ms)))
            && (!ThinkingMode(there.messages) ==> Says(k, FromAnthropic(k, there)) == Says(k, Fill(mint, ms)))
  {
    var r := ToAnthropic(k, mint, ms);
    AnthropicSaysAll(k, Fill(mint, ms));
    AnthropicCanonical(k, Fill(mint, ms));
    ChatSaysAll(k, ThinkingMode(r.messages), r.messages);
    SystemSilent(k, r.system, FlatMap(ChatOf(k, ThinkingMode(r.messages)), r.messages));
  }

  // ------------------------------------------------------------ via Responses

  function Audible(e: Event): seq<Event> { if e.Reasoning? then [] else [e] }

  // What is said without reasoning.
  function Aloud(es: seq<Event>): seq<Event> { FlatMap(Audible, es) }

  lemma AloudSpoken(es: seq<Event>)
    ensures Aloud(Spoken(es)) == Aloud(es)
  {
    forall e | e in es ensures FlatMap(Audible, NotPlaceholder(e)) == Audible(e) {
      if e != Reasoning(".") { FlatMapOne(Audible, e); }
    }
    FlatMapThrough(NotPlaceholder, Audible, Audible, es);
  }

  lemma CallsAloud(k: Codec, calls: seq<Call>)
    ensures Aloud(CallsSay(k, calls)) == CallsSay(k, calls)
  {
    forall c | c in calls ensures FlatMap(Audible, CallSays(k)(c)) == CallSays(k)(c) {
      FlatMapOne(Audible, ToolCall(c.id, c.name, ArgValue(k, c.args)));
    }
    FlatMapThrough(CallSays(k), Audible, CallSays(k), calls);
  }

  // An item comes back as chat messages that say the same.
  lemma ItemComesBack(k: Codec, item: Item)
    ensures Says(k, ChatOfItem(item)) == ItemSays(k)(item)
  {
    match item
    case Words(s) => FlatMapOne(ChatSays(k), User(Text(s)));
    case ReasoningItem(s) => AssistantSaysAs(k, "", s, []);
    case FunctionOutput(id, output) => FlatMapOne(ChatSays(k), Tool(id, Text(output)));
    case FunctionCall(id, name, arguments) =>
      var call := Call(id, name, Some(arguments));
      AssistantSaysAs(k, "", "", [call]);
      FlatMapOne(CallSays(k), call);
    case MessageItem(role, parts) =>
      var text := Join(NonEmpty(parts));
      AssistantSaysAs(k, text, "", []);
      FlatMapOne(ChatSays(k), User(Text(text)));
      FlatMapOne(ChatSays(k), System(Text(text)));
  }

  /** Every Responses request comes back as a conversation that says what its
      items say, in order, and whose prompt is the instructions followed by the
      system items. */
  lemma ItemsComeBack(k: Codec, mint: Mint, r: ResponsesRequest)
    ensures Says(k, FromResponses(mint, r)) == ItemsSay(k, FillItems(mint, r.input))
    ensures SystemPrompt(FromResponses(mint, r))
        == Join(Kept(r.instructions) + FlatMap(ItemPrompt, FillItems(mint, r.input)))
  {
    var items := FillItems(mint, r.input);
    forall item | item in items ensures FlatMap(ChatSays(k), ChatOfItem(item)) == ItemSays(k)(item) {
      ItemComesBack(k, item);
    }
    FlatMapThrough(ChatOfItem, ChatSays(k), ItemSays(k), items);
    SystemSilent(k, r.instructions, FlatMap(ChatOfItem, items));
    forall item | item in items ensures FlatMap(SystemText, ChatOfItem(item)) == ItemPrompt(item) {
      ItemPrompts(item);
    }
    FlatMapThrough(ChatOfItem, SystemText, ItemPrompt, items);
    FlatMapConcat(SystemText, SystemMessage(r.instructions), FlatMap(ChatOfItem, items));
    FlatMapOne(SystemText, System(Text(r.instructions)));
  }

  lemma ItemPrompts(item: Item)
    ensures FlatMap(SystemText, ChatOfItem(item)) == ItemPrompt(item)
  {
    if item.MessageItem? && item.role.AsSystem? {
      FlatMapOne(SystemText, System(Text(Join(NonEmpty(item.parts)))));
    } else {
      FlatMapNone(SystemText, ChatOfItem(item));
    }
  }

  lemma CallItemsSay(k: Codec, calls: seq<Call>)
    ensures FlatMap(ItemSays(k), FlatMap(CallItem, calls)) == CallsSay(k, calls)
  {
    forall c | c in calls ensures FlatMap(ItemSays(k), CallItem(c)) == CallSays(k)(c) {
      var item := CallItem(c)[0];
      FlatMapOne(ItemSays(k), item);
      assert ItemSays(k)(item) == CallSays(k)(c);
    }
    FlatMapThrough(CallItem, ItemSays(k), CallSays(k), calls);
  }

  lemma TextItemSays(k: Codec, role: ResponsesRole, t: string)
    requires !role.AsSystem?
    ensures FlatMap(ItemSays(k), [MessageItem(role, [t])])
        == SpeechOf(if role.AsUser? then FromUser else FromAssistant, t)
  {
    FlatMapOne(ItemSays(k), MessageItem(role, [t]));
    FlatMapOne(Kept, t);
  }

  lemma AssistantItemsSay(k: Codec, t: string, r: string, calls: seq<Call>)
    ensures FlatMap(ItemSays(k), (if t != "" then [MessageItem(AsAssistant, [t])] else []) + FlatMap(CallItem, calls))
         == Aloud(Thinks(r) + AssistantSays(t) + CallsSay(k, calls))
  {
    FlatMapConcat(ItemSays(k), if t != "" then [MessageItem(AsAssistant, [t])] else [], FlatMap(CallItem, calls));
    CallItemsSay(k, calls);
    TextItemSays(k, AsAssistant, t);
    FlatMapConcat(Audible, Thinks(r) + AssistantSays(t), CallsSay(k, calls));
    FlatMapConcat(Audible, Thinks(r), AssistantSays(t));
    if r != "" { FlatMapOne(Audible, Reasoning(r)); }
    if t != "" { FlatMapOne(Audible, AssistantText(t)); }
    CallsAloud(k, calls);
  }

  lemma MessageItemsSay(k: Codec, m: Chat)
    ensures FlatMap(ItemSays(k), ItemsOf(m)) == Aloud(MessageSays(k, m))
  {
    match m
    case System(_) =>
    case User(c) =>
      TextItemSays(k, AsUser, ContentText(c));
      if ContentText(c) != "" { FlatMapOne(Audible, UserText(ContentText(c))); }
    case Tool(id, c) =>
      FlatMapOne(ItemSays(k), FunctionOutput(id, ContentText(c)));
      FlatMapOne(Audible, ToolResult(id, ContentText(c)));
    case Ignored =>
    case Assistant(c, r, calls) => AssistantItemsSay(k, ContentText(c), r, calls);
  }

  // What a message says aloud.
  function SaysAloud(k: Codec): Chat -> seq<Event> {
    (m: Chat) => Aloud(MessageSays(k, m))
  }

  /** The Responses items of a conversation say what it says aloud. */
  lemma ResponsesSayAloud(k: Codec, ms: seq<Chat>)
    ensures ItemsSay(k, FlatMap(ItemsOf, ms)) == Aloud(Says(k, ms))
  {
    forall m | m in ms ensures FlatMap(ItemSays(k), ItemsOf(m)) == SaysAloud(k)(m) {
      MessageItemsSay(k, m);
    }
    FlatMapThrough(ItemsOf, ItemSays(k), SaysAloud(k), ms);
    FlatMapThrough(ChatSays(k), Audible, SaysAloud(k), ms);
  }

  ghost predicate HasIds(items: seq<Item>) {
    forall x :: x in items ==> x.FunctionCall? ==> x.callId != ""
  }

  lemma {:induction false} ItemsHaveIds(ms: seq<Chat>)
    requires forall m :: m in ms && m.Assistant? ==> forall c :: c in m.calls ==> c.id != ""
    ensures HasIds(FlatMap(ItemsOf, ms))
  {
    if ms != [] {
      var last := ms[|ms| - 1];
      ItemsHaveIds(ms[..|ms| - 1]);
      assert last in ms;
      if last.Assistant? { CallsHaveIds(last.calls); }
    }
  }

  lemma {:induction false} CallsHaveIds(calls: seq<Call>)
    requires forall c :: c in calls ==> c.id != ""
    ensures HasIds(FlatMap(CallItem, calls))
  {
    if calls != [] {
      assert calls[|calls| - 1] in calls;
      CallsHaveIds(calls[..|calls| - 1]);
    }
  }

  /** Chat to Responses and back keeps exactly what is said aloud, in order:
      every text, tool call and tool result, and no reasoning. */
  lemma ChatResponsesChat(k: Codec, mint: Mint, ms: seq<Chat>)
    requires MintOk(mint)
    ensures Says(k, FromResponses(mint, ToResponses(mint, ms))) == Aloud(Says(k, Fill(mint, ms)))
  {
    var items := ToResponses(mint, ms).input;
    ItemsHaveIds(Fill(mint, ms));
    assert FillItems(mint, items) == items;
    ResponsesSayAloud(k, Fill(mint, ms));
    ItemsComeBack(k, mint, ToResponses(mint, ms));
  }

  /** Whichever upstream format a conversation travels through, the same things
      are said aloud. */
  lemma PathsAgree(k: Codec, mint: Mint, ms: seq<Chat>)
    requires CodecOk(k) && MintOk(mint)
    ensures Aloud(Says(k, FromAnthropic(k, ToAnthropic(k, mint, ms))))
         == Says(k, FromResponses(mint, ToResponses(mint, ms)))
  {
    ChatAnthropicChat(k, mint, ms);
    ChatResponsesChat(k, mint, ms);
    AloudSpoken(Says(k, FromAnthropic(k, ToAnthropic(k, mint, ms))));
    AloudSpoken(Says(k, Fill(mint, ms)));
  }

  // ---------------------------------------------------------- system prompt

  lemma PromptFirst(s: string, ms: seq<Chat>)
    requires forall m :: m in ms ==> !m.System?
    ensures SystemPrompt(SystemMessage(s) + ms) == s
  {
    FlatMapConcat(SystemText, SystemMessage(s), ms);
    FlatMapNone(SystemText, ms);
    if s != "" { FlatMapOne(SystemText, System(Text(s))); }
  }

  /** Both round trips keep the system prompt. */
  lemma PromptKept(k: Codec, mint: Mint, ms: seq<Chat>)
    ensures SystemPrompt(FromAnthropic(k, ToAnthropic(k, mint, ms))) == SystemPrompt(ms)
    ensures SystemPrompt(FromResponses(mint, ToResponses(mint, ms))) == SystemPrompt(ms)
  {
    var there := ToAnthropic(k, mint, ms).messages;
    var f := ChatOf(k, ThinkingMode(there));
    forall m: Chat | m in FlatMap(f, there) ensures !m.System? {
      FlatMapFrom(f, there, m);
      var x :| x in there && m in f(x);
      NoSystemIn(k, ThinkingMode(there), x);
    }
    PromptFirst(SystemPrompt(ms), FlatMap(f, there));
    ItemsUnprompted(mint, Fill(mint, ms));
    PromptFirst(SystemPrompt(ms), FlatMap(ChatOfItem, FillItems(mint, FlatMap(ItemsOf, Fill(mint, ms)))));
  }

  lemma NoSystemIn(k: Codec, thinking: bool, m: Message)
    ensures forall x :: x in ChatOfMessage(k, thinking, m) ==> !x.System?
  {
    if m.body.Blocks? {
      forall x: Chat | x in Results(m.body.blocks) ensures x.Tool? {
        FlatMapFrom(ResultIn, m.body.blocks, x);
      }
    }
  }

  lemma ItemsUnprompted(mint: Mint, ms: seq<Chat>)
    ensures forall x :: x in FlatMap(ChatOfItem, FillItems(mint, FlatMap(ItemsOf, ms))) ==> !x.System?
  {
    var items := FlatMap(ItemsOf, ms);
    forall item | item in items ensures Unprompted(item) {
      FlatMapFrom(ItemsOf, ms, item);
      var m :| m in ms && item in ItemsOf(m);
      UnpromptedItem(m, item);
    }
    UnpromptedChats(mint, items);
  }

  predicate Unprompted(item: Item) {
    item.MessageItem? ==> !item.role.AsSystem?
  }

  lemma UnpromptedChats(mint: Mint, items: seq<Item>)
    requires forall item :: item in items ==> Unprompted(item)
    ensures forall x :: x in FlatMap(ChatOfItem, FillItems(mint, items)) ==> !x.System?
  {
    var filled := FillItems(mint, items);
    FilledUnprompted(mint, items);
    forall x: Chat | x in FlatMap(ChatOfItem, filled) ensures !x.System? {
      FlatMapFrom(ChatOfItem, filled, x);
      var y :| y in filled && x in ChatOfItem(y);
      assert Unprompted(y);
    }
  }

  lemma FilledUnprompted(mint: Mint, items: seq<Item>)
    requires forall item :: item in items ==> Unprompted(item)
    ensures forall item :: item in FillItems(mint, items) ==> Unprompted(item)
  {
    var filled := FillItems(mint, items);
    forall i | 0 <= i < |filled| ensures Unprompted(filled[i]) {
      assert items[i] in items;
    }
  }

  lemma UnpromptedItem(m: Chat, item: Item)
    requires item in ItemsOf(m)
    ensures Unprompted(item)
  {
    if m.Assistant? && item in FlatMap(CallItem, m.calls) {
      FlatMapFrom(CallItem, m.calls, item);
    }
  }
}
