/** The answers of the three protocols: one assistant turn and why it ended,
    converted to the client's format and back. */
module ProtocolResponses {
  import opened Options
  import J = Json
  import opened Sequences
  import opened ProtocolAdapters
  import opened ProtocolRoundTrip
  import T = Text

  /** The first choice of a Chat completion. */
  datatype Reply = Reply(text: string, reasoning: string, calls: seq<Call>, finish: Option<string>)

  datatype AnthropicReply = AnthropicReply(content: seq<Block>, stop: Option<string>)

  datatype ResponsesReply = ResponsesReply(output: seq<Item>, outputText: string, incomplete: bool)

  // ------------------------------------------------------- Chat to Anthropic

  // The stop reason of a finish reason; unknown ones pass through.
  function StopOf(finish: Option<string>): Option<string> {
    if finish == Some("stop") then Some("end_turn")
    else if finish == Some("tool_calls") then Some("tool_use")
    else if finish == Some("length") then Some("max_tokens")
    else finish
  }

  function FinishOf(stop: Option<string>): Option<string> {
    if stop == Some("end_turn") || stop == Some("stop_sequence") then Some("stop")
    else if stop == Some("tool_use") then Some("tool_calls")
    else if stop == Some("max_tokens") then Some("length")
    else if stop.None? || stop.value == "" then Some("stop")
    else stop
  }

  // A call without an id is given one.
  function NamedAt(mint: Mint, i: nat, id: string): string {
    if id != "" then id else mint(0, i)
  }

  function Named(mint: Mint, calls: seq<Call>): seq<Call> {
    FillCalls(mint, 0, calls)
  }

  function ToAnthropicReply(k: Codec, mint: Mint, r: Reply): AnthropicReply {
    AnthropicReply(Ordered(T.Strip(r.reasoning), T.Strip(r.text), CallBlocks(k, Named(mint, r.calls))),
        StopOf(r.finish))
  }

  /** `to_anthropic_message`. */
  method ConvertReplyToAnthropic(k: Codec, mint: Mint, r: Reply) returns (a: AnthropicReply)
    ensures a == ToAnthropicReply(k, mint, r)
  {
    var content: seq<Block> := [];
    if T.Strip(r.reasoning) != "" { content := content + [Thinking(T.Strip(r.reasoning))]; }
    if T.Strip(r.text) != "" { content := content + [TextBlock(T.Strip(r.text))]; }
    ghost var prefix := content;
    for i := 0 to |r.calls|
      invariant content == prefix + CallBlocks(k, Named(mint, r.calls[..i]))
    {
      var c := r.calls[i];
      CallBlocksTake(k, mint, r.calls, i);
      content := content + [ToolUse(NamedAt(mint, i, c.id), c.name, ArgValue(k, c.args))];
    }
    assert r.calls[..|r.calls|] == r.calls;
    a := AnthropicReply(content, StopOf(r.finish));
  }

  lemma CallBlocksTake(k: Codec, mint: Mint, calls: seq<Call>, i: nat)
    requires i < |calls|
    ensures var c := calls[i];
      CallBlocks(k, Named(mint, calls[..i + 1])) == CallBlocks(k, Named(mint, calls[..i]))
        + [ToolUse(NamedAt(mint, i, c.id), c.name, ArgValue(k, c.args))]
  {
  }

  // ------------------------------------------------------- Anthropic to Chat

  // A missing or empty input reads as {}.
  function OrEmpty(v: J.Json): J.Json {
    if J.Falsy(v) then J.Obj(map[]) else v
  }

  // The tool calls of a content list; a call without an id is given one.
  function BlockCalls(k: Codec, mint: Mint, bs: seq<Block>): seq<Call> {
    if bs == [] then [] else
    var front, b := BlockCalls(k, mint, bs[..|bs| - 1]), bs[|bs| - 1];
    if b.ToolUse? then front + [Call(NamedAt(mint, |front|, b.id), b.name, Some(k.dumps(OrEmpty(b.input))))] else front
  }

  function FromAnthropicReply(k: Codec, mint: Mint, a: AnthropicReply): Reply {
    Reply(Join(NonEmpty(Texts(a.content))), Join(NonEmpty(Thoughts(a.content))),
          BlockCalls(k, mint, a.content), FinishOf(a.stop))
  }

  /** `anthropic_message_to_openai_chat_response`. */
  method ConvertReplyFromAnthropic(k: Codec, mint: Mint, a: AnthropicReply) returns (r: Reply)
    ensures r == FromAnthropicReply(k, mint, a)
  {
    var texts: seq<string>, thoughts: seq<string>, calls: seq<Call> := [], [], [];
    for i := 0 to |a.content|
      invariant texts == Texts(a.content[..i]) && thoughts == Thoughts(a.content[..i])
      invariant calls == BlockCalls(k, mint, a.content[..i])
    {
      var b := a.content[i];
      assert a.content[..i + 1] == a.content[..i] + [b];
      assert a.content[..i + 1][..i] == a.content[..i];
      FlatMapSnoc(TextIn, a.content[..i], b);
      FlatMapSnoc(ThoughtIn, a.content[..i], b);
      if b.TextBlock? {
        texts := texts + [b.s];
      } else if b.Thinking? {
        thoughts := thoughts + [b.s];
      } else if b.ToolUse? {
        calls := calls + [Call(NamedAt(mint, |calls|, b.id), b.name, Some(k.dumps(OrEmpty(b.input))))];
      }
    }
    assert a.content[..|a.content|] == a.content;
    r := Reply(Join(NonEmpty(texts)), Join(NonEmpty(thoughts)), calls, FinishOf(a.stop));
  }

  // ------------------------------------------------------- Chat to Responses

  function ReplyItems(calls: seq<Call>): seq<Item> {
    seq(|calls|, j requires 0 <= j < |calls| =>
      FunctionCall(calls[j].id, calls[j].name, if calls[j].args.Some? then calls[j].args.value else "{}"))
  }

  // Reasoning first, then text.
  function Opening(reasoning: string, text: string): seq<Item> {
    (if reasoning != "" then [ReasoningItem(reasoning)] else [])
        + (if text != "" then [MessageItem(AsAssistant, [text])] else [])
  }

  function ToResponsesReply(mint: Mint, r: Reply): ResponsesReply {
    ResponsesReply(Opening(T.Strip(r.reasoning), r.text) + ReplyItems(Named(mint, r.calls)), r.text,
                   r.finish == Some("length"))
  }

  /** `openai_chat_response_to_responses_response`. */
  method ConvertReplyToResponses(mint: Mint, r: Reply) returns (x: ResponsesReply)
    ensures x == ToResponsesReply(mint, r)
  {
    var output: seq<Item> := [];
    if T.Strip(r.reasoning) != "" { output := output + [ReasoningItem(T.Strip(r.reasoning))]; }
    if r.text != "" { output := output + [MessageItem(AsAssistant, [r.text])]; }
    ghost var opening := output;
    for i := 0 to |r.calls|
      invariant output == opening + ReplyItems(Named(mint, r.calls[..i]))
    {
      var c := r.calls[i];
      var item := FunctionCall(NamedAt(mint, i, c.id), c.name, if c.args.Some? then c.args.value else "{}");
      ReplyItemsTake(mint, r.calls, i);
      output := output + [item];
    }
    assert r.calls[..|r.calls|] == r.calls;
    x := ResponsesReply(output, r.text, r.finish == Some("length"));
  }

  lemma ReplyItemsTake(mint: Mint, calls: seq<Call>, i: nat)
    requires i < |calls|
    ensures var c := calls[i];
      ReplyItems(Named(mint, calls[..i + 1])) == ReplyItems(Named(mint, calls[..i]))
        + [FunctionCall(NamedAt(mint, i, c.id), c.name, if c.args.Some? then c.args.value else "{}")]
  {
  }

  // ------------------------------------------------------- Responses to Chat

  function ItemText(item: Item): seq<string> {
    if item.MessageItem? then Kept(Join(NonEmpty(item.parts))) else []
  }

  function ItemThought(item: Item): seq<string> {
    if item.ReasoningItem? then Kept(item.s) else []
  }

  function ItemCalls(mint: Mint, items: seq<Item>): seq<Call> {
    if items == [] then [] else
    var front, x := ItemCalls(mint, items[..|items| - 1]), items[|items| - 1];
    if x.FunctionCall? then front + [Call(NamedAt(mint, |front|, x.callId), x.name, Some(x.arguments))] else front
  }

  function Finished(calls: seq<Call>, incomplete: bool): string {
    if calls != [] then "tool_calls" else if incomplete then "length" else "stop"
  }

  function FromResponsesReply(mint: Mint, x: ResponsesReply): Reply {
    var texts, calls := FlatMap(ItemText, x.output), ItemCalls(mint, x.output);
    Reply(Join(NonEmpty(if texts == [] then Kept(x.outputText) else texts)),
        Join(NonEmpty(FlatMap(ItemThought, x.output))),
          calls, Some(Finished(calls, x.incomplete)))
  }

  /** `responses_response_to_openai_chat_response`. */
  method ConvertReplyFromResponses(mint: Mint, x: ResponsesReply) returns (r: Reply)
    ensures r == FromResponsesReply(mint, x)
  {
    var texts: seq<string>, thoughts: seq<string>, calls: seq<Call> := [], [], [];
    for i := 0 to |x.output|
      invariant texts == FlatMap(ItemText, x.output[..i]) && thoughts == FlatMap(ItemThought, x.output[..i])
      invariant calls == ItemCalls(mint, x.output[..i])
    {
      var item := x.output[i];
      assert x.output[..i + 1] == x.output[..i] + [item];
      assert x.output[..i + 1][..i] == x.output[..i];
      FlatMapSnoc(ItemText, x.output[..i], item);
      FlatMapSnoc(ItemThought, x.output[..i], item);
      if item.MessageItem? {
        var text := Join(NonEmpty(item.parts));
        if text != "" { texts := texts + [text]; }
      } else if item.ReasoningItem? {
        if item.s != "" { thoughts := thoughts + [item.s]; }
      } else if item.FunctionCall? {
        calls := calls + [Call(NamedAt(mint, |calls|, item.callId), item.name, Some(item.arguments))];
      }
    }
    assert x.output[..|x.output|] == x.output;
    if texts == [] && x.outputText != "" { texts := [x.outputText]; }
    r := Reply(Join(NonEmpty(texts)), Join(NonEmpty(thoughts)), calls, Some(Finished(calls, x.incomplete)));
  }

  // ------------------------------------------------------------- round trips

  // Every call has the id it would be given.
  predicate Given(mint: Mint, calls: seq<Call>) {
    forall j :: 0 <= j < |calls| ==> NamedAt(mint, j, calls[j].id) == calls[j].id
  }

  lemma NamedGiven(mint: Mint, calls: seq<Call>)
    ensures Given(mint, Named(mint, calls))
    ensures Given(mint, calls) ==> Named(mint, calls) == calls
  {
  }

  // A call with its arguments printed afresh.
  function Reprinted(k: Codec, calls: seq<Call>): seq<Call> {
    seq(|calls|, j requires 0 <= j < |calls| =>
      Call(calls[j].id, calls[j].name, Some(k.dumps(OrEmpty(ArgValue(k, calls[j].args))))))
  }

  function WithArgs(calls: seq<Call>): seq<Call> {
    seq(|calls|, j requires 0 <= j < |calls| =>
      Call(calls[j].id, calls[j].name, Some(if calls[j].args.Some? then calls[j].args.value else "{}")))
  }

  lemma JoinKept(s: string)
    ensures Join(NonEmpty(Kept(s))) == s
  {
    if s != "" {
      FlatMapOne(Kept, s);
      assert Join([s]) == s;
    }
  }

  function CallOf(k: Codec, mint: Mint, i: nat, b: Block): seq<Call> {
    if b.ToolUse? then [Call(NamedAt(mint, i, b.id), b.name, Some(k.dumps(OrEmpty(b.input))))] else []
  }

  lemma BlockCallsSnoc(k: Codec, mint: Mint, bs: seq<Block>, b: Block)
    ensures BlockCalls(k, mint, bs + [b]) == BlockCalls(k, mint, bs) + CallOf(k, mint, |BlockCalls(k, mint, bs)|, b)
  {
    assert (bs + [b])[..|bs|] == bs;
  }

  function CallFrom(mint: Mint, i: nat, x: Item): seq<Call> {
    if x.FunctionCall? then [Call(NamedAt(mint, i, x.callId), x.name, Some(x.arguments))] else []
  }

  lemma ItemCallsSnoc(mint: Mint, items: seq<Item>, x: Item)
    ensures ItemCalls(mint, items + [x]) == ItemCalls(mint, items) + CallFrom(mint, |ItemCalls(mint, items)|, x)
  {
    assert (items + [x])[..|items|] == items;
  }

  // The last call of a reply, as an item and with its arguments.
  lemma LastCall(calls: seq<Call>)
    requires calls != []
    ensures var front, c := calls[..|calls| - 1], calls[|calls| - 1];
      var args := if c.args.Some? then c.args.value else "{}";
      ReplyItems(calls) == ReplyItems(front) + [FunctionCall(c.id, c.name, args)]
      && WithArgs(calls) == WithArgs(front) + [Call(c.id, c.name, Some(args))]
  {
  }

  lemma ReprintedSnoc(k: Codec, calls: seq<Call>)
    requires calls != []
    ensures var c := calls[|calls| - 1];
      Reprinted(k, calls) == Reprinted(k, calls[..|calls| - 1])
          + [Call(c.id, c.name, Some(k.dumps(OrEmpty(ArgValue(k, c.args)))))]
  {
  }

  lemma {:induction false} CallsBack(k: Codec, mint: Mint, prefix: seq<Block>, calls: seq<Call>)
    requires Given(mint, calls) && BlockCalls(k, mint, prefix) == []
    ensures BlockCalls(k, mint, prefix + CallBlocks(k, calls)) == Reprinted(k, calls)
  {
    if calls == [] {
      assert prefix + CallBlocks(k, calls) == prefix;
    } else {
      var front, c := calls[..|calls| - 1], calls[|calls| - 1];
      assert Given(mint, front) && NamedAt(mint, |front|, c.id) == c.id;
      CallsBack(k, mint, prefix, front);
      var last := ToolUse(c.id, c.name, ArgValue(k, c.args));
      BlockCallsSnoc(k, mint, prefix + CallBlocks(k, front), last);
      assert prefix + CallBlocks(k, calls) == prefix + CallBlocks(k, front) + [last];
      ReprintedSnoc(k, calls);
    }
  }

  lemma PrefixNoCalls(k: Codec, mint: Mint, r: string, t: string)
    ensures BlockCalls(k, mint, Prefix(r, t)) == []
  {
    var thought: seq<Block> := if r != "" then [Thinking(r)] else [];
    if r != "" { assert thought[..0] == []; }
    if t == "" {
      assert Prefix(r, t) == thought;
    } else {
      BlockCallsSnoc(k, mint, thought, TextBlock(t));
    }
  }

  /** Chat to Anthropic to Chat: text and reasoning come back stripped, every
      call with its id, its name and the value of its arguments. */
  lemma {:induction false} AnthropicReplyTrip(k: Codec, mint: Mint, r: Reply)
    ensures FromAnthropicReply(k, mint, ToAnthropicReply(k, mint, r))
         == Reply(T.Strip(r.text), T.Strip(r.reasoning), Reprinted(k, Named(mint, r.calls)), FinishOf(StopOf(r.finish)))
  {
    var thought, text := T.Strip(r.reasoning), T.Strip(r.text);
    var calls := Named(mint, r.calls);
    NamedGiven(mint, r.calls);
    OrderedParts(k, thought, text, CallBlocks(k, calls));
    JoinKept(text);
    JoinKept(thought);
    PrefixNoCalls(k, mint, thought, text);
    CallsBack(k, mint, Prefix(thought, text), calls);
  }

  /** The finish reason survives that trip exactly when it is none of the
      Anthropic stop reasons and not empty. */
  lemma FinishSurvives(finish: Option<string>)
    ensures FinishOf(StopOf(finish)) == finish <==>
      finish.Some? && finish.value !in ["", "end_turn", "tool_use", "max_tokens", "stop_sequence"]
  {
  }

  // What a reply says; an empty argument value says the same as {}.
  function ReplySays(k: Codec, r: Reply): seq<Event> {
    Thinks(r.reasoning) + AssistantSays(r.text) + FlatMap(CallMeans(k), r.calls)
  }

  function CallMeans(k: Codec): Call -> seq<Event> {
    (c: Call) => [ToolCall(c.id, c.name, OrEmpty(ArgValue(k, c.args)))]
  }

  lemma {:induction false} ReprintedMeans(k: Codec, calls: seq<Call>)
    requires CodecOk(k)
    ensures FlatMap(CallMeans(k), Reprinted(k, calls)) == FlatMap(CallMeans(k), calls)
  {
    if calls != [] {
      var front, c := calls[..|calls| - 1], calls[|calls| - 1];
      ReprintedMeans(k, front);
      var v := OrEmpty(ArgValue(k, c.args));
      var again := Call(c.id, c.name, Some(k.dumps(v)));
      ReprintedSnoc(k, calls);
      FlatMapSnoc(CallMeans(k), Reprinted(k, front), again);
      assert k.loads(k.dumps(v)) == Some(v) && k.dumps(v) != "";
      assert CallMeans(k)(again) == CallMeans(k)(c);
    }
  }

  lemma {:induction false} ItemsBack(mint: Mint, opening: seq<Item>, calls: seq<Call>)
    requires Given(mint, calls) && ItemCalls(mint, opening) == []
    ensures ItemCalls(mint, opening + ReplyItems(calls)) == WithArgs(calls)
  {
    if calls == [] {
      assert opening + ReplyItems(calls) == opening;
    } else {
      var front, c := calls[..|calls| - 1], calls[|calls| - 1];
      assert Given(mint, front) && NamedAt(mint, |front|, c.id) == c.id;
      ItemsBack(mint, opening, front);
      LastCall(calls);
      var last := FunctionCall(c.id, c.name, if c.args.Some? then c.args.value else "{}");
      ItemCallsSnoc(mint, opening + ReplyItems(front), last);
      assert opening + ReplyItems(calls) == opening + ReplyItems(front) + [last];
    }
  }

  lemma OpeningParts(mint: Mint, reasoning: string, text: string)
    ensures FlatMap(ItemText, Opening(reasoning, text)) == Kept(text)
    ensures FlatMap(ItemThought, Opening(reasoning, text)) == Kept(reasoning)
    ensures ItemCalls(mint, Opening(reasoning, text)) == []
  {
    var thought: seq<Item> := if reasoning != "" then [ReasoningItem(reasoning)] else [];
    var said := MessageItem(AsAssistant, [text]);
    FlatMapOne(ItemText, ReasoningItem(reasoning));
    FlatMapOne(ItemThought, ReasoningItem(reasoning));
    ItemCallsSnoc(mint, [], ReasoningItem(reasoning));
    assert [] + [ReasoningItem(reasoning)] == [ReasoningItem(reasoning)];
    if text == "" {
      assert Opening(reasoning, text) == thought;
    } else {
      SaidText(text);
      FlatMapSnoc(ItemText, thought, said);
      FlatMapSnoc(ItemThought, thought, said);
      ItemCallsSnoc(mint, thought, said);
    }
  }

  lemma SaidText(text: string)
    requires text != ""
    ensures ItemText(MessageItem(AsAssistant, [text])) == [text]
  {
    FlatMapOne(Kept, text);
    assert Join([text]) == text;
  }

  lemma CallItemsSilent(opening: seq<Item>, calls: seq<Call>)
    ensures FlatMap(ItemText, opening + ReplyItems(calls)) == FlatMap(ItemText, opening)
    ensures FlatMap(ItemThought, opening + ReplyItems(calls)) == FlatMap(ItemThought, opening)
  {
    FlatMapConcat(ItemText, opening, ReplyItems(calls));
    FlatMapConcat(ItemThought, opening, ReplyItems(calls));
    FlatMapNone(ItemText, ReplyItems(calls));
    FlatMapNone(ItemThought, ReplyItems(calls));
  }

  /** Chat to Responses to Chat: text comes back unchanged, reasoning stripped,
      and every call with its arguments as they were written. */
  lemma {:induction false} ResponsesReplyTrip(mint: Mint, r: Reply)
    ensures FromResponsesReply(mint, ToResponsesReply(mint, r))
         == Reply(r.text, T.Strip(r.reasoning), WithArgs(Named(mint, r.calls)),
             Some(Finished(r.calls, r.finish == Some("length"))))
  {
    var thought := T.Strip(r.reasoning);
    var opening := Opening(thought, r.text);
    OpeningParts(mint, thought, r.text);
    CallItemsSilent(opening, Named(mint, r.calls));
    NamedGiven(mint, r.calls);
    ItemsBack(mint, opening, Named(mint, r.calls));
    JoinKept(r.text);
    JoinKept(thought);
    assert |WithArgs(Named(mint, r.calls))| == |r.calls|;
  }

  /** The finish reason survives this trip exactly when it is the one the
      Responses form can express: a truncated reply with tool calls, say, comes
      back as finished by its calls. */
  lemma FinishExpressible(r: Reply)
    ensures Some(Finished(r.calls, r.finish == Some("length"))) == r.finish <==>
      if r.calls != [] then r.finish == Some("tool_calls") else r.finish in [Some("stop"), Some("length")]
  {
  }

  lemma {:induction false} WithArgsMeans(k: Codec, calls: seq<Call>)
    ensures FlatMap(CallMeans(k), WithArgs(calls)) == FlatMap(CallMeans(k), calls)
  {
    if calls != [] {
      var front, c := calls[..|calls| - 1], calls[|calls| - 1];
      WithArgsMeans(k, front);
      var again := Call(c.id, c.name, Some(if c.args.Some? then c.args.value else "{}"));
      assert WithArgs(calls) == WithArgs(front) + [again];
      FlatMapSnoc(CallMeans(k), WithArgs(front), again);
    }
  }

  /** Whichever format a reply passes through, it says the same, up to blanks
      around its text; a call without an id is given one on the way. */
  lemma {:induction false} RepliesAgree(k: Codec, mint: Mint, r: Reply)
    requires CodecOk(k)
    ensures var a := FromAnthropicReply(k, mint, ToAnthropicReply(k, mint, r));
            var x := FromResponsesReply(mint, ToResponsesReply(mint, r));
            var said := Reply(T.Strip(r.text), T.Strip(r.reasoning), Named(mint, r.calls), r.finish);
            ReplySays(k, a) == ReplySays(k, x.(text := T.Strip(x.text))) == ReplySays(k, said)
  {
    AnthropicReplyTrip(k, mint, r);
    ResponsesReplyTrip(mint, r);
    ReprintedMeans(k, Named(mint, r.calls));
    WithArgsMeans(k, Named(mint, r.calls));
  }

  lemma ReprintedTwice(k: Codec, calls: seq<Call>)
    requires CodecOk(k)
    ensures Reprinted(k, Reprinted(k, calls)) == Reprinted(k, calls)
  {
    forall j | 0 <= j < |calls| ensures Reprinted(k, Reprinted(k, calls))[j] == Reprinted(k, calls)[j] {
      var v := OrEmpty(ArgValue(k, calls[j].args));
      assert k.loads(k.dumps(v)) == Some(v) && k.dumps(v) != "";
      assert ArgValue(k, Reprinted(k, calls)[j].args) == v && OrEmpty(v) == v;
    }
  }

  // What a trip leaves alone.
  predicate Settled(k: Codec, mint: Mint, r: Reply) {
    && T.Strip(r.text) == r.text && T.Strip(r.reasoning) == r.reasoning
    && Given(mint, r.calls) && Reprinted(k, r.calls) == r.calls
    && FinishOf(StopOf(r.finish)) == r.finish
  }

  lemma SettledStays(k: Codec, mint: Mint, r: Reply)
    requires Settled(k, mint, r)
    ensures FromAnthropicReply(k, mint, ToAnthropicReply(k, mint, r)) == r
  {
    AnthropicReplyTrip(k, mint, r);
    NamedGiven(mint, r.calls);
  }

  lemma FinishSettles(finish: Option<string>)
    ensures FinishOf(StopOf(FinishOf(StopOf(finish)))) == FinishOf(StopOf(finish))
  {
  }

  // Fresh arguments leave every id as it is.
  lemma ReprintedGiven(k: Codec, mint: Mint, calls: seq<Call>)
    requires Given(mint, calls)
    ensures Given(mint, Reprinted(k, calls))
  {
  }

  /** A second trip changes nothing more. */
  lemma {:induction false} SecondTripStill(k: Codec, mint: Mint, r: Reply)
    requires CodecOk(k)
    ensures var once := FromAnthropicReply(k, mint, ToAnthropicReply(k, mint, r));
            FromAnthropicReply(k, mint, ToAnthropicReply(k, mint, once)) == once
  {
    var once := FromAnthropicReply(k, mint, ToAnthropicReply(k, mint, r));
    assert Settled(k, mint, once) by {
      AnthropicReplyTrip(k, mint, r);
      NamedGiven(mint, r.calls);
      ReprintedGiven(k, mint, Named(mint, r.calls));
      ReprintedTwice(k, Named(mint, r.calls));
      FinishSettles(r.finish);
      T.StripTwice(r.text);
      T.StripTwice(r.reasoning);
    }
    SettledStays(k, mint, once);
  }
}
