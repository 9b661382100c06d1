/** What an answer says, and why it ended, in the form each client reads. */
module ReplyForms {
  import opened Options
  import J = Json
  import opened Sequences
  import opened ProtocolAdapters
  import opened ProtocolRoundTrip
  import opened ProtocolResponses
  import F = ProtocolForms
  import T = Text

  // ------------------------------------------------------------ why it ended

  /** Every finish reason that Chat defines goes to an Anthropic client as one
      of the stop reasons Anthropic defines, and each of those is sent for its
      own Chat reason (or passed on); any other reason is passed on. */
  lemma {:induction false} StopReasons(k: Codec, mint: Mint, r: Reply)
    ensures var stop := ToAnthropicReply(k, mint, r).stop;
      && (stop == Some("end_turn") <==> r.finish in [Some("stop"), Some("end_turn")])
      && (stop == Some("tool_use") <==> r.finish in [Some("tool_calls"), Some("tool_use")])
      && (stop == Some("max_tokens") <==> r.finish in [Some("length"), Some("max_tokens")])
      && (r.finish !in [Some("stop"), Some("tool_calls"), Some("length")] ==> stop == r.finish)
  {
  }

  /** Every stop reason that Anthropic defines comes to a Chat client as a finish
      reason of Chat; a missing one as a plain stop; any other is passed on. */
  lemma {:induction false} FinishReasons(k: Codec, mint: Mint, a: AnthropicReply)
    ensures var finish := FromAnthropicReply(k, mint, a).finish;
      && (finish == Some("stop") <==>
            a.stop in [Some("end_turn"), Some("stop_sequence"), None, Some(""), Some("stop")])
      && (finish == Some("tool_calls") <==> a.stop in [Some("tool_use"), Some("tool_calls")])
      && (finish == Some("length") <==> a.stop in [Some("max_tokens"), Some("length")])
      && (a.stop !in [Some("end_turn"), Some("stop_sequence"), None, Some(""), Some("tool_use"), Some("max_tokens")]
          ==> finish == a.stop)
  {
  }

  /** A Responses answer is incomplete exactly when its length ran out, and a
      Chat client is told of calls first, then of the length. */
  lemma {:induction false} ResponsesEndings(mint: Mint, r: Reply, x: ResponsesReply)
    ensures ToResponsesReply(mint, r).incomplete <==> r.finish == Some("length")
    ensures FromResponsesReply(mint, x).finish
         == Some(if exists i :: 0 <= i < |x.output| && x.output[i].FunctionCall? then "tool_calls"
                 else if x.incomplete then "length" else "stop")
  {
    CallsAppear(mint, x.output);
  }

  lemma {:induction false} CallsAppear(mint: Mint, items: seq<Item>)
    ensures ItemCalls(mint, items) != [] <==> exists i :: 0 <= i < |items| && items[i].FunctionCall?
  {
    if items != [] {
      var n := |items| - 1;
      CallsAppear(mint, items[..n]);
      if i :| 0 <= i < n && items[i].FunctionCall? { assert items[..n][i].FunctionCall?; }
      if i :| 0 <= i < n && items[..n][i].FunctionCall? { assert items[i].FunctionCall?; }
    }
  }

  // -------------------------------------------------------------- what it says

  /** The blocks of an Anthropic answer say its reasoning, its text and its calls,
      in this order. */
  lemma {:induction false} AnthropicReplySays(k: Codec, mint: Mint, r: Reply)
    ensures BlocksSay(FromAssistant, ToAnthropicReply(k, mint, r).content)
         == Thinks(T.Strip(r.reasoning)) + AssistantSays(T.Strip(r.text)) + CallsSay(k, Named(mint, r.calls))
  {
    OrderedSays(T.Strip(r.reasoning), T.Strip(r.text), CallBlocks(k, Named(mint, r.calls)));
    CallBlocksSay(k, Named(mint, r.calls));
  }

  /** So do the items of a Responses answer, whose plain text is the answer's. */
  lemma {:induction false} ResponsesReplySays(k: Codec, mint: Mint, r: Reply)
    ensures ItemsSay(k, ToResponsesReply(mint, r).output)
         == Thinks(T.Strip(r.reasoning)) + AssistantSays(r.text) + CallsSay(k, Named(mint, r.calls))
    ensures ToResponsesReply(mint, r).outputText == r.text
  {
    var thought, calls := T.Strip(r.reasoning), Named(mint, r.calls);
    OpeningSays(k, thought, r.text);
    ReplyItemsSay(k, calls);
    FlatMapConcat(ItemSays(k), Opening(thought, r.text), ReplyItems(calls));
  }

  lemma OpeningSays(k: Codec, thought: string, text: string)
    ensures ItemsSay(k, Opening(thought, text)) == Thinks(thought) + AssistantSays(text)
  {
    var f := ItemSays(k);
    var first: seq<Item> := if thought != "" then [ReasoningItem(thought)] else [];
    if thought != "" { FlatMapOne(f, ReasoningItem(thought)); }
    if text != "" {
      FlatMapSnoc(f, first, MessageItem(AsAssistant, [text]));
      F.JoinedOne(text);
    } else {
      assert Opening(thought, text) == first;
    }
  }

  lemma {:induction false} ReplyItemsSay(k: Codec, calls: seq<Call>)
    ensures ItemsSay(k, ReplyItems(calls)) == CallsSay(k, calls)
  {
    if calls != [] {
      var front, c := calls[..|calls| - 1], calls[|calls| - 1];
      var item := FunctionCall(c.id, c.name, if c.args.Some? then c.args.value else "{}");
      ReplyItemsSay(k, front);
      assert ReplyItems(calls) == ReplyItems(front) + [item];
      FlatMapSnoc(ItemSays(k), ReplyItems(front), item);
    }
  }

  /** A missing id is made up, a given one is kept, in answers too. */
  lemma {:induction false} ReplyIdsKept(mint: Mint, calls: seq<Call>)
    ensures |Named(mint, calls)| == |calls|
    ensures forall j :: 0 <= j < |calls| ==> F.SameCall(Named(mint, calls)[j], calls[j], mint(0, j))
  {
    F.FillCallsKeep(mint, 0, calls);
  }

  // ------------------------------------------------------- any upstream answer

  // What a tool call means; a missing or empty argument value is an empty object.
  function Used(b: Block): seq<Event> {
    if b.ToolUse? then [ToolCall(b.id, b.name, if J.Falsy(b.input) then J.Obj(map[]) else b.input)] else []
  }

  /** Whatever blocks an upstream sends, the Chat answer has its tool calls, in
      their order and with their ids. */
  lemma {:induction false} AnyCallsCome(k: Codec, mint: Mint, bs: seq<Block>)
    requires CodecOk(k) && forall b :: b in bs && b.ToolUse? ==> b.id != ""
    ensures CallsSay(k, BlockCalls(k, mint, bs)) == FlatMap(Used, bs)
  {
    if bs != [] {
      var front, b := bs[..|bs| - 1], bs[|bs| - 1];
      assert bs == front + [b] && b in bs;
      AnyCallsCome(k, mint, front);
      if b.ToolUse? {
        var c := Call(b.id, b.name, Some(k.dumps(OrEmpty(b.input))));
        FlatMapSnoc(CallSays(k), BlockCalls(k, mint, front), c);
        assert k.loads(k.dumps(OrEmpty(b.input))) == Some(OrEmpty(b.input)) && k.dumps(OrEmpty(b.input)) != "";
      }
    }
  }

  /** Its text is that of the text blocks in their order, its reasoning that of
      the thinking blocks, a line for each that has any. */
  lemma {:induction false} AnyTextComes(k: Codec, mint: Mint, a: seq<Block>, b: seq<Block>)
    ensures var whole := FromAnthropicReply(k, mint, AnthropicReply(a + b, None));
            var x := FromAnthropicReply(k, mint, AnthropicReply(a, None));
            var y := FromAnthropicReply(k, mint, AnthropicReply(b, None));
      whole.text == F.Lines(x.text, y.text) && whole.reasoning == F.Lines(x.reasoning, y.reasoning)
  {
    FlatMapConcat(TextIn, a, b);
    FlatMapConcat(ThoughtIn, a, b);
    F.JoinedInOrder(Texts(a), Texts(b));
    F.JoinedInOrder(Thoughts(a), Thoughts(b));
  }

  lemma OneBlockComes(k: Codec, mint: Mint, b: Block)
    ensures var r := FromAnthropicReply(k, mint, AnthropicReply([b], None));
      && r.text == (if b.TextBlock? then b.s else "") && r.reasoning == (if b.Thinking? then b.s else "")
  {
    FlatMapOne(TextIn, b);
    FlatMapOne(ThoughtIn, b);
    if b.TextBlock? || b.Thinking? { F.JoinedOne(b.s); }
  }

  /** Whatever items an upstream sends, the Chat answer says their calls. */
  lemma {:induction false} AnyItemCallsCome(k: Codec, mint: Mint, items: seq<Item>)
    requires forall x :: x in items && x.FunctionCall? ==> x.callId != ""
    ensures CallsSay(k, ItemCalls(mint, items)) == FlatMap(CalledBy(k), items)
  {
    if items != [] {
      var front, x := items[..|items| - 1], items[|items| - 1];
      assert items == front + [x] && x in items;
      AnyItemCallsCome(k, mint, front);
      if x.FunctionCall? {
        FlatMapSnoc(CallSays(k), ItemCalls(mint, front), Call(x.callId, x.name, Some(x.arguments)));
      }
    }
  }

  // The tool call an item is.
  function CalledBy(k: Codec): Item -> seq<Event> {
    (x: Item) => if x.FunctionCall? then [ToolCall(x.callId, x.name, ArgValue(k, Some(x.arguments)))] else []
  }

  /** And their texts and reasoning, in order; the plain text stands in where no
      item has text. */
  lemma {:induction false} AnyItemTextComes(mint: Mint, a: seq<Item>, b: seq<Item>)
    ensures var whole := FromResponsesReply(mint, ResponsesReply(a + b, "", false));
            var x := FromResponsesReply(mint, ResponsesReply(a, "", false));
            var y := FromResponsesReply(mint, ResponsesReply(b, "", false));
      whole.text == F.Lines(x.text, y.text) && whole.reasoning == F.Lines(x.reasoning, y.reasoning)
  {
    FlatMapConcat(ItemText, a, b);
    FlatMapConcat(ItemThought, a, b);
    F.JoinedInOrder(FlatMap(ItemText, a), FlatMap(ItemText, b));
    F.JoinedInOrder(FlatMap(ItemThought, a), FlatMap(ItemThought, b));
  }

  lemma OneItemComes(mint: Mint, x: Item, plain: string)
    ensures var r := FromResponsesReply(mint, ResponsesReply([x], "", false));
      && r.text == (if x.MessageItem? then Join(NonEmpty(x.parts)) else "")
      && r.reasoning == (if x.ReasoningItem? then x.s else "")
    ensures FromResponsesReply(mint, ResponsesReply([], plain, false)).text == plain
  {
    FlatMapOne(ItemText, x);
    FlatMapOne(ItemThought, x);
    if x.MessageItem? { KeptOnce(Join(NonEmpty(x.parts))); }
    if x.ReasoningItem? { KeptOnce(x.s); }
    KeptOnce(plain);
  }

  lemma KeptOnce(s: string)
    ensures Join(NonEmpty(Kept(s))) == s
  {
    if s != "" { F.JoinedOne(s); }
  }
}
