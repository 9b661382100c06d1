/** The request converters as they run: loops that append to the output list,
    now and then extending its last message. */
module ProtocolConverters {
  import opened Options
  import opened Sequences
  import opened ProtocolAdapters

  method ConvertToAnthropic(k: Codec, mint: Mint, ms: seq<Chat>) returns (r: AnthropicRequest)
    ensures r == ToAnthropic(k, mint, ms)
  {
    var system: seq<string> := [];
    var out: seq<Message> := [];
    var filled := Fill(mint, ms);
    for i := 0 to |ms|
      invariant system == FlatMap(SystemText, ms[..i])
      invariant out == AnthropicMessages(k, filled[..i])
    {
      FlatMapSnoc(SystemText, ms[..i], ms[i]);
      assert ms[..i + 1] == ms[..i] + [ms[i]];
      assert filled[..i + 1][..i] == filled[..i];
      if ms[i].System? && ContentText(ms[i].content) != "" {
        system := system + [ContentText(ms[i].content)];
      }
      out := AddMessage(k, out, filled[i]);
    }
    assert ms[..|ms|] == ms && filled[..|ms|] == filled;
    r := AnthropicRequest(Join(system), out);
  }

  // One chat message onto the Anthropic list.
  method AddMessage(k: Codec, ms: seq<Message>, m: Chat) returns (out: seq<Message>)
    ensures out == AnthropicStep(k, ms, m)
  {
    out := ms;
    match m {
      case System(_) =>
      case User(c) =>
        out := ms + [Message(FromUser, Plain(ContentText(c)))];
      case Assistant(c, reasoning, calls) =>
        var blocks: seq<Block> := [];
        if reasoning != "" { blocks := blocks + [Thinking(reasoning)]; }
        if ContentText(c) != "" { blocks := blocks + [TextBlock(ContentText(c))]; }
        assert blocks == Prefix(reasoning, ContentText(c));
        out := AddAssistant(ms, blocks + CallBlocks(k, calls));
      case Tool(id, c) =>
        var b := ResultBlock(id, ContentText(c), false);
        if EndsIn(ms, FromUser) && AllResults(ms[|ms| - 1].body.blocks) {
          out := ms[|ms| - 1 := Message(FromUser, Blocks(ms[|ms| - 1].body.blocks + [b]))];
        } else {
          out := ms + [Message(FromUser, Blocks([b]))];
        }
      case Ignored =>
    }
  }

  method AddAssistant(ms: seq<Message>, blocks: seq<Block>) returns (out: seq<Message>)
    ensures out == AppendAssistant(ms, blocks)
  {
    if EndsIn(ms, FromAssistant) && blocks != [] && AllToolUse(blocks) {
      out := ms[|ms| - 1 := Message(FromAssistant, Blocks(ms[|ms| - 1].body.blocks + blocks))];
    } else {
      out := ms + [AssistantMessage(blocks)];
    }
  }

  // One pass over a message's blocks, into the four lists the converter keeps.
  method Collect(k: Codec, bs: seq<Block>)
    returns (texts: seq<string>, thoughts: seq<string>, calls: seq<Call>, results: seq<Chat>)
    ensures texts == Texts(bs) && thoughts == Thoughts(bs) && calls == Uses(k, bs) && results == Results(bs)
  {
    texts, thoughts, calls, results := [], [], [], [];
    for i := 0 to |bs|
      invariant texts == Texts(bs[..i]) && thoughts == Thoughts(bs[..i])
      invariant calls == Uses(k, bs[..i]) && results == Results(bs[..i])
    {
      CollectOne(k, bs, i);
      match bs[i] {
        case TextBlock(s) => texts := texts + [s];
        case Thinking(s) => thoughts := thoughts + [s];
        case ToolUse(id, name, input) => calls := calls + [Call(id, name, Some(k.dumps(input)))];
        case ResultBlock(id, s, isError) => results := results + [Tool(id, Text(ResultText(s, isError)))];
      }
    }
    assert bs[..|bs|] == bs;
  }

  lemma CollectOne(k: Codec, bs: seq<Block>, i: nat)
    requires i < |bs|
    ensures Texts(bs[..i + 1]) == Texts(bs[..i]) + TextIn(bs[i])
    ensures Thoughts(bs[..i + 1]) == Thoughts(bs[..i]) + ThoughtIn(bs[i])
    ensures Uses(k, bs[..i + 1]) == Uses(k, bs[..i]) + CallIn(k)(bs[i])
    ensures Results(bs[..i + 1]) == Results(bs[..i]) + ResultIn(bs[i])
  {
    assert bs[..i + 1] == bs[..i] + [bs[i]];
    FlatMapSnoc(TextIn, bs[..i], bs[i]);
    FlatMapSnoc(ThoughtIn, bs[..i], bs[i]);
    FlatMapSnoc(CallIn(k), bs[..i], bs[i]);
    FlatMapSnoc(ResultIn, bs[..i], bs[i]);
  }

  method ConvertFromAnthropic(k: Codec, r: AnthropicRequest) returns (out: seq<Chat>)
    ensures out == FromAnthropic(k, r)
  {
    var thinking := FindThinking(r.messages);
    out := [];
    if r.system != "" { out := [System(Text(r.system))]; }
    ghost var head := out;
    for i := 0 to |r.messages|
      invariant out == head + FlatMap(ChatOf(k, thinking), r.messages[..i])
    {
      assert r.messages[..i + 1] == r.messages[..i] + [r.messages[i]];
      FlatMapSnoc(ChatOf(k, thinking), r.messages[..i], r.messages[i]);
      Associate(head, FlatMap(ChatOf(k, thinking), r.messages[..i]), ChatOfMessage(k, thinking, r.messages[i]));
      var one := ConvertMessage(k, thinking, r.messages[i]);
      out := out + one;
    }
    assert r.messages[..|r.messages|] == r.messages;
  }

  method ConvertMessage(k: Codec, thinking: bool, m: Message) returns (out: seq<Chat>)
    ensures out == ChatOfMessage(k, thinking, m)
  {
    match m.body {
      case Plain(s) =>
        if m.role.FromUser? {
          out := [User(Text(s))];
        } else {
          out := [Assistant(Text(s), Reasoned(thinking, ""), [])];
        }
      case Annotated(s, reasoning, calls) =>
        if m.role.FromUser? {
          out := [User(Text(s))];
        } else {
          out := [Assistant(Text(s), if reasoning.Some? then reasoning.value else Reasoned(thinking, ""), calls)];
        }
      case Blocks(bs) =>
        var texts, thoughts, calls, results := Collect(k, bs);
        if m.role.FromAssistant? {
          out := [Assistant(Text(Join(texts)), Reasoned(thinking, Join(thoughts)), calls)];
        } else if results != [] {
          out := results;
          if texts + thoughts != [] { out := out + [User(Text(Join(texts + thoughts)))]; }
        } else {
          out := [User(Text(Join(texts + thoughts)))];
        }
    }
  }

  // The scan for any reasoning in the conversation.
  method FindThinking(ms: seq<Message>) returns (found: bool)
    ensures found == ThinkingMode(ms)
  {
    found := false;
    for i := 0 to |ms|
      invariant !found && !ThinkingMode(ms[..i])
    {
      assert ms[..i + 1] == ms[..i] + [ms[i]];
      var here := FindReasoning(ms[i]);
      if here {
        assert ms[i] in ms;
        return true;
      }
    }
    assert ms[..|ms|] == ms;
  }

  method FindReasoning(m: Message) returns (found: bool)
    ensures found == CarriesReasoning(m)
  {
    if m.role.FromUser? { return false; }
    match m.body {
      case Plain(_) => found := false;
      case Annotated(_, reasoning, _) => found := reasoning.Some?;
      case Blocks(bs) =>
        var j := 0;
        while j < |bs| && !bs[j].Thinking?
          invariant 0 <= j <= |bs|
          invariant forall x :: x in bs[..j] ==> !x.Thinking?
        {
          assert bs[..j + 1] == bs[..j] + [bs[j]];
          j := j + 1;
        }
        if j == |bs| { assert bs[..j] == bs; }
        found := j < |bs|;
    }
  }

  method ConvertToResponses(mint: Mint, ms: seq<Chat>) returns (r: ResponsesRequest)
    ensures r == ToResponses(mint, ms)
  {
    var instructions: seq<string> := [];
    var items: seq<Item> := [];
    var filled := Fill(mint, ms);
    for i := 0 to |ms|
      invariant instructions == FlatMap(SystemText, ms[..i])
      invariant items == FlatMap(ItemsOf, filled[..i])
    {
      assert ms[..i + 1] == ms[..i] + [ms[i]] && filled[..i + 1] == filled[..i] + [filled[i]];
      FlatMapSnoc(SystemText, ms[..i], ms[i]);
      FlatMapSnoc(ItemsOf, filled[..i], filled[i]);
      if ms[i].System? {
        if ContentText(ms[i].content) != "" { instructions := instructions + [ContentText(ms[i].content)]; }
      }
      var one := ConvertToItems(filled[i]);
      items := items + one;
    }
    assert ms[..|ms|] == ms && filled[..|ms|] == filled;
    r := ResponsesRequest(Join(instructions), items);
  }

  // The branch for one message; a system message adds no item.
  method ConvertToItems(m: Chat) returns (items: seq<Item>)
    ensures items == ItemsOf(m)
  {
    items := [];
    if m.Tool? {
      items := [FunctionOutput(m.id, ContentText(m.content))];
    } else if m.Assistant? {
      if ContentText(m.content) != "" { items := [MessageItem(AsAssistant, [ContentText(m.content)])]; }
      ghost var spoken := items;
      for j := 0 to |m.calls|
        invariant items == spoken + FlatMap(CallItem, m.calls[..j])
      {
        assert m.calls[..j + 1] == m.calls[..j] + [m.calls[j]];
        FlatMapSnoc(CallItem, m.calls[..j], m.calls[j]);
        items := items + CallItem(m.calls[j]);
      }
      assert m.calls[..|m.calls|] == m.calls;
    } else if m.User? {
      items := [MessageItem(AsUser, [ContentText(m.content)])];
    }
  }

  method ConvertFromResponses(mint: Mint, r: ResponsesRequest) returns (out: seq<Chat>)
    ensures out == FromResponses(mint, r)
  {
    out := [];
    if r.instructions != "" { out := [System(Text(r.instructions))]; }
    ghost var head := out;
    var items := FillItems(mint, r.input);
    for i := 0 to |items|
      invariant out == head + FlatMap(ChatOfItem, items[..i])
    {
      assert items[..i + 1] == items[..i] + [items[i]];
      FlatMapSnoc(ChatOfItem, items[..i], items[i]);
      Associate(head, FlatMap(ChatOfItem, items[..i]), ChatOfItem(items[i]));
      out := out + ChatOfItem(items[i]);
    }
    assert items[..|items|] == items;
  }
}
