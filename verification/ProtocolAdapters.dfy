/** The three conversation formats, the request converters between them, and
    what a conversation says independently of its format. */
module ProtocolAdapters {
  import opened Options
  import J = Json
  import JsonText
  import opened Sequences

  // JSON text is abstract: a printer and a partial parser of values.
  datatype Codec = Codec(loads: string -> Option<J.Json>, dumps: J.Json -> string)

  ghost predicate CodecOk(k: Codec) {
    forall v :: k.loads(k.dumps(v)) == Some(v) && k.dumps(v) != ""
  }

  /** There is such a codec: JSON values have texts that read back. */
  lemma CodecExists() returns (k: Codec)
    ensures CodecOk(k)
  {
    k := Codec((s: string) => JsonText.Read(s), (v: J.Json) => JsonText.Printed(v));
    forall v ensures k.loads(k.dumps(v)) == Some(v) && k.dumps(v) != "" { JsonText.ReadPrinted(v); }
  }

  // ------------------------------------------------------------ chat messages

  datatype Content = NoContent | Text(s: string) | Parts(parts: seq<Part>)

  datatype Part = Bare(s: string) | TextPart(s: string) | Nested(inner: Content) | Opaque

  datatype Call = Call(id: string, name: string, args: Option<string>)

  datatype Chat =
    | System(content: Content)
    | User(content: Content)
    | Assistant(content: Content, reasoning: string, calls: seq<Call>)
    | Tool(id: string, content: Content)
    | Ignored

  // "\n".join.
  function Join(ts: seq<string>): string {
    if ts == [] then ""
    else if |ts| == 1 then ts[0]
    else Join(ts[..|ts| - 1]) + "\n" + ts[|ts| - 1]
  }

  // A text worth keeping.
  function Kept(s: string): seq<string> { if s != "" then [s] else [] }

  function NonEmpty(ts: seq<string>): seq<string> {
    FlatMap(Kept, ts)
  }

  /** `_chat_content_to_text`. */
  function ContentText(c: Content): string
    decreases c, 1
  {
    match c
    case NoContent => ""
    case Text(s) => s
    case Parts(parts) => Join(NonEmpty(PartTexts(parts)))
  }

  function PartTexts(parts: seq<Part>): seq<string>
    decreases parts, 0
  {
    if parts == [] then [] else PartText(parts[0]) + PartTexts(parts[1..])
  }

  function PartText(p: Part): seq<string>
    decreases p, 2
  {
    match p
    case Bare(s) => [s]
    case TextPart(s) => [s]
    case Nested(inner) => [ContentText(inner)]
    case Opaque => []
  }

  // The value of a call's argument text: blank reads as {}, and so does garbage.
  function ArgValue(k: Codec, args: Option<string>): J.Json {
    var parsed := k.loads(if args.None? || args.value == "" then "{}" else args.value);
    if parsed.Some? then parsed.value else J.Obj(map[])
  }

  // Calls without an id are given a new one as they are converted.
  type Mint = (nat, nat) -> string

  ghost predicate MintOk(mint: Mint) {
    forall i, j :: mint(i, j) != ""
  }

  function FillCalls(mint: Mint, i: nat, calls: seq<Call>): seq<Call> {
    seq(|calls|, j requires 0 <= j < |calls| => if calls[j].id != "" then calls[j] else calls[j].(id := mint(i, j)))
  }

  function FillMessage(mint: Mint, i: nat, m: Chat): Chat {
    if m.Assistant? then m.(calls := FillCalls(mint, i, m.calls)) else m
  }

  function Fill(mint: Mint, ms: seq<Chat>): (r: seq<Chat>)
    ensures |r| == |ms|
  {
    seq(|ms|, i requires 0 <= i < |ms| => FillMessage(mint, i, ms[i]))
  }

  // ------------------------------------------------- what a conversation says

  datatype Event =
    | UserText(s: string)
    | AssistantText(s: string)
    | Reasoning(s: string)
    | ToolCall(id: string, name: string, value: J.Json)
    | ToolResult(id: string, s: string)

  function UserSays(s: string): seq<Event> { if s != "" then [UserText(s)] else [] }

  function AssistantSays(s: string): seq<Event> { if s != "" then [AssistantText(s)] else [] }

  function Thinks(s: string): seq<Event> { if s != "" then [Reasoning(s)] else [] }

  function CallSays(k: Codec): Call -> seq<Event> {
    (c: Call) => [ToolCall(c.id, c.name, ArgValue(k, c.args))]
  }

  function CallsSay(k: Codec, calls: seq<Call>): seq<Event> {
    FlatMap(CallSays(k), calls)
  }

  function MessageSays(k: Codec, m: Chat): seq<Event> {
    match m
    case System(_) => []
    case User(c) => UserSays(ContentText(c))
    case Assistant(c, r, calls) => Thinks(r) + AssistantSays(ContentText(c)) + CallsSay(k, calls)
    case Tool(id, c) => [ToolResult(id, ContentText(c))]
    case Ignored => []
  }

  function ChatSays(k: Codec): Chat -> seq<Event> {
    (m: Chat) => MessageSays(k, m)
  }

  /** Everything but the system prompt that a chat conversation says, in order. */
  function Says(k: Codec, ms: seq<Chat>): seq<Event> {
    FlatMap(ChatSays(k), ms)
  }

  function SystemText(m: Chat): seq<string> {
    if m.System? then Kept(ContentText(m.content)) else []
  }

  // The system prompt of a conversation.
  function SystemPrompt(ms: seq<Chat>): string {
    Join(FlatMap(SystemText, ms))
  }

  // ------------------------------------------------------- Anthropic messages

  datatype Block =
    | Thinking(s: string)
    | TextBlock(s: string)
    | ToolUse(id: string, name: string, input: J.Json)
    | ResultBlock(id: string, s: string, isError: bool)

  datatype Role = FromUser | FromAssistant

  // Annotated: text with the Chat attributes beside it.
  datatype Body =
    | Plain(s: string)
    | Blocks(blocks: seq<Block>)
    | Annotated(s: string, reasoning: Option<string>, calls: seq<Call>)

  datatype Message = Message(role: Role, body: Body)

  function ResultText(s: string, isError: bool): string {
    if isError then "[ERROR] " + s else s
  }

  function SpeechOf(role: Role, s: string): seq<Event> {
    if role.FromUser? then UserSays(s) else AssistantSays(s)
  }

  function BlockSays(role: Role): Block -> seq<Event> {
    (b: Block) => match b
         case Thinking(s) => Thinks(s)
         case TextBlock(s) => SpeechOf(role, s)
         case ToolUse(id, name, input) => [ToolCall(id, name, input)]
         case ResultBlock(id, s, isError) => [ToolResult(id, ResultText(s, isError))]
  }

  function BlocksSay(role: Role, bs: seq<Block>): seq<Event> {
    FlatMap(BlockSays(role), bs)
  }

  // The attributes count on an assistant turn only.
  function TurnSays(k: Codec, m: Message): seq<Event> {
    match m.body
    case Plain(s) => SpeechOf(m.role, s)
    case Blocks(bs) => BlocksSay(m.role, bs)
    case Annotated(s, reasoning, calls) =>
      if m.role.FromUser? then UserSays(s)
      else Thinks(if reasoning.Some? then reasoning.value else "") + AssistantSays(s) + CallsSay(k, calls)
  }

  function BodySays(k: Codec): Message -> seq<Event> {
    (m: Message) => TurnSays(k, m)
  }

  function AnthropicSays(k: Codec, ms: seq<Message>): seq<Event> {
    FlatMap(BodySays(k), ms)
  }

  // ------------------------------------------------------- Chat to Anthropic

  predicate AllToolUse(bs: seq<Block>) {
    forall b :: b in bs ==> b.ToolUse?
  }

  predicate AllResults(bs: seq<Block>) {
    forall b :: b in bs ==> b.ResultBlock?
  }

  function CallBlocks(k: Codec, calls: seq<Call>): (r: seq<Block>)
    ensures AllToolUse(r)
  {
    seq(|calls|, j requires 0 <= j < |calls| => ToolUse(calls[j].id, calls[j].name, ArgValue(k, calls[j].args)))
  }

  function Prefix(r: string, t: string): seq<Block> {
    (if r != "" then [Thinking(r)] else []) + (if t != "" then [TextBlock(t)] else [])
  }

  // Reasoning first, then text, then tool calls.
  function Ordered(r: string, t: string, uses: seq<Block>): seq<Block> {
    Prefix(r, t) + uses
  }

  predicate EndsIn(ms: seq<Message>, role: Role) {
    ms != [] && ms[|ms| - 1].role == role && ms[|ms| - 1].body.Blocks?
  }

  // Extend the last message's block list in place.
  function Extend(ms: seq<Message>, bs: seq<Block>): seq<Message>
    requires ms != [] && ms[|ms| - 1].body.Blocks?
  {
    var last := ms[|ms| - 1];
    ms[..|ms| - 1] + [last.(body := Blocks(last.body.blocks + bs))]
  }

  function AssistantMessage(bs: seq<Block>): Message {
    Message(FromAssistant, if bs == [] then Plain("") else Blocks(bs))
  }

  /** `_append_anthropic_assistant_message`: a turn of nothing but tool calls
      joins the assistant turn before it. */
  function AppendAssistant(ms: seq<Message>, bs: seq<Block>): seq<Message> {
    if EndsIn(ms, FromAssistant) && bs != [] && AllToolUse(bs) then Extend(ms, bs)
    else ms + [AssistantMessage(bs)]
  }

  // Consecutive tool results share one user message.
  function AppendResult(ms: seq<Message>, b: Block): seq<Message> {
    if EndsIn(ms, FromUser) && AllResults(ms[|ms| - 1].body.blocks) then Extend(ms, [b])
    else ms + [Message(FromUser, Blocks([b]))]
  }

  function AnthropicStep(k: Codec, ms: seq<Message>, m: Chat): seq<Message> {
    match m
    case System(_) => ms
    case User(c) => ms + [Message(FromUser, Plain(ContentText(c)))]
    case Assistant(c, r, calls) => AppendAssistant(ms, Ordered(r, ContentText(c), CallBlocks(k, calls)))
    case Tool(id, c) => AppendResult(ms, ResultBlock(id, ContentText(c), false))
    case Ignored => ms
  }

  function AnthropicMessages(k: Codec, ms: seq<Chat>): seq<Message> {
    if ms == [] then [] else AnthropicStep(k, AnthropicMessages(k, ms[..|ms| - 1]), ms[|ms| - 1])
  }

  datatype AnthropicRequest = AnthropicRequest(system: string, messages: seq<Message>)

  /** `openai_chat_request_to_anthropic_request`, on the conversation. */
  function ToAnthropic(k: Codec, mint: Mint, ms: seq<Chat>): AnthropicRequest {
    AnthropicRequest(SystemPrompt(ms), AnthropicMessages(k, Fill(mint, ms)))
  }

  // ------------------------------------------------------- Anthropic to Chat

  function TextIn(b: Block): seq<string> { if b.TextBlock? then [b.s] else [] }

  function ThoughtIn(b: Block): seq<string> { if b.Thinking? then [b.s] else [] }

  function CallIn(k: Codec): Block -> seq<Call> {
    (b: Block) => if b.ToolUse? then [Call(b.id, b.name, Some(k.dumps(b.input)))] else []
  }

  function ResultIn(b: Block): seq<Chat> {
    if b.ResultBlock? then [Tool(b.id, Text(ResultText(b.s, b.isError)))] else []
  }

  function Texts(bs: seq<Block>): seq<string> { FlatMap(TextIn, bs) }

  function Thoughts(bs: seq<Block>): seq<string> { FlatMap(ThoughtIn, bs) }

  function Uses(k: Codec, bs: seq<Block>): seq<Call> { FlatMap(CallIn(k), bs) }

  function Results(bs: seq<Block>): seq<Chat> { FlatMap(ResultIn, bs) }

  predicate CarriesReasoning(m: Message) {
    m.role.FromAssistant? &&
    match m.body
    case Plain(_) => false
    case Blocks(bs) => exists b :: b in bs && b.Thinking?
    case Annotated(_, reasoning, _) => reasoning.Some?
  }

  // Some assistant turn carries reasoning.
  predicate ThinkingMode(ms: seq<Message>) {
    exists m :: m in ms && CarriesReasoning(m)
  }

  // In thinking mode a turn without reasoning is given the placeholder.
  function Reasoned(thinking: bool, r: string): string {
    if r == "" && thinking then "." else r
  }

  function ChatOfMessage(k: Codec, thinking: bool, m: Message): seq<Chat> {
    match m.body
    case Plain(s) =>
      if m.role.FromUser? then [User(Text(s))] else [Assistant(Text(s), Reasoned(thinking, ""), [])]
    case Annotated(s, reasoning, calls) =>
      if m.role.FromUser? then [User(Text(s))]
      else [Assistant(Text(s), if reasoning.Some? then reasoning.value else Reasoned(thinking, ""), calls)]
    case Blocks(bs) =>
      if m.role.FromAssistant? then
        [Assistant(Text(Join(Texts(bs))), Reasoned(thinking, Join(Thoughts(bs))), Uses(k, bs))]
      else if Results(bs) != [] then
        Results(bs) + (if Texts(bs) + Thoughts(bs) != [] then [User(Text(Join(Texts(bs) + Thoughts(bs))))] else [])
      else [User(Text(Join(Texts(bs) + Thoughts(bs))))]
  }

  function ChatOf(k: Codec, thinking: bool): Message -> seq<Chat> {
    (m: Message) => ChatOfMessage(k, thinking, m)
  }

  function SystemMessage(s: string): seq<Chat> {
    if s != "" then [System(Text(s))] else []
  }

  /** `to_openai_request`, on the conversation. */
  function FromAnthropic(k: Codec, r: AnthropicRequest): seq<Chat> {
    SystemMessage(r.system) + FlatMap(ChatOf(k, ThinkingMode(r.messages)), r.messages)
  }

  // ------------------------------------------------------- Responses requests

  datatype ResponsesRole = AsUser | AsAssistant | AsSystem

  // A call's id is its call_id, or else its id; a request whose input is a
  // string has one Words item.
  datatype Item =
    | Words(s: string)
    | MessageItem(role: ResponsesRole, parts: seq<string>)
    | FunctionCall(callId: string, name: string, arguments: string)
    | FunctionOutput(callId: string, output: string)
    | ReasoningItem(s: string)

  datatype ResponsesRequest = ResponsesRequest(instructions: string, input: seq<Item>)

  /** What an item says, whatever becomes of it; a system item joins the prompt. */
  function ItemSays(k: Codec): Item -> seq<Event> {
    (item: Item) => match item
         case Words(s) => UserSays(s)
         case MessageItem(role, parts) =>
           var text := Join(NonEmpty(parts));
           if role.AsSystem? then [] else SpeechOf(if role.AsUser? then FromUser else FromAssistant, text)
         case FunctionCall(id, name, arguments) => [ToolCall(id, name, ArgValue(k, Some(arguments)))]
         case FunctionOutput(id, output) => [ToolResult(id, output)]
         case ReasoningItem(s) => Thinks(s)
  }

  function ItemsSay(k: Codec, items: seq<Item>): seq<Event> {
    FlatMap(ItemSays(k), items)
  }

  // What an item adds to the system prompt.
  function ItemPrompt(item: Item): seq<string> {
    if item.MessageItem? && item.role.AsSystem? then Kept(Join(NonEmpty(item.parts))) else []
  }

  function CallItem(c: Call): seq<Item> {
    [FunctionCall(c.id, c.name, if c.args.Some? then c.args.value else "{}")]
  }

  function ItemsOf(m: Chat): seq<Item> {
    match m
    case System(_) => []
    case User(c) => [MessageItem(AsUser, [ContentText(c)])]
    case Assistant(c, _, calls) =>
      (if ContentText(c) != "" then [MessageItem(AsAssistant, [ContentText(c)])] else []) + FlatMap(CallItem, calls)
    case Tool(id, c) => [FunctionOutput(id, ContentText(c))]
    case Ignored => []
  }

  /** `openai_chat_request_to_responses_request`, on the conversation. */
  function ToResponses(mint: Mint, ms: seq<Chat>): ResponsesRequest {
    ResponsesRequest(SystemPrompt(ms), FlatMap(ItemsOf, Fill(mint, ms)))
  }

  function FillItem(mint: Mint, i: nat, item: Item): Item {
    if item.FunctionCall? && item.callId == "" then FunctionCall(mint(i, 0), item.name, item.arguments) else item
  }

  function FillItems(mint: Mint, items: seq<Item>): seq<Item> {
    seq(|items|, i requires 0 <= i < |items| => FillItem(mint, i, items[i]))
  }

  /** `_responses_input_item_to_chat_messages`, on an item with its id. */
  function ChatOfItem(item: Item): seq<Chat> {
    match item
    case Words(s) => [User(Text(s))]
    case ReasoningItem(s) => if s != "" then [Assistant(Text(""), s, [])] else []
    case FunctionOutput(id, output) => [Tool(id, Text(output))]
    case FunctionCall(id, name, arguments) => [Assistant(Text(""), "", [Call(id, name, Some(arguments))])]
    case MessageItem(role, parts) =>
      var text := Join(NonEmpty(parts));
      match role
      case AsAssistant => [Assistant(Text(text), "", [])]
      case AsUser => if text != "" then [User(Text(text))] else []
      case AsSystem => SystemMessage(text)
  }

  /** `responses_to_openai_request`, on the conversation. */
  function FromResponses(mint: Mint, r: ResponsesRequest): seq<Chat> {
    SystemMessage(r.instructions) + FlatMap(ChatOfItem, FillItems(mint, r.input))
  }
}
