/**
 The two translations of a history for OpenAI endpoints: Chat Completions
 (`_lyre_to_openai_messages` in src/lyre/adapter/openai.py) and Responses
 (`_lyre_to_responses_input` in src/lyre/adapter/openai_responses.py).
 */
module Translators {
  import opened Wrappers
  import opened Seqs
  import opened Messages

  /** What the translators call: JSON encoding and the blob store. */
  datatype Env = Env(
    chatArgs: Obj -> string,               // json.dumps of a call's input
    responsesArgs: Obj -> Option<string>,  // the stricter one; None when it raises
    resultText: Json -> string,            // a result that is not a string
    hasBlobStore: bool,
    imageUrl: (string, string) -> Option<string>)  // data URL of a stored blob; None when reading it raises

  datatype Error = BadImage | UnreadableBlob | DocumentBlock

  // ------------------------------------------------------------------
  // Parts shared by both
  // ------------------------------------------------------------------

  function TextsOf(bs: seq<Block>): seq<string> {
    if bs == [] then []
    else (if bs[0].Text? && bs[0].text != "" then [bs[0].text] else []) + TextsOf(bs[1..])
  }

  function ImagesOf(env: Env, bs: seq<Block>): seq<string> {
    if bs == [] then []
    else (if bs[0].Image? then [env.imageUrl(bs[0].blobId, bs[0].mediaType).GetOr("")] else []) + ImagesOf(env, bs[1..])
  }

  /** The error that a block of a user message raises, if any. */
  function BlockError(env: Env, b: Block): Option<Error> {
    match b
    case Document(_, _) => Some(DocumentBlock)
    case Image(blobId, mediaType) =>
      if !env.hasBlobStore || blobId == "" || mediaType == "" then Some(BadImage)
      else if env.imageUrl(blobId, mediaType).None? then Some(UnreadableBlob)
      else None
    case _ => None
  }

  function FirstError(env: Env, bs: seq<Block>): Option<Error> {
    if bs == [] then None
    else if BlockError(env, bs[0]).Some? then BlockError(env, bs[0])
    else FirstError(env, bs[1..])
  }

  function ResultContent(env: Env, r: Json): string {
    if r.JStr? then r.s else env.resultText(r)
  }

  function Join(sep: string, parts: seq<string>): string {
    if parts == [] then ""
    else if |parts| == 1 then parts[0]
    else parts[0] + sep + Join(sep, parts[1..])
  }

  /** A call or its answer, as either output spells it. */
  datatype Trace = Called(id: string, name: string, arguments: string) | Answered(id: string, content: string)

  function Calls(args: Obj -> string, bs: seq<Block>): seq<Trace> {
    if bs == [] then []
    else (if bs[0].ToolUse? then [Called(bs[0].useId, bs[0].name, args(bs[0].input))] else []) + Calls(args, bs[1..])
  }

  function Answers(env: Env, bs: seq<Block>): seq<Trace> {
    if bs == [] then []
    else (if bs[0].ToolResult? then [Answered(bs[0].resId, ResultContent(env, bs[0].result))] else []) + Answers(env, bs[1..])
  }

  /** Every call and every answer of a history, in order: the reference for both outputs. */
  function HistoryTrace(env: Env, args: Obj -> string, h: seq<Message>): seq<Trace> {
    if h == [] then [] else Calls(args, h[0].content) + Answers(env, h[0].content) + HistoryTrace(env, args, h[1..])
  }

  function Ids(ts: seq<Trace>): seq<string> {
    seq(|ts|, i requires 0 <= i < |ts| => ts[i].id)
  }

  predicate AllCalls(ts: seq<Trace>) {
    forall t <- ts :: t.Called?
  }

  predicate AllAnswers(ts: seq<Trace>) {
    forall t <- ts :: t.Answered?
  }

  // ------------------------------------------------------------------
  // Chat Completions
  // ------------------------------------------------------------------

  datatype ChatMessage =
    | ChatSystem(text: string)
    | ChatUser(text: string)
    | ChatUserParts(parts: seq<string>, images: seq<string>)  // list form, when there are images
    | ChatAssistant(content: Option<string>, calls: seq<Trace>)
    | ChatTool(answer: Trace)

  function ToolMessages(answers: seq<Trace>): seq<ChatMessage> {
    seq(|answers|, i requires 0 <= i < |answers| => ChatTool(answers[i]))
  }

  function ChatUserMessage(env: Env, bs: seq<Block>): seq<ChatMessage> {
    var texts := TextsOf(bs);
    var images := ImagesOf(env, bs);
    if images != [] then [ChatUserParts(if texts == [] then [] else [Join("", texts)], images)]
    else if texts != [] then [ChatUser(Join("", texts))]
    else []
  }

  function ChatAssistantMessage(env: Env, bs: seq<Block>): seq<ChatMessage> {
    var texts := TextsOf(bs);
    var calls := Calls(env.chatArgs, bs);
    if texts == [] && calls == [] then []
    else [ChatAssistant(if texts == [] then None else Some(Join("", texts)), calls)]
  }

  function ChatOne(env: Env, m: Message): seq<ChatMessage> {
    match m.role
    case User => ToolMessages(Answers(env, m.content)) + ChatUserMessage(env, m.content)
    case Assistant => ChatAssistantMessage(env, m.content)
    case _ => []
  }

  function ChatAll(env: Env, h: seq<Message>): seq<ChatMessage> {
    if h == [] then [] else ChatOne(env, h[0]) + ChatAll(env, h[1..])
  }

  /** The first error met, reading user messages in order. */
  function Fault(env: Env, h: seq<Message>): Option<Error> {
    if h == [] then None
    else if h[0].role.User? && FirstError(env, h[0].content).Some? then FirstError(env, h[0].content)
    else Fault(env, h[1..])
  }

  function Chat(env: Env, h: seq<Message>, system: string): Result<seq<ChatMessage>, Error> {
    var f := Fault(env, h);
    if f.Some? then Failure(f.value)
    else Success((if system != "" then [ChatSystem(system)] else []) + ChatAll(env, h))
  }

  // ------------------------------------------------------------------
  // Responses
  // ------------------------------------------------------------------

  datatype Item =
    | UserItem(body: Option<string>, images: seq<string>)
    | AssistantItem(text: string)
    | ToolItem(trace: Trace)   // function_call or function_call_output

  function StrictArgs(env: Env): Obj -> string {
    input => env.responsesArgs(input).GetOr("{}")
  }

  function ToolItems(ts: seq<Trace>): seq<Item> {
    seq(|ts|, i requires 0 <= i < |ts| => ToolItem(ts[i]))
  }

  function UserItems(texts: seq<string>, images: seq<string>): seq<Item> {
    if texts == [] && images == [] then []
    else [UserItem(if texts == [] then None else Some(Join("\n", texts)), images)]
  }

  function ItemsOne(env: Env, m: Message): seq<Item> {
    var texts := TextsOf(m.content);
    match m.role
    case System => []
    case User => ToolItems(Answers(env, m.content)) + UserItems(texts, ImagesOf(env, m.content))
    case Assistant =>
      (if texts == [] then [] else [AssistantItem(Join("\n", texts))]) + ToolItems(Calls(StrictArgs(env), m.content))
    case Tool => UserItems(texts, [])
  }

  function ItemsAll(env: Env, h: seq<Message>): seq<Item> {
    if h == [] then [] else ItemsOne(env, h[0]) + ItemsAll(env, h[1..])
  }

  function Responses(env: Env, h: seq<Message>): Result<seq<Item>, Error> {
    var f := Fault(env, h);
    if f.Some? then Failure(f.value) else Success(ItemsAll(env, h))
  }

  // ------------------------------------------------------------------
  // Reading the outputs back
  // ------------------------------------------------------------------

  function ChatTrace(out: seq<ChatMessage>): seq<Trace> {
    if out == [] then []
    else (match out[0]
          case ChatAssistant(_, calls) => calls
          case ChatTool(answer) => [answer]
          case _ => []) + ChatTrace(out[1..])
  }

  function ItemTrace(out: seq<Item>): seq<Trace> {
    if out == [] then [] else (if out[0].ToolItem? then [out[0].trace] else []) + ItemTrace(out[1..])
  }

  /** The answers that the tool messages at the front carry. */
  function LeadingTools(out: seq<ChatMessage>): (ts: seq<Trace>)
    ensures |ts| <= |out|
  {
    if out == [] || !out[0].ChatTool? then [] else [out[0].answer] + LeadingTools(out[1..])
  }

  /** An endpoint's rule: an assistant's calls are answered directly after it, one tool
      message per call in the order of the calls, and no tool message stands elsewhere. */
  ghost predicate ChatPaired(out: seq<ChatMessage>)
    decreases |out|
  {
    out != [] ==>
      match out[0]
      case ChatTool(_) => false
      case ChatAssistant(_, calls) =>
        var answers := LeadingTools(out[1..]);
        Ids(answers) == Ids(calls) && AllAnswers(answers) && AllCalls(calls) && ChatPaired(out[1 + |answers|..])
      case _ => ChatPaired(out[1..])
  }

  function LeadingCalls(out: seq<Item>): (ts: seq<Trace>)
    ensures |ts| <= |out|
    ensures out != [] && out[0].ToolItem? && out[0].trace.Called? ==> |ts| > 0
  {
    if out == [] || !out[0].ToolItem? || !out[0].trace.Called? then [] else [out[0].trace] + LeadingCalls(out[1..])
  }

  function LeadingOutputs(out: seq<Item>): (ts: seq<Trace>)
    ensures |ts| <= |out|
  {
    if out == [] || !out[0].ToolItem? || !out[0].trace.Answered? then [] else [out[0].trace] + LeadingOutputs(out[1..])
  }

  /** The same rule for Responses items: a run of calls is followed directly by their outputs. */
  ghost predicate ItemsPaired(out: seq<Item>)
    decreases |out|
  {
    out != [] ==>
      if !out[0].ToolItem? then ItemsPaired(out[1..])
      else if out[0].trace.Answered? then false
      else
        var calls := LeadingCalls(out);
        var outputs := LeadingOutputs(out[|calls|..]);
        Ids(outputs) == Ids(calls) && ItemsPaired(out[|calls| + |outputs|..])
  }
}
