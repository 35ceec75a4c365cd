/**
 What the two translations tell an endpoint, read back from their output: every text, image, call
 and result of the history, in its order. The reference reads the history block by block.
 */
module TranslatorWords {
  import opened Wrappers
  import opened Seqs
  import opened Messages
  import opened Translators

  /** One thing an output tells: a call, an answer, or what somebody says and shows. */
  datatype Told =
    | Traced(trace: Trace)
    | Says(role: Role, text: string, images: seq<string>)

  // ------------------------------------------------------------------
  // The reference, over blocks
  // ------------------------------------------------------------------

  function TextIn(): Block -> seq<string> {
    (b: Block) => if b.Text? && b.text != "" then [b.text] else []
  }

  function ImageIn(env: Env): Block -> seq<string> {
    (b: Block) => if b.Image? then [env.imageUrl(b.blobId, b.mediaType).GetOr("")] else []
  }

  function CallIn(args: Obj -> string): Block -> seq<Told> {
    (b: Block) => if b.ToolUse? then [Traced(Called(b.useId, b.name, args(b.input)))] else []
  }

  function AnswerIn(env: Env): Block -> seq<Told> {
    (b: Block) =>
      if b.ToolResult? then [Traced(Answered(b.resId, if b.result.JStr? then b.result.s else env.resultText(b.result)))]
      else []
  }

  /** Each text followed by the separator, except the last. */
  function Glue(sep: string, texts: seq<string>): string {
    if texts == [] then ""
    else Glue(sep, texts[..|texts| - 1]) + (if |texts| == 1 then "" else sep) + texts[|texts| - 1]
  }

  /** What a message's texts and images say; nothing when it has neither. */
  function Saying(sep: string, role: Role, texts: seq<string>, images: seq<string>): seq<Told> {
    if texts == [] && images == [] then [] else [Says(role, Glue(sep, texts), images)]
  }

  /** In Chat a user message's answers come first and then what the user says; an assistant
      speaks and then calls. Nothing else goes out. */
  function ChatTells(env: Env): Message -> seq<Told> {
    (m: Message) =>
      var texts := FlatMap(TextIn(), m.content);
      match m.role
      case User => FlatMap(AnswerIn(env), m.content) + Saying("", User, texts, FlatMap(ImageIn(env), m.content))
      case Assistant => Saying("", Assistant, texts, []) + FlatMap(CallIn(env.chatArgs), m.content)
      case _ => []
  }

  /** Responses puts texts on lines of their own, encodes strictly, and passes on the text of
      messages with an unknown role as the user's. */
  function ItemsTell(env: Env): Message -> seq<Told> {
    (m: Message) =>
      var texts := FlatMap(TextIn(), m.content);
      match m.role
      case User => FlatMap(AnswerIn(env), m.content) + Saying("\n", User, texts, FlatMap(ImageIn(env), m.content))
      case Assistant =>
        Saying("\n", Assistant, texts, [])
        + FlatMap(CallIn((input: Obj) => env.responsesArgs(input).GetOr("{}")), m.content)
      case Tool => Saying("\n", User, texts, [])
      case System => []
  }

  // ------------------------------------------------------------------
  // Reading an output
  // ------------------------------------------------------------------

  function Tools(ts: seq<Trace>): seq<Told> {
    seq(|ts|, i requires 0 <= i < |ts| => Traced(ts[i]))
  }

  function Concat(parts: seq<string>): string {
    if parts == [] then "" else parts[0] + Concat(parts[1..])
  }

  function ReadChat(): ChatMessage -> seq<Told> {
    (c: ChatMessage) =>
      match c
      case ChatSystem(text) => [Says(System, text, [])]
      case ChatUser(text) => [Says(User, text, [])]
      case ChatUserParts(parts, images) => [Says(User, Concat(parts), images)]
      case ChatAssistant(content, calls) =>
        (if content.Some? then [Says(Assistant, content.value, [])] else []) + Tools(calls)
      case ChatTool(answer) => [Traced(answer)]
  }

  function ReadItem(): Item -> seq<Told> {
    (item: Item) =>
      match item
      case UserItem(body, images) => [Says(User, body.GetOr(""), images)]
      case AssistantItem(text) => [Says(Assistant, text, [])]
      case ToolItem(trace) => [Traced(trace)]
  }

  // ------------------------------------------------------------------
  // The parts
  // ------------------------------------------------------------------

  lemma {:induction false} TextsAre(bs: seq<Block>)
    ensures TextsOf(bs) == FlatMap(TextIn(), bs)
  {
    if bs != [] { TextsAre(bs[1..]); }
  }

  lemma {:induction false} ImagesAre(env: Env, bs: seq<Block>)
    ensures ImagesOf(env, bs) == FlatMap(ImageIn(env), bs)
  {
    if bs != [] { ImagesAre(env, bs[1..]); }
  }

  lemma ToolsConcat(a: seq<Trace>, b: seq<Trace>)
    ensures Tools(a + b) == Tools(a) + Tools(b)
  {
  }

  lemma {:induction false} CallsAre(args: Obj -> string, bs: seq<Block>)
    ensures Tools(Calls(args, bs)) == FlatMap(CallIn(args), bs)
  {
    if bs != [] {
      var first := if bs[0].ToolUse? then [Called(bs[0].useId, bs[0].name, args(bs[0].input))] else [];
      CallsAre(args, bs[1..]);
      ToolsConcat(first, Calls(args, bs[1..]));
    }
  }

  lemma {:induction false} AnswersAre(env: Env, bs: seq<Block>)
    ensures Tools(Answers(env, bs)) == FlatMap(AnswerIn(env), bs)
  {
    if bs != [] {
      var first := if bs[0].ToolResult? then [Answered(bs[0].resId, ResultContent(env, bs[0].result))] else [];
      AnswersAre(env, bs[1..]);
      ToolsConcat(first, Answers(env, bs[1..]));
    }
  }

  lemma StrictArgsAre(env: Env, bs: seq<Block>)
    ensures FlatMap(CallIn(StrictArgs(env)), bs)
         == FlatMap(CallIn((input: Obj) => env.responsesArgs(input).GetOr("{}")), bs)
  {
    SameMap(CallIn(StrictArgs(env)), CallIn((input: Obj) => env.responsesArgs(input).GetOr("{}")), bs);
  }

  lemma {:induction false} SameMap<A, B>(f: A -> seq<B>, g: A -> seq<B>, xs: seq<A>)
    requires forall x :: x in xs ==> f(x) == g(x)
    ensures FlatMap(f, xs) == FlatMap(g, xs)
  {
    if xs != [] { SameMap(f, g, xs[1..]); }
  }

  lemma {:induction false} JoinIsGlue(sep: string, parts: seq<string>)
    ensures Join(sep, parts) == Glue(sep, parts)
  {
    if |parts| > 1 {
      JoinIsGlue(sep, parts[1..]);
      GlueFront(sep, parts);
    } else if |parts| == 1 {
      assert Glue(sep, parts[..0]) == "" && parts[..0] == [];
    }
  }

  lemma {:induction false} GlueFront(sep: string, parts: seq<string>)
    requires |parts| > 1
    ensures Glue(sep, parts) == parts[0] + sep + Glue(sep, parts[1..])
  {
    var init, rest := parts[..|parts| - 1], parts[1..];
    assert rest[..|rest| - 1] == init[1..] && rest[|rest| - 1] == parts[|parts| - 1];
    if |parts| == 2 {
      assert init == [parts[0]] && init[..0] == [] && rest[..0] == [];
      assert Glue(sep, init) == parts[0];
      assert Glue(sep, rest) == rest[0];
    } else {
      GlueFront(sep, init);
      assert Glue(sep, rest) == Glue(sep, init[1..]) + sep + parts[|parts| - 1];
    }
  }

  // ------------------------------------------------------------------
  // One message
  // ------------------------------------------------------------------

  lemma {:induction false} ReadTools(ts: seq<Trace>)
    ensures FlatMap(ReadChat(), ToolMessages(ts)) == Tools(ts) && FlatMap(ReadItem(), ToolItems(ts)) == Tools(ts)
  {
    if ts != [] {
      assert ToolMessages(ts)[1..] == ToolMessages(ts[1..]) && ToolItems(ts)[1..] == ToolItems(ts[1..]);
      ReadTools(ts[1..]);
      assert Tools(ts) == [Traced(ts[0])] + Tools(ts[1..]);
    }
  }

  lemma ChatUserTells(env: Env, bs: seq<Block>)
    ensures FlatMap(ReadChat(), ChatUserMessage(env, bs))
         == Saying("", User, FlatMap(TextIn(), bs), FlatMap(ImageIn(env), bs))
  {
    TextsAre(bs);
    ImagesAre(env, bs);
    hide TextsOf, ImagesOf, Join, Glue;
    var texts := TextsOf(bs);
    JoinIsGlue("", texts);
    NothingGlued("");
    if ChatUserMessage(env, bs) != [] {
      var one := ChatUserMessage(env, bs)[0];
      assert ChatUserMessage(env, bs) == [one];
      FlatMapOne(ReadChat(), one);
      if one.ChatUserParts? && texts != [] { OnePart(Join("", texts)); }
    }
  }

  lemma NothingGlued(sep: string)
    ensures Glue(sep, []) == ""
  {
  }

  lemma OnePart(s: string)
    ensures Concat([s]) == s
  {
    assert Concat([s]) == s + Concat([]);
  }

  lemma ChatAssistantTells(env: Env, bs: seq<Block>)
    ensures FlatMap(ReadChat(), ChatAssistantMessage(env, bs))
         == Saying("", Assistant, FlatMap(TextIn(), bs), []) + FlatMap(CallIn(env.chatArgs), bs)
  {
    TextsAre(bs);
    CallsAre(env.chatArgs, bs);
    hide TextsOf, Calls, Join, Glue;
    JoinIsGlue("", TextsOf(bs));
    if ChatAssistantMessage(env, bs) != [] {
      var one := ChatAssistantMessage(env, bs)[0];
      assert ChatAssistantMessage(env, bs) == [one];
      FlatMapOne(ReadChat(), one);
    }
  }

  lemma ChatOneTells(env: Env, m: Message)
    ensures FlatMap(ReadChat(), ChatOne(env, m)) == ChatTells(env)(m)
  {
    match m.role
    case User =>
      ReadTools(Answers(env, m.content));
      AnswersAre(env, m.content);
      ChatUserTells(env, m.content);
      FlatMapConcat(ReadChat(), ToolMessages(Answers(env, m.content)), ChatUserMessage(env, m.content));
    case Assistant => ChatAssistantTells(env, m.content);
    case _ =>
  }

  lemma UserItemsTell(texts: seq<string>, images: seq<string>)
    ensures FlatMap(ReadItem(), UserItems(texts, images)) == Saying("\n", User, texts, images)
  {
    hide Join, Glue;
    JoinIsGlue("\n", texts);
    NothingGlued("\n");
    if UserItems(texts, images) != [] {
      FlatMapOne(ReadItem(), UserItems(texts, images)[0]);
      assert UserItems(texts, images) == [UserItems(texts, images)[0]];
    }
  }

  lemma AssistantItemsTell(texts: seq<string>)
    ensures FlatMap(ReadItem(), if texts == [] then [] else [AssistantItem(Join("\n", texts))])
         == Saying("\n", Assistant, texts, [])
  {
    hide Join, Glue;
    JoinIsGlue("\n", texts);
    FlatMapOne(ReadItem(), AssistantItem(Join("\n", texts)));
  }

  lemma ItemsOneTells(env: Env, m: Message)
    ensures FlatMap(ReadItem(), ItemsOne(env, m)) == ItemsTell(env)(m)
  {
    hide FlatMap, TextsOf, ImagesOf, Calls, Answers, Join, Saying, ToolItems, UserItems, Tools, StrictArgs;
    var texts := TextsOf(m.content);
    TextsAre(m.content);
    match m.role
    case User =>
      ImagesAre(env, m.content);
      AnswersAre(env, m.content);
      ReadTools(Answers(env, m.content));
      UserItemsTell(texts, ImagesOf(env, m.content));
      FlatMapConcat(ReadItem(), ToolItems(Answers(env, m.content)), UserItems(texts, ImagesOf(env, m.content)));
    case Assistant =>
      CallsAre(StrictArgs(env), m.content);
      StrictArgsAre(env, m.content);
      ReadTools(Calls(StrictArgs(env), m.content));
      AssistantItemsTell(texts);
      FlatMapConcat(ReadItem(), if texts == [] then [] else [AssistantItem(Join("\n", texts))],
                    ToolItems(Calls(StrictArgs(env), m.content)));
    case Tool => UserItemsTell(texts, []);
    case System => NothingRead();
  }

  lemma NothingRead()
    ensures FlatMap(ReadItem(), []) == []
  {
  }

  // ------------------------------------------------------------------
  // Main results
  // ------------------------------------------------------------------

  lemma {:induction false} ChatAllTells(env: Env, h: seq<Message>)
    ensures FlatMap(ReadChat(), ChatAll(env, h)) == FlatMap(ChatTells(env), h)
  {
    if h != [] {
      ChatOneTells(env, h[0]);
      ChatAllTells(env, h[1..]);
      hide ChatOne, ChatTells, ReadChat;
      FlatMapConcat(ReadChat(), ChatOne(env, h[0]), ChatAll(env, h[1..]));
    }
  }

  lemma {:induction false} ItemsAllTell(env: Env, h: seq<Message>)
    ensures FlatMap(ReadItem(), ItemsAll(env, h)) == FlatMap(ItemsTell(env), h)
  {
    if h != [] {
      ItemsOneTells(env, h[0]);
      ItemsAllTell(env, h[1..]);
      hide ItemsOne, ItemsTell, ReadItem;
      FlatMapConcat(ReadItem(), ItemsOne(env, h[0]), ItemsAll(env, h[1..]));
    }
  }

  /** Read back, the Chat output is the system text, when there is one, and then message by
      message all that the history says, shows, calls and answers. */
  lemma ChatTellsHistory(env: Env, h: seq<Message>, system: string)
    ensures var r := Chat(env, h, system);
            r.Success? ==>
              FlatMap(ReadChat(), r.value)
              == (if system == "" then [] else [Says(System, system, [])]) + FlatMap(ChatTells(env), h)
  {
    ChatAllTells(env, h);
    hide FlatMap, ChatAll, ChatTells;
    if system != "" {
      FlatMapOne(ReadChat(), ChatSystem(system));
      FlatMapConcat(ReadChat(), [ChatSystem(system)], ChatAll(env, h));
    } else {
      assert [] + ChatAll(env, h) == ChatAll(env, h);
      assert [] + FlatMap(ChatTells(env), h) == FlatMap(ChatTells(env), h);
    }
  }

  /** The same of the Responses output, whose system text travels beside it. */
  lemma ResponsesTellHistory(env: Env, h: seq<Message>)
    ensures var r := Responses(env, h);
            r.Success? ==> FlatMap(ReadItem(), r.value) == FlatMap(ItemsTell(env), h)
  {
    ItemsAllTell(env, h);
  }
}
