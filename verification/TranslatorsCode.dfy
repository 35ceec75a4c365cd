/** The translators' loops (src/lyre/adapter/openai.py and src/lyre/adapter/openai_responses.py):
    each message's blocks are sorted into growing lists, which are then put out in order. */
module TranslatorsCode {
  import opened Wrappers
  import opened Messages
  import opened Translators

  /** One user message: results at once, text and images for the message that follows them. */
  method SortUserBlocks(env: Env, content: seq<Block>)
    returns (error: Option<Error>, answers: seq<Trace>, texts: seq<string>, images: seq<string>)
    ensures error == FirstError(env, content)
    ensures error.None? ==>
              answers == Answers(env, content) && texts == TextsOf(content) && images == ImagesOf(env, content)
  {
    hide FirstError, Answers, TextsOf, ImagesOf;
    error, answers, texts, images := None, [], [], [];
    NothingSorted(env);
    assert content[0..] == content;
    for i := 0 to |content|
      invariant FirstError(env, content) == FirstError(env, content[i..])
      invariant Answers(env, content) == answers + Answers(env, content[i..])
      invariant TextsOf(content) == texts + TextsOf(content[i..])
      invariant ImagesOf(env, content) == images + ImagesOf(env, content[i..])
    {
      SortOne(env, content[i..]);
      assert content[i..][1..] == content[i + 1..];
      match content[i] {
        case Text(text) =>
          if text != "" {
            texts := texts + [text];
          }
        case ToolResult(id, result, _) =>
          var body := if result.JStr? then result.s else env.resultText(result);
          answers := answers + [Answered(id, body)];
        case Image(blobId, mediaType) =>
          if !env.hasBlobStore || blobId == "" || mediaType == "" {
            error := Some(BadImage);
            return;
          }
          var url := env.imageUrl(blobId, mediaType);
          if url.None? {
            error := Some(UnreadableBlob);
            return;
          }
          images := images + [url.value];
        case Document(_, _) =>
          error := Some(DocumentBlock);
          return;
        case _ =>
      }
    }
  }

  lemma NothingSorted(env: Env)
    ensures FirstError(env, []) == None && Answers(env, []) == [] && TextsOf([]) == [] && ImagesOf(env, []) == []
  {
  }

  /** What the first block adds to each list. */
  lemma SortOne(env: Env, bs: seq<Block>)
    requires bs != []
    ensures FirstError(env, bs)
         == if BlockError(env, bs[0]).Some? then BlockError(env, bs[0]) else FirstError(env, bs[1..])
    ensures Answers(env, bs) == (if bs[0].ToolResult? then [Answered(bs[0].resId, ResultContent(env, bs[0].result))] else [])
                                + Answers(env, bs[1..])
    ensures TextsOf(bs) == (if bs[0].Text? && bs[0].text != "" then [bs[0].text] else []) + TextsOf(bs[1..])
    ensures ImagesOf(env, bs) == (if bs[0].Image? then [env.imageUrl(bs[0].blobId, bs[0].mediaType).GetOr("")] else [])
                                 + ImagesOf(env, bs[1..])
  {
  }

  /** One assistant message: its text and its calls; thinking is dropped. */
  method SortAssistantBlocks(args: Obj -> string, content: seq<Block>) returns (texts: seq<string>, calls: seq<Trace>)
    ensures texts == TextsOf(content) && calls == Calls(args, content)
  {
    texts, calls := [], [];
    for i := 0 to |content|
      invariant TextsOf(content) == texts + TextsOf(content[i..])
      invariant Calls(args, content) == calls + Calls(args, content[i..])
    {
      assert content[i..][1..] == content[i + 1..];
      match content[i] {
        case Text(text) =>
          if text != "" {
            texts := texts + [text];
          }
        case ToolUse(id, name, input) =>
          calls := calls + [Called(id, name, args(input))];
        case _ =>
      }
    }
  }

  /** What one message becomes: its tool messages first, then its text and images. */
  method ChatMessageFor(env: Env, m: Message) returns (error: Option<Error>, out: seq<ChatMessage>)
    ensures error == if m.role.User? then FirstError(env, m.content) else None
    ensures error.None? ==> out == ChatOne(env, m)
  {
    hide FirstError, Answers, TextsOf, ImagesOf, Calls, ToolMessages, Join;
    error, out := None, [];
    if m.role == User {
      var answers, texts, images;
      error, answers, texts, images := SortUserBlocks(env, m.content);
      out := ToolMessages(answers);
      if images != [] {
        out := out + [ChatUserParts(if texts == [] then [] else [Join("", texts)], images)];
      } else if texts != [] {
        out := out + [ChatUser(Join("", texts))];
      }
    } else if m.role == Assistant {
      var texts, calls := SortAssistantBlocks(env.chatArgs, m.content);
      if texts != [] || calls != [] {
        out := [ChatAssistant(if texts == [] then None else Some(Join("", texts)), calls)];
      }
    }
  }

  method TranslateChat(env: Env, msgs: seq<Message>, system: string) returns (r: Result<seq<ChatMessage>, Error>)
    ensures r == Chat(env, msgs, system)
  {
    hide FirstError, ChatOne;
    var out := if system != "" then [ChatSystem(system)] else [];
    ghost var first := out;
    for i := 0 to |msgs|
      invariant Fault(env, msgs) == Fault(env, msgs[i..])
      invariant first + ChatAll(env, msgs) == out + ChatAll(env, msgs[i..])
    {
      assert msgs[i..][1..] == msgs[i + 1..];
      var error, part := ChatMessageFor(env, msgs[i]);
      if error.Some? {
        return Failure(error.value);
      }
      out := out + part;
    }
    assert first + ChatAll(env, msgs) == out;
    r := Success(out);
  }

  /** What one message becomes: outputs first, then the user's message; or the assistant's
      text, then its calls. An unknown role's text goes out as the user's. */
  method ItemsFor(env: Env, m: Message) returns (error: Option<Error>, out: seq<Item>)
    ensures error == if m.role.User? then FirstError(env, m.content) else None
    ensures error.None? ==> out == ItemsOne(env, m)
  {
    hide FirstError, Answers, TextsOf, ImagesOf, Calls, ToolItems, Join, StrictArgs;
    error, out := None, [];
    if m.role == User {
      var answers, texts, images;
      error, answers, texts, images := SortUserBlocks(env, m.content);
      out := ToolItems(answers);
      if texts != [] || images != [] {
        out := out + [UserItem(if texts == [] then None else Some(Join("\n", texts)), images)];
      }
    } else if m.role == Assistant {
      var texts, calls := SortAssistantBlocks(StrictArgs(env), m.content);
      if texts != [] {
        out := out + [AssistantItem(Join("\n", texts))];
      }
      out := out + ToolItems(calls);
    } else if m.role == Tool {
      var texts, _ := SortAssistantBlocks(StrictArgs(env), m.content);
      if texts != [] {
        out := out + [UserItem(Some(Join("\n", texts)), [])];
      }
    }
  }

  method TranslateResponses(env: Env, msgs: seq<Message>) returns (r: Result<seq<Item>, Error>)
    ensures r == Responses(env, msgs)
  {
    hide FirstError, ItemsOne;
    var out: seq<Item> := [];
    for i := 0 to |msgs|
      invariant Fault(env, msgs) == Fault(env, msgs[i..])
      invariant ItemsAll(env, msgs) == out + ItemsAll(env, msgs[i..])
    {
      assert msgs[i..][1..] == msgs[i + 1..];
      var error, part := ItemsFor(env, msgs[i]);
      if error.Some? {
        return Failure(error.value);
      }
      out := out + part;
    }
    assert ItemsAll(env, msgs) == out;
    r := Success(out);
  }
}
