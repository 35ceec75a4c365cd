/** Both translations keep a well-paired history's tool trace, and its pairing. */
module TranslatorLaws {
  import opened Wrappers
  import opened Seqs
  import opened Messages
  import opened Translators

  // ------------------------------------------------------------------
  // The trace
  // ------------------------------------------------------------------

  lemma IdsConcat(a: seq<Trace>, b: seq<Trace>)
    ensures Translators.Ids(a + b) == Translators.Ids(a) + Translators.Ids(b)
  {
  }

  /** What the first block adds to the calls, and what its use id is. */
  lemma FirstUse(args: Obj -> string, bs: seq<Block>) returns (first: seq<Trace>)
    requires bs != []
    ensures AllCalls(first) && Calls(args, bs) == first + Calls(args, bs[1..])
    ensures UseIds(bs) == Translators.Ids(first) + UseIds(bs[1..])
  {
    hide UseIds;
    first := if bs[0].ToolUse? then [Called(bs[0].useId, bs[0].name, args(bs[0].input))] else [];
    SplitUses(bs);
  }

  lemma SplitUses(bs: seq<Block>)
    requires bs != []
    ensures UseIds(bs) == (if bs[0].ToolUse? then [bs[0].useId] else []) + UseIds(bs[1..])
    ensures ResultIds(bs) == (if bs[0].ToolResult? then [bs[0].resId] else []) + ResultIds(bs[1..])
  {
    hide UseIds, ResultIds, Uses, Results;
    OneBlock(bs[0]);
    assert bs == [bs[0]] + bs[1..];
    UsesConcat([bs[0]], bs[1..]);
    ResultsConcat([bs[0]], bs[1..]);
  }

  lemma FirstResult(env: Env, bs: seq<Block>) returns (first: seq<Trace>)
    requires bs != []
    ensures AllAnswers(first) && Answers(env, bs) == first + Answers(env, bs[1..])
    ensures ResultIds(bs) == Translators.Ids(first) + ResultIds(bs[1..])
  {
    hide ResultIds, ResultContent;
    first := if bs[0].ToolResult? then [Answered(bs[0].resId, ResultContent(env, bs[0].result))] else [];
    SplitUses(bs);
  }

  lemma {:induction false} NoUsesNoCalls(args: Obj -> string, bs: seq<Block>)
    ensures AllCalls(Calls(args, bs)) && Translators.Ids(Calls(args, bs)) == UseIds(bs)
  {
    if bs != [] {
      hide Calls, UseIds, Translators.Ids;
      NoUsesNoCalls(args, bs[1..]);
      var first := FirstUse(args, bs);
      IdsConcat(first, Calls(args, bs[1..]));
    }
  }

  lemma {:induction false} NoResultsNoAnswers(env: Env, bs: seq<Block>)
    ensures AllAnswers(Answers(env, bs)) && Translators.Ids(Answers(env, bs)) == ResultIds(bs)
  {
    if bs != [] {
      hide Answers, ResultIds, Translators.Ids;
      NoResultsNoAnswers(env, bs[1..]);
      var first := FirstResult(env, bs);
      IdsConcat(first, Answers(env, bs[1..]));
    }
  }

  lemma NoTrace()
    ensures ChatTrace([]) == [] && ItemTrace([]) == []
  {
  }

  lemma ChatTraceFirst(out: seq<ChatMessage>)
    requires out != []
    ensures ChatTrace(out) == ChatTrace([out[0]]) + ChatTrace(out[1..])
  {
    assert [out[0]][1..] == [];
  }

  lemma ItemTraceFirst(out: seq<Item>)
    requires out != []
    ensures ItemTrace(out) == ItemTrace([out[0]]) + ItemTrace(out[1..])
  {
    assert [out[0]][1..] == [];
  }

  lemma {:induction false} ChatTraceConcat(a: seq<ChatMessage>, b: seq<ChatMessage>)
    ensures ChatTrace(a + b) == ChatTrace(a) + ChatTrace(b)
  {
    hide ChatTrace;
    if a == [] {
      NoTrace();
      assert a + b == b;
    } else {
      TailConcat(a, b);
      ChatTraceFirst(a);
      ChatTraceFirst(a + b);
      ChatTraceConcat(a[1..], b);
    }
  }

  lemma {:induction false} ItemTraceConcat(a: seq<Item>, b: seq<Item>)
    ensures ItemTrace(a + b) == ItemTrace(a) + ItemTrace(b)
  {
    hide ItemTrace;
    if a == [] {
      NoTrace();
      assert a + b == b;
    } else {
      TailConcat(a, b);
      ItemTraceFirst(a);
      ItemTraceFirst(a + b);
      ItemTraceConcat(a[1..], b);
    }
  }

  lemma {:induction false} ToolMessagesTrace(ts: seq<Trace>)
    ensures ChatTrace(ToolMessages(ts)) == ts && ItemTrace(ToolItems(ts)) == ts
  {
    if ts != [] {
      assert ToolMessages(ts)[1..] == ToolMessages(ts[1..]);
      assert ToolItems(ts)[1..] == ToolItems(ts[1..]);
      ToolMessagesTrace(ts[1..]);
    }
  }

  /** A message whose role fits its blocks: calls only from the assistant, results only from
      the user. Pairing implies it. */
  predicate RoleFits(m: Message) {
    && (UseIds(m.content) != [] ==> m.role == Assistant)
    && (ResultIds(m.content) != [] ==> m.role == User)
  }

  lemma ChatOneTrace(env: Env, m: Message)
    requires RoleFits(m)
    ensures ChatTrace(ChatOne(env, m)) == Calls(env.chatArgs, m.content) + Answers(env, m.content)
  {
    var calls, answers := Calls(env.chatArgs, m.content), Answers(env, m.content);
    NoUsesNoCalls(env.chatArgs, m.content);
    NoResultsNoAnswers(env, m.content);
    ToolMessagesTrace(answers);
    hide ToolMessages, Calls, Answers, TextsOf, ImagesOf, Join, UseIds, ResultIds;
    assert m.role != Assistant ==> calls == [];
    assert m.role != User ==> answers == [];
    if m.role == User {
      var rest := ChatUserMessage(env, m.content);
      ChatTraceConcat(ToolMessages(answers), rest);
      assert ChatTrace(rest) == [];
    } else if m.role == Assistant {
      assert calls + [] == calls;
    }
  }

  lemma ItemsOneTrace(env: Env, m: Message)
    requires RoleFits(m)
    ensures ItemTrace(ItemsOne(env, m)) == Calls(StrictArgs(env), m.content) + Answers(env, m.content)
  {
    var calls, answers := Calls(StrictArgs(env), m.content), Answers(env, m.content);
    NoUsesNoCalls(StrictArgs(env), m.content);
    NoResultsNoAnswers(env, m.content);
    ToolMessagesTrace(answers);
    ToolMessagesTrace(calls);
    hide ToolItems, Calls, Answers, TextsOf, ImagesOf, Join, UseIds, ResultIds, StrictArgs;
    assert m.role != Assistant ==> calls == [];
    assert m.role != User ==> answers == [];
    var texts := TextsOf(m.content);
    if m.role == User {
      var rest := UserItems(texts, ImagesOf(env, m.content));
      ItemTraceConcat(ToolItems(answers), rest);
      assert ItemTrace(rest) == [];
    } else if m.role == Assistant {
      var first := if texts == [] then [] else [AssistantItem(Join("\n", texts))];
      ItemTraceConcat(first, ToolItems(calls));
      assert ItemTrace(first) == [];
      assert calls + [] == calls;
    }
  }

  lemma {:induction false} TracesKept(env: Env, h: seq<Message>)
    requires forall m <- h :: RoleFits(m)
    ensures ChatTrace(ChatAll(env, h)) == HistoryTrace(env, env.chatArgs, h)
    ensures ItemTrace(ItemsAll(env, h)) == HistoryTrace(env, StrictArgs(env), h)
  {
    if h != [] {
      ChatOneTrace(env, h[0]);
      ItemsOneTrace(env, h[0]);
      hide ChatOne, ItemsOne, RoleFits, StrictArgs;
      ChatTraceConcat(ChatOne(env, h[0]), ChatAll(env, h[1..]));
      ItemTraceConcat(ItemsOne(env, h[0]), ItemsAll(env, h[1..]));
      TracesKept(env, h[1..]);
    }
  }

  lemma PairedRolesFit(h: seq<Message>)
    requires WellPaired(h)
    ensures forall m <- h :: RoleFits(m)
  {
    forall i: nat | i < |h|
      ensures RoleFits(h[i])
    {
      assert PairedAt(h, i);
    }
  }

  // ------------------------------------------------------------------
  // Pairing
  // ------------------------------------------------------------------

  /** Output of messages that carry neither calls nor answers. */
  predicate ToolFree(out: seq<ChatMessage>) {
    forall m <- out :: !m.ChatTool? && (m.ChatAssistant? ==> m.calls == [])
  }

  predicate StartsFree(out: seq<ChatMessage>) {
    out == [] || !out[0].ChatTool?
  }

  lemma PairedStartsFree(out: seq<ChatMessage>)
    requires ChatPaired(out)
    ensures StartsFree(out)
  {
  }

  lemma {:induction false} FreePrefix(a: seq<ChatMessage>, b: seq<ChatMessage>)
    requires ToolFree(a) && ChatPaired(b)
    ensures ChatPaired(a + b)
    decreases |a|
  {
    if a == [] {
      assert a + b == b;
    } else {
      assert (a + b)[1..] == a[1..] + b;
      assert a[0] in a && forall m <- a[1..] :: m in a;
      FreePrefix(a[1..], b);
      var rest := a[1..] + b;
      PairedStartsFree(rest);
      assert LeadingTools(rest) == [];
      assert Translators.Ids([]) == [];
    }
  }

  lemma {:induction false} LeadingToolsOf(answers: seq<Trace>, rest: seq<ChatMessage>)
    requires StartsFree(rest)
    ensures LeadingTools(ToolMessages(answers) + rest) == answers
  {
    var out := ToolMessages(answers) + rest;
    if answers == [] {
      assert out == rest;
    } else {
      assert out[1..] == ToolMessages(answers[1..]) + rest;
      LeadingToolsOf(answers[1..], rest);
    }
  }

  /** An assistant message with calls, its tool messages, and well-paired output after. */
  lemma ExchangePrefix(content: Option<string>, calls: seq<Trace>, answers: seq<Trace>, rest: seq<ChatMessage>)
    requires AllCalls(calls) && AllAnswers(answers) && Translators.Ids(calls) == Translators.Ids(answers)
    requires ChatPaired(rest)
    ensures ChatPaired([ChatAssistant(content, calls)] + ToolMessages(answers) + rest)
  {
    var out := [ChatAssistant(content, calls)] + ToolMessages(answers) + rest;
    assert out[1..] == ToolMessages(answers) + rest;
    LeadingToolsOf(answers, rest);
    assert out[1 + |answers|..] == rest;
  }

  lemma PlainMessageIsFree(env: Env, m: Message)
    requires UseIds(m.content) == [] && ResultIds(m.content) == []
    ensures ToolFree(ChatOne(env, m))
  {
    NoUsesNoCalls(env.chatArgs, m.content);
    NoResultsNoAnswers(env, m.content);
    hide TextsOf, ImagesOf, Join, UseIds, ResultIds, Calls, Answers;
    assert Calls(env.chatArgs, m.content) == [] && Answers(env, m.content) == [];
  }

  /** The history from here on is a fresh start: well paired, and not opening with a result. */
  lemma TailIsFresh(h: seq<Message>)
    requires WellPaired(h) && h != []
    ensures ResultIds(h[0].content) == []
    ensures if UseIds(h[0].content) == [] then WellPaired(h[1..])
            else |h| > 1 && h[0].role == Assistant && h[1].role == User && UseIds(h[1].content) == []
                 && ResultIds(h[1].content) == UseIds(h[0].content) && WellPaired(h[2..])
  {
    hide UseIds, ResultIds;
    assert PairedAt(h, 0);
    if UseIds(h[0].content) == [] {
      if |h| > 1 {
        assert PairedAt(h, 1);
      }
      WellPairedCut(h, 1);
    } else {
      assert PairedAt(h, 1);
      if |h| > 2 {
        assert PairedAt(h, 2);
      }
      WellPairedCut(h, 2);
    }
  }

  lemma ChatExchange(env: Env, a: Message, u: Message, rest: seq<ChatMessage>)
    requires a.role == Assistant && u.role == User && UseIds(a.content) != []
    requires ResultIds(a.content) == [] && UseIds(u.content) == [] && ResultIds(u.content) == UseIds(a.content)
    requires ChatPaired(rest)
    ensures ChatPaired(ChatOne(env, a) + (ChatOne(env, u) + rest))
  {
    var calls, answers := Calls(env.chatArgs, a.content), Answers(env, u.content);
    NoUsesNoCalls(env.chatArgs, a.content);
    NoResultsNoAnswers(env, u.content);
    hide TextsOf, ImagesOf, Join, UseIds, ResultIds, Calls, Answers, ToolMessages, ChatPaired;
    assert calls != [];
    var content := ChatAssistantMessage(env, a.content)[0].content;
    assert ChatOne(env, a) == [ChatAssistant(content, calls)];
    var user := ChatUserMessage(env, u.content);
    assert ToolFree(user);
    FreePrefix(user, rest);
    ExchangePrefix(content, calls, answers, user + rest);
    assert ChatOne(env, a) + (ChatOne(env, u) + rest)
        == [ChatAssistant(content, calls)] + ToolMessages(answers) + (user + rest);
  }

  lemma {:induction false} ChatIsPaired(env: Env, h: seq<Message>)
    requires WellPaired(h)
    ensures ChatPaired(ChatAll(env, h))
    decreases |h|
  {
    if h != [] {
      TailIsFresh(h);
      hide ChatPaired, WellPaired, UseIds, ResultIds, ChatOne;
      if UseIds(h[0].content) == [] {
        ChatIsPaired(env, h[1..]);
        PlainMessageIsFree(env, h[0]);
        FreePrefix(ChatOne(env, h[0]), ChatAll(env, h[1..]));
      } else {
        ChatIsPaired(env, h[2..]);
        assert h[1..][1..] == h[2..];
        ChatExchange(env, h[0], h[1], ChatAll(env, h[2..]));
      }
    }
  }

  predicate ItemsFree(out: seq<Item>) {
    forall m <- out :: !m.ToolItem?
  }

  lemma {:induction false} ItemsFreePrefix(a: seq<Item>, b: seq<Item>)
    requires ItemsFree(a) && ItemsPaired(b)
    ensures ItemsPaired(a + b)
    decreases |a|
  {
    if a == [] {
      assert a + b == b;
    } else {
      assert (a + b)[1..] == a[1..] + b;
      assert a[0] in a && forall m <- a[1..] :: m in a;
      ItemsFreePrefix(a[1..], b);
    }
  }

  lemma {:induction false} LeadingCallsOf(calls: seq<Trace>, rest: seq<Item>)
    requires AllCalls(calls) && (rest != [] ==> !(rest[0].ToolItem? && rest[0].trace.Called?))
    ensures LeadingCalls(ToolItems(calls) + rest) == calls
  {
    var out := ToolItems(calls) + rest;
    if calls == [] {
      assert out == rest;
    } else {
      assert out[1..] == ToolItems(calls[1..]) + rest;
      assert calls[0] in calls;
      LeadingCallsOf(calls[1..], rest);
    }
  }

  lemma {:induction false} LeadingOutputsOf(answers: seq<Trace>, rest: seq<Item>)
    requires AllAnswers(answers) && (rest != [] ==> !(rest[0].ToolItem? && rest[0].trace.Answered?))
    ensures LeadingOutputs(ToolItems(answers) + rest) == answers
  {
    var out := ToolItems(answers) + rest;
    if answers == [] {
      assert out == rest;
    } else {
      assert out[1..] == ToolItems(answers[1..]) + rest;
      assert answers[0] in answers;
      LeadingOutputsOf(answers[1..], rest);
    }
  }

  lemma ItemsExchangePrefix(calls: seq<Trace>, answers: seq<Trace>, rest: seq<Item>)
    requires AllCalls(calls) && AllAnswers(answers) && Translators.Ids(calls) == Translators.Ids(answers) && calls != []
    requires ItemsPaired(rest)
    ensures ItemsPaired(ToolItems(calls) + (ToolItems(answers) + rest))
  {
    assert |Translators.Ids(calls)| == |calls| && |Translators.Ids(answers)| == |answers|;
    var tail := ToolItems(answers) + rest;
    var out := ToolItems(calls) + tail;
    assert answers[0] in answers && calls[0] in calls;
    assert tail[0] == ToolItem(answers[0]) && out[0] == ToolItem(calls[0]);
    LeadingCallsOf(calls, tail);
    assert out[|calls|..] == tail;
    LeadingOutputsOf(answers, rest);
    assert out[|calls| + |answers|..] == rest;
  }

  lemma ItemsExchange(env: Env, a: Message, u: Message, rest: seq<Item>)
    requires a.role == Assistant && u.role == User && UseIds(a.content) != []
    requires ResultIds(a.content) == [] && UseIds(u.content) == [] && ResultIds(u.content) == UseIds(a.content)
    requires ItemsPaired(rest)
    ensures ItemsPaired(ItemsOne(env, a) + (ItemsOne(env, u) + rest))
  {
    hide TextsOf, ImagesOf, Join, UseIds, ResultIds, Calls, Answers, ToolItems, ItemsPaired, StrictArgs, ItemsOne, ItemsFree;
    var calls, answers := Calls(StrictArgs(env), a.content), Answers(env, u.content);
    NoUsesNoCalls(StrictArgs(env), a.content);
    NoResultsNoAnswers(env, u.content);
    assert calls != [];
    var first := TextItems(env, a);
    var user := ImageItems(env, u);
    ItemsFreePrefix(user, rest);
    ItemsExchangePrefix(calls, answers, user + rest);
    ItemsFreePrefix(first, ToolItems(calls) + (ToolItems(answers) + (user + rest)));
    RegroupFive(first, ToolItems(calls), ToolItems(answers), user, rest);
  }

  lemma TextItems(env: Env, a: Message) returns (first: seq<Item>)
    requires a.role == Assistant
    ensures ItemsFree(first) && ItemsOne(env, a) == first + ToolItems(Calls(StrictArgs(env), a.content))
  {
    hide ToolItems, Calls, StrictArgs, Join, TextsOf;
    var texts := TextsOf(a.content);
    first := if texts == [] then [] else [AssistantItem(Join("\n", texts))];
  }

  lemma ImageItems(env: Env, u: Message) returns (last: seq<Item>)
    requires u.role == User
    ensures ItemsFree(last) && ItemsOne(env, u) == ToolItems(Answers(env, u.content)) + last
  {
    hide ToolItems, Answers, Join, TextsOf, ImagesOf;
    last := UserItems(TextsOf(u.content), ImagesOf(env, u.content));
  }

  lemma RegroupFive<T>(a: seq<T>, b: seq<T>, c: seq<T>, d: seq<T>, e: seq<T>)
    ensures (a + b) + ((c + d) + e) == a + (b + (c + (d + e)))
  {
    Regroup(c, d, e);
    Regroup(a, b, c + (d + e));
  }

  lemma PlainItemsAreFree(env: Env, m: Message)
    requires UseIds(m.content) == [] && ResultIds(m.content) == []
    ensures ItemsFree(ItemsOne(env, m))
  {
    NoUsesNoCalls(StrictArgs(env), m.content);
    NoResultsNoAnswers(env, m.content);
    hide TextsOf, ImagesOf, Join, UseIds, ResultIds, Calls, Answers, StrictArgs;
    assert Calls(StrictArgs(env), m.content) == [] && Answers(env, m.content) == [];
  }

  lemma {:induction false} ItemsArePaired(env: Env, h: seq<Message>)
    requires WellPaired(h)
    ensures ItemsPaired(ItemsAll(env, h))
    decreases |h|
  {
    if h != [] {
      TailIsFresh(h);
      hide ItemsPaired, WellPaired, UseIds, ResultIds, ItemsOne;
      if UseIds(h[0].content) == [] {
        ItemsArePaired(env, h[1..]);
        PlainItemsAreFree(env, h[0]);
        ItemsFreePrefix(ItemsOne(env, h[0]), ItemsAll(env, h[1..]));
      } else {
        ItemsArePaired(env, h[2..]);
        assert h[1..][1..] == h[2..];
        ItemsExchange(env, h[0], h[1], ItemsAll(env, h[2..]));
      }
    }
  }

  // ------------------------------------------------------------------
  // Main results
  // ------------------------------------------------------------------

  /** On a well-paired history the Chat output, when there is one, has the history's calls and
      results in order, and answers every assistant message's calls directly after it. */
  lemma ChatKeepsToolTrace(env: Env, h: seq<Message>, system: string)
    requires WellPaired(h)
    ensures var r := Chat(env, h, system);
            r.Success? ==> ChatTrace(r.value) == HistoryTrace(env, env.chatArgs, h) && ChatPaired(r.value)
  {
    PairedRolesFit(h);
    TracesKept(env, h);
    ChatIsPaired(env, h);
    hide ChatPaired, ChatAll, HistoryTrace, ChatTrace;
    SystemFirst(if system != "" then [ChatSystem(system)] else [], ChatAll(env, h), system);
  }

  lemma SystemFirst(first: seq<ChatMessage>, rest: seq<ChatMessage>, system: string)
    requires first == [] || first == [ChatSystem(system)]
    requires ChatPaired(rest)
    ensures ChatTrace(first + rest) == ChatTrace(rest) && ChatPaired(first + rest)
  {
    ChatTraceConcat(first, rest);
    FreePrefix(first, rest);
    hide ChatPaired;
    assert ChatTrace(first) == [];
    assert [] + ChatTrace(rest) == ChatTrace(rest);
  }

  lemma ResponsesKeepToolTrace(env: Env, h: seq<Message>)
    requires WellPaired(h)
    ensures var r := Responses(env, h);
            r.Success? ==> ItemTrace(r.value) == HistoryTrace(env, StrictArgs(env), h) && ItemsPaired(r.value)
  {
    PairedRolesFit(h);
    TracesKept(env, h);
    ItemsArePaired(env, h);
  }

  // ------------------------------------------------------------------
  // Arguments that do not encode
  // ------------------------------------------------------------------

  /** A call or an answer as the history has it, a call with what its input encodes as. */
  datatype Exact = ExactCall(id: string, name: string, arguments: Option<string>) | ExactAnswer(id: string, content: string)

  function ExactCalls(env: Env, bs: seq<Block>): seq<Exact> {
    if bs == [] then []
    else
      (if bs[0].ToolUse? then [ExactCall(bs[0].useId, bs[0].name, env.responsesArgs(bs[0].input))] else [])
      + ExactCalls(env, bs[1..])
  }

  function ExactTrace(env: Env, h: seq<Message>): seq<Exact> {
    if h == [] then []
    else ExactCalls(env, h[0].content) + AsExact(Answers(env, h[0].content)) + ExactTrace(env, h[1..])
  }

  function ExactOne(t: Trace): Exact {
    match t
    case Called(id, name, arguments) => ExactCall(id, name, Some(arguments))
    case Answered(id, content) => ExactAnswer(id, content)
  }

  function AsExact(ts: seq<Trace>): (r: seq<Exact>)
    ensures |r| == |ts|
  {
    seq(|ts|, i requires 0 <= i < |ts| => ExactOne(ts[i]))
  }

  predicate Encodes(env: Env, b: Block) {
    b.ToolUse? ==> env.responsesArgs(b.input).Some?
  }

  ghost predicate AllEncode(env: Env, h: seq<Message>) {
    forall m <- h :: forall b <- m.content :: Encodes(env, b)
  }

  lemma AsExactConcat(a: seq<Trace>, b: seq<Trace>)
    ensures AsExact(a + b) == AsExact(a) + AsExact(b)
  {
  }

  lemma {:induction false} CallsExactIff(env: Env, bs: seq<Block>)
    ensures |Calls(StrictArgs(env), bs)| == |ExactCalls(env, bs)|
    ensures AsExact(Calls(StrictArgs(env), bs)) == ExactCalls(env, bs) <==> forall b <- bs :: Encodes(env, b)
  {
    if bs != [] {
      var rest := bs[1..];
      var one := if bs[0].ToolUse? then [Called(bs[0].useId, bs[0].name, StrictArgs(env)(bs[0].input))] else [];
      var exact := if bs[0].ToolUse? then [ExactCall(bs[0].useId, bs[0].name, env.responsesArgs(bs[0].input))] else [];
      assert Calls(StrictArgs(env), bs) == one + Calls(StrictArgs(env), rest);
      assert ExactCalls(env, bs) == exact + ExactCalls(env, rest);
      CallsExactIff(env, rest);
      AsExactConcat(one, Calls(StrictArgs(env), rest));
      assert AsExact(one) == exact <==> Encodes(env, bs[0]) by {
        if bs[0].ToolUse? { assert AsExact(one)[0] == ExactOne(one[0]); }
      }
      hide Calls, ExactCalls, AsExact, Encodes;
      EqualParts(AsExact(one), AsExact(Calls(StrictArgs(env), rest)), exact, ExactCalls(env, rest));
      assert forall b :: b in bs <==> b == bs[0] || b in rest;
    }
  }

  lemma EqualParts<T>(a: seq<T>, b: seq<T>, c: seq<T>, d: seq<T>)
    requires |a| == |c|
    ensures a + b == c + d <==> a == c && b == d
  {
    if a + b == c + d {
      SplitEqual(a, b, c, d);
    }
  }

  lemma {:induction false} TraceExactIff(env: Env, h: seq<Message>)
    ensures |HistoryTrace(env, StrictArgs(env), h)| == |ExactTrace(env, h)|
    ensures AsExact(HistoryTrace(env, StrictArgs(env), h)) == ExactTrace(env, h) <==> AllEncode(env, h)
  {
    if h != [] {
      var calls, answers := Calls(StrictArgs(env), h[0].content), Answers(env, h[0].content);
      var rest := HistoryTrace(env, StrictArgs(env), h[1..]);
      CallsExactIff(env, h[0].content);
      TraceExactIff(env, h[1..]);
      AsExactConcat(calls, answers);
      AsExactConcat(calls + answers, rest);
      assert HistoryTrace(env, StrictArgs(env), h) == calls + answers + rest;
      hide Calls, Answers, ExactCalls, AsExact, StrictArgs, HistoryTrace, Encodes;
      EqualParts(AsExact(calls) + AsExact(answers), AsExact(rest),
                 ExactCalls(env, h[0].content) + AsExact(answers), ExactTrace(env, h[1..]));
      EqualParts(AsExact(calls), AsExact(answers), ExactCalls(env, h[0].content), AsExact(answers));
      assert forall m :: m in h <==> m == h[0] || m in h[1..];
    }
  }

  /** The Responses output alters no call exactly when every call's input encodes: one that does
      not goes out with no arguments. */
  lemma ResponsesAreExactIff(env: Env, h: seq<Message>)
    requires WellPaired(h) && Responses(env, h).Success?
    ensures AsExact(ItemTrace(Responses(env, h).value)) == ExactTrace(env, h) <==> AllEncode(env, h)
  {
    ResponsesKeepToolTrace(env, h);
    hide WellPaired, ItemTrace, ItemsPaired, HistoryTrace, ExactTrace, AsExact, AllEncode;
    TraceExactIff(env, h);
  }

  // ------------------------------------------------------------------
  // Failures
  // ------------------------------------------------------------------

  /** What cannot go out, and the error it raises. */
  predicate Raises(env: Env, b: Block, e: Error) {
    match e
    case DocumentBlock => b.Document?
    case BadImage => b.Image? && !(env.hasBlobStore && b.blobId != "" && b.mediaType != "")
    case UnreadableBlob =>
      b.Image? && env.hasBlobStore && b.blobId != "" && b.mediaType != "" && env.imageUrl(b.blobId, b.mediaType) == None
  }

  predicate GoesOut(env: Env, b: Block) {
    !Raises(env, b, DocumentBlock) && !Raises(env, b, BadImage) && !Raises(env, b, UnreadableBlob)
  }

  /** The blocks of the user's messages, in order. */
  function UserBlocks(): Message -> seq<Block> {
    (m: Message) => if m.role == User then m.content else []
  }

  /** Reading the blocks in order, the first that cannot go out raises e. */
  ghost predicate FirstRaises(env: Env, bs: seq<Block>, e: Error) {
    exists k: nat :: k < |bs| && Raises(env, bs[k], e) && forall j: nat :: j < k ==> GoesOut(env, bs[j])
  }

  lemma {:induction false} FirstErrorIs(env: Env, bs: seq<Block>, e: Error)
    ensures FirstError(env, bs) == Some(e) <==> FirstRaises(env, bs, e)
  {
    if bs != [] {
      FirstErrorIs(env, bs[1..], e);
      BlockErrorIs(env, bs[0], e);
      hide BlockError, Raises, GoesOut;
      if k: nat :| k < |bs[1..]| && Raises(env, bs[1..][k], e) && forall j: nat :: j < k ==> GoesOut(env, bs[1..][j]) {
        assert bs[k + 1] == bs[1..][k];
        assert GoesOut(env, bs[0]) ==> forall j: nat :: j < k + 1 ==> GoesOut(env, bs[j]) by {
          assert forall j: nat :: 0 < j < k + 1 ==> bs[j] == bs[1..][j - 1];
        }
      }
      if k: nat :| k < |bs| && Raises(env, bs[k], e) && forall j: nat :: j < k ==> GoesOut(env, bs[j]) {
        if k > 0 {
          assert bs[1..][k - 1] == bs[k];
          assert forall j: nat :: j < k - 1 ==> bs[1..][j] == bs[j + 1];
        }
      }
    }
  }

  lemma BlockErrorIs(env: Env, b: Block, e: Error)
    ensures BlockError(env, b) == Some(e) <==> Raises(env, b, e)
    ensures Raises(env, b, e) ==> !GoesOut(env, b)
    ensures BlockError(env, b) == None <==> GoesOut(env, b)
  {
  }

  lemma {:induction false} NoErrorIff(env: Env, bs: seq<Block>)
    ensures FirstError(env, bs) == None <==> forall b <- bs :: GoesOut(env, b)
  {
    if bs != [] {
      NoErrorIff(env, bs[1..]);
      BlockErrorIs(env, bs[0], BadImage);
      hide BlockError, GoesOut;
      assert forall b :: b in bs <==> b == bs[0] || b in bs[1..];
    }
  }

  lemma {:induction false} FirstErrorConcat(env: Env, a: seq<Block>, b: seq<Block>)
    ensures FirstError(env, a + b) == if FirstError(env, a).Some? then FirstError(env, a) else FirstError(env, b)
  {
    if a == [] {
      assert a + b == b;
    } else {
      TailConcat(a, b);
      FirstErrorConcat(env, a[1..], b);
    }
  }

  lemma {:induction false} FaultIsFirstError(env: Env, h: seq<Message>)
    ensures Fault(env, h) == FirstError(env, FlatMap(UserBlocks(), h))
  {
    if h != [] {
      FaultIsFirstError(env, h[1..]);
      hide FirstError;
      FirstErrorConcat(env, UserBlocks()(h[0]), FlatMap(UserBlocks(), h[1..]));
      assert FirstError(env, []) == None by { FirstErrorIs(env, [], BadImage); }
    }
  }

  /** A translation fails with e exactly when the first block of a user message that cannot go
      out is one that raises e: a document, an image that names no blob, or an unreadable blob. */
  lemma TranslationsFailAlike(env: Env, h: seq<Message>, system: string, e: Error)
    ensures Chat(env, h, system) == Failure(e) <==> FirstRaises(env, FlatMap(UserBlocks(), h), e)
    ensures Responses(env, h) == Failure(e) <==> FirstRaises(env, FlatMap(UserBlocks(), h), e)
    ensures Chat(env, h, system).Failure? <==>
              exists m :: m in h && m.role == User && exists b :: b in m.content && !GoesOut(env, b)
  {
    FaultIsFirstError(env, h);
    FirstErrorIs(env, FlatMap(UserBlocks(), h), e);
    NoErrorIff(env, FlatMap(UserBlocks(), h));
    hide FirstError, FirstRaises, GoesOut, Fault;
    var all := FlatMap(UserBlocks(), h);
    if b :| b in all && !GoesOut(env, b) {
      var m := FlatMapMember(UserBlocks(), h, b);
      assert m in h && m.role == User && b in m.content;
    }
    if m, b :| m in h && m.role == User && b in m.content && !GoesOut(env, b) {
      UserBlockIsIn(h, m, b);
    }
  }

  lemma {:induction false} UserBlockIsIn(h: seq<Message>, m: Message, b: Block)
    requires m in h && m.role == User && b in m.content
    ensures b in FlatMap(UserBlocks(), h)
  {
    if m == h[0] {
      assert b in UserBlocks()(h[0]);
    } else {
      UserBlockIsIn(h[1..], m, b);
    }
  }
}
