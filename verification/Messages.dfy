/**
 The canonical message history (src/lyre/adapter/llm_adapter.py) and the pairing rule
 that providers enforce on it.

 An optional string field of a content block (`text`, `tool_use_id`, ...) is modelled as a
 plain string: the code only ever tests such a field for truth, so absent and "" agree.
 */
module Messages {
  import opened Wrappers
  import opened Seqs

  /** A decoded JSON value, as tool inputs and tool results carry it. */
  datatype Json =
    | JNull
    | JBool(b: bool)
    | JNum(n: int)
    | JStr(s: string)
    | JList(items: seq<Json>)
    | JObj(fields: map<string, Json>)

  type Obj = map<string, Json>

  datatype Role = System | User | Assistant | Tool

  datatype Block =
    | Text(text: string)
    | Thinking(thought: string, signature: Option<string>)
    | ToolUse(useId: string, name: string, input: Obj)
    | ToolResult(resId: string, result: Json, isError: bool)
    | Image(blobId: string, mediaType: string)
    | Document(docBlobId: string, docMediaType: string)

  datatype Message = Message(role: Role, content: seq<Block>, artifact: bool)

  function TextMessage(role: Role, text: string): Message {
    Message(role, [Text(text)], false)
  }

  /** The tool calls in a block list, in order. */
  function Uses(bs: seq<Block>): seq<Block> {
    if bs == [] then []
    else (if bs[0].ToolUse? then [bs[0]] else []) + Uses(bs[1..])
  }

  /** The tool results in a block list, in order. */
  function Results(bs: seq<Block>): seq<Block> {
    if bs == [] then []
    else (if bs[0].ToolResult? then [bs[0]] else []) + Results(bs[1..])
  }

  lemma {:induction false} UsesAreUses(bs: seq<Block>)
    ensures forall u <- Uses(bs) :: u.ToolUse? && u in bs
  {
    if bs != [] { UsesAreUses(bs[1..]); }
  }

  lemma {:induction false} ResultsAreResults(bs: seq<Block>)
    ensures forall r <- Results(bs) :: r.ToolResult? && r in bs
  {
    if bs != [] { ResultsAreResults(bs[1..]); }
  }

  function CallIds(us: seq<Block>): seq<string>
    requires forall u <- us :: u.ToolUse?
  {
    seq(|us|, i requires 0 <= i < |us| => us[i].useId)
  }

  function Ids(rs: seq<Block>): seq<string>
    requires forall r <- rs :: r.ToolResult?
  {
    seq(|rs|, i requires 0 <= i < |rs| => rs[i].resId)
  }

  /** The ids of the tool calls in a block list, in order. */
  function UseIds(bs: seq<Block>): seq<string> {
    UsesAreUses(bs);
    CallIds(Uses(bs))
  }

  function ResultIds(bs: seq<Block>): seq<string> {
    ResultsAreResults(bs);
    Ids(Results(bs))
  }

  lemma NoBlocks()
    ensures Uses([]) == [] && Results([]) == []
  {
  }

  lemma FirstUses(bs: seq<Block>)
    requires bs != []
    ensures Uses(bs) == (if bs[0].ToolUse? then [bs[0]] else []) + Uses(bs[1..])
  {
  }

  lemma {:induction false} JoinUses(a: seq<Block>, b: seq<Block>)
    ensures Uses(a + b) == Uses(a) + Uses(b)
  {
    hide Uses;
    if a == [] {
      NoBlocks();
      assert a + b == b;
    } else {
      TailConcat(a, b);
      FirstUses(a);
      FirstUses(a + b);
      JoinUses(a[1..], b);
      Regroup(if a[0].ToolUse? then [a[0]] else [], Uses(a[1..]), Uses(b));
    }
  }

  lemma UsesConcat(a: seq<Block>, b: seq<Block>)
    ensures Uses(a + b) == Uses(a) + Uses(b)
    ensures UseIds(a + b) == UseIds(a) + UseIds(b)
  {
    hide Uses;
    JoinUses(a, b);
    UsesAreUses(a);
    UsesAreUses(b);
    UsesAreUses(a + b);
  }

  lemma FirstResults(bs: seq<Block>)
    requires bs != []
    ensures Results(bs) == (if bs[0].ToolResult? then [bs[0]] else []) + Results(bs[1..])
  {
  }

  lemma {:induction false} JoinResults(a: seq<Block>, b: seq<Block>)
    ensures Results(a + b) == Results(a) + Results(b)
  {
    hide Results;
    if a == [] {
      NoBlocks();
      assert a + b == b;
    } else {
      TailConcat(a, b);
      FirstResults(a);
      FirstResults(a + b);
      JoinResults(a[1..], b);
      Regroup(if a[0].ToolResult? then [a[0]] else [], Results(a[1..]), Results(b));
    }
  }

  lemma ResultsConcat(a: seq<Block>, b: seq<Block>)
    ensures Results(a + b) == Results(a) + Results(b)
    ensures ResultIds(a + b) == ResultIds(a) + ResultIds(b)
  {
    hide Results;
    JoinResults(a, b);
    ResultsAreResults(a);
    ResultsAreResults(b);
    ResultsAreResults(a + b);
  }

  lemma OneBlock(b: Block)
    ensures Uses([b]) == (if b.ToolUse? then [b] else []) && UseIds([b]) == if b.ToolUse? then [b.useId] else []
    ensures Results([b]) == (if b.ToolResult? then [b] else []) && ResultIds([b]) == if b.ToolResult? then [b.resId] else []
  {
    assert Uses([b]) == if b.ToolUse? then [b] else [];
    assert Results([b]) == if b.ToolResult? then [b] else [];
  }

  /** A block list with neither calls nor results. */
  predicate Plain(bs: seq<Block>) {
    forall b <- bs :: !b.ToolUse? && !b.ToolResult?
  }

  lemma {:induction false} PlainHasNone(bs: seq<Block>)
    requires Plain(bs)
    ensures Uses(bs) == [] && UseIds(bs) == [] && Results(bs) == [] && ResultIds(bs) == []
  {
    if bs != [] { PlainHasNone(bs[1..]); }
  }

  /** What a provider demands around message i: calls are answered at once, by a user
      message carrying exactly those ids in order, and no result stands anywhere else. */
  ghost predicate PairedAt(h: seq<Message>, i: nat)
    requires i < |h|
  {
    && (UseIds(h[i].content) != [] ==>
          && h[i].role == Assistant
          && i + 1 < |h|
          && h[i + 1].role == User
          && ResultIds(h[i + 1].content) == UseIds(h[i].content))
    && (ResultIds(h[i].content) != [] ==>
          && h[i].role == User
          && i > 0
          && h[i - 1].role == Assistant
          && UseIds(h[i - 1].content) == ResultIds(h[i].content))
  }

  ghost predicate WellPaired(h: seq<Message>) {
    forall i: nat | i < |h| :: PairedAt(h, i)
  }

  lemma WellPairedConcat(a: seq<Message>, b: seq<Message>)
    requires WellPaired(a) && WellPaired(b)
    ensures WellPaired(a + b)
  {
    forall i: nat | i < |a + b|
      ensures PairedAt(a + b, i)
    {
      if i < |a| {
        assert PairedAt(a, i);
      } else {
        assert PairedAt(b, i - |a|);
      }
    }
  }

  /** A well-paired history may be cut before any message that carries no result. */
  lemma WellPairedCut(h: seq<Message>, p: nat)
    requires WellPaired(h) && p <= |h|
    requires p < |h| ==> ResultIds(h[p].content) == []
    ensures WellPaired(h[..p]) && WellPaired(h[p..])
  {
    forall i: nat | i < p
      ensures PairedAt(h[..p], i)
    {
      assert PairedAt(h, i);
    }
    forall i: nat | i < |h| - p
      ensures PairedAt(h[p..], i)
    {
      assert PairedAt(h, p + i);
    }
  }

  /** Messages without calls or results are well paired in any order and number. */
  lemma WellPairedPlain(h: seq<Message>)
    requires forall m <- h :: Plain(m.content)
    ensures WellPaired(h)
  {
    forall i: nat | i < |h|
      ensures PairedAt(h, i)
    {
      PlainHasNone(h[i].content);
    }
  }

  /** An assistant message followed by the user message answering it. */
  lemma WellPairedExchange(a: Message, u: Message)
    requires a.role == Assistant && u.role == User
    requires ResultIds(a.content) == [] && UseIds(u.content) == []
    requires ResultIds(u.content) == UseIds(a.content)
    ensures WellPaired([a, u])
  {
    var h := [a, u];
    assert PairedAt(h, 0) && PairedAt(h, 1);
  }

  /** Every tool result of a history, in order. */
  function AllResults(h: seq<Message>): seq<Block> {
    if h == [] then [] else Results(h[0].content) + AllResults(h[1..])
  }

  lemma {:induction false} AllResultsConcat(a: seq<Message>, b: seq<Message>)
    ensures AllResults(a + b) == AllResults(a) + AllResults(b)
  {
    if a == [] {
      assert a + b == b;
    } else {
      assert (a + b)[1..] == a[1..] + b;
      AllResultsConcat(a[1..], b);
    }
  }

  lemma {:induction false} AllResultsAreResults(h: seq<Message>)
    ensures forall r <- AllResults(h) :: r.ToolResult?
  {
    if h != [] {
      ResultsAreResults(h[0].content);
      AllResultsAreResults(h[1..]);
    }
  }

  lemma {:induction false} AllResultsPlain(h: seq<Message>)
    requires forall m <- h :: Plain(m.content)
    ensures AllResults(h) == []
  {
    if h != [] {
      PlainHasNone(h[0].content);
      AllResultsPlain(h[1..]);
    }
  }

  function AllResultIds(h: seq<Message>): seq<string> {
    AllResultsAreResults(h);
    Ids(AllResults(h))
  }

  lemma AllResultIdsConcat(a: seq<Message>, b: seq<Message>)
    ensures AllResultIds(a + b) == AllResultIds(a) + AllResultIds(b)
  {
    AllResultsConcat(a, b);
  }

  /** Tool ids are present and used once. In a well-paired history the ids of the
      results are the ids of the calls, so this speaks of both. */
  ghost predicate UniqueToolIds(h: seq<Message>) {
    && "" !in AllResultIds(h)
    && forall id :: multiset(AllResultIds(h))[id] <= 1
  }

  /** A history whose result ids are among those of a uniquely labelled one. */
  lemma UniqueToolIdsSub(part: seq<Message>, whole: seq<Message>)
    requires UniqueToolIds(whole)
    requires multiset(AllResultIds(part)) <= multiset(AllResultIds(whole))
    ensures UniqueToolIds(part)
  {
    assert forall id <- AllResultIds(part) :: id in multiset(AllResultIds(part)) && id in multiset(AllResultIds(whole));
  }
}
