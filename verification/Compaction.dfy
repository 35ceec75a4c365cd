/**
 In-wakeup compaction of the message history (src/lyre/runtime/compact.py).

 JSON decoding, `str`, `repr`, `str.strip` and the layout of a trace line are library or
 formatting matters: they enter as functions of an `Env`. The text returned by the summary
 model is an argument of each compaction ("" when the call failed).
 */
module Compaction {
  import opened Wrappers
  import opened Messages
  import opened Seqs

  datatype Env = Env(
    parse: string -> Option<Obj>,                    // json.loads of an object, else None
    show: Json -> string,                            // str(value)
    repr: string -> string,                          // repr(text)
    strip: string -> string,                         // text.strip()
    traceLine: (string, Obj, Json, bool) -> string,  // _format_trace_line
    badResultLine: (string, Obj) -> string,          // the "result missing or unparseable" line
    transcriptRef: string)                           // where the full transcript is, or ""

  datatype Policy = PreserveIn | PreserveOut | Trace | Drop

  const DROPPED_TOOLS: set<string> := {
    "mailbox_read", "mark_read", "list_agents", "list_personas", "list_models",
    "list_tasks", "list_scheduled_mail", "query_task_status", "report_progress"
  }

  function ToolPolicy(name: string): Policy {
    if name == "mailbox_get_message" then PreserveIn
    else if name == "mailbox_send" then PreserveOut
    else if name in DROPPED_TOOLS then Drop
    else Trace
  }

  // ------------------------------------------------------------------
  // Where the kept tail starts
  // ------------------------------------------------------------------

  function Assistants(h: seq<Message>): nat {
    if h == [] then 0
    else (if h[0].role == Assistant then 1 else 0) + Assistants(h[1..])
  }

  lemma {:induction false} AssistantsConcat(a: seq<Message>, b: seq<Message>)
    ensures Assistants(a + b) == Assistants(a) + Assistants(b)
  {
    if a == [] {
      assert a + b == b;
    } else {
      assert (a + b)[1..] == a[1..] + b;
      AssistantsConcat(a[1..], b);
    }
  }

  /** `pivot` is where the last k assistant messages start; 1 when there are fewer. */
  ghost predicate IsPivot(h: seq<Message>, k: int, pivot: nat) {
    if k <= 0 then pivot == |h|
    else if Assistants(h) < k then pivot == 1
    else pivot < |h| && h[pivot].role == Assistant && Assistants(h[pivot..]) == k
  }

  lemma OneAssistant(m: Message)
    requires m.role == Assistant
    ensures Assistants([m]) == 1
  {
    assert [m][1..] == [];
  }

  lemma SliceTwice<T>(s: seq<T>, lo: nat, hi: nat)
    requires lo < hi <= |s|
    ensures s[lo..] == [s[lo]] + s[lo + 1..hi] + s[hi..]
  {
  }

  lemma PivotUnique(h: seq<Message>, k: int, p: nat, q: nat)
    requires IsPivot(h, k, p) && IsPivot(h, k, q)
    ensures p == q
  {
    if k > 0 && Assistants(h) >= k && p != q {
      var lo, hi := if p < q then p else q, if p < q then q else p;
      SliceTwice(h, lo, hi);
      OneAssistant(h[lo]);
      AssistantsConcat([h[lo]], h[lo + 1..hi]);
      AssistantsConcat([h[lo]] + h[lo + 1..hi], h[hi..]);
    }
  }

  /** Index where the last `keepLastK` assistant messages start. */
  method FindPivot(h: seq<Message>, keepLastK: int) returns (pivot: nat)
    ensures IsPivot(h, keepLastK, pivot)
  {
    if keepLastK <= 0 {
      return |h|;
    }
    var count := 0;
    var i := |h|;
    assert h[i..] == [];
    while i > 0
      invariant 0 <= i <= |h|
      invariant count == Assistants(h[i..]) < keepLastK
    {
      i := i - 1;
      assert h[i..][1..] == h[i + 1..];
      if h[i].role == Assistant {
        count := count + 1;
        if count == keepLastK {
          assert h == h[..i] + h[i..];
          AssistantsConcat(h[..i], h[i..]);
          return i;
        }
      }
    }
    assert h[0..] == h;
    return 1;
  }

  /** The pivot as a function, for specifications. */
  function Pivot(h: seq<Message>, k: int): (p: nat)
    ensures IsPivot(h, k, p)
  {
    if k <= 0 then |h|
    else if Assistants(h) < k then 1
    else
      assert h == [h[0]] + h[1..];
      AssistantsConcat([h[0]], h[1..]);
      if Assistants(h[1..]) >= k then
        var p := Pivot(h[1..], k);
        assert h[1..][p..] == h[p + 1..];
        p + 1
      else
        assert h[0..] == h;
        0
  }

  // ------------------------------------------------------------------
  // Synthetic mail
  // ------------------------------------------------------------------

  function Truthy(j: Json): bool {
    match j
    case JNull => false
    case JBool(b) => b
    case JNum(n) => n != 0
    case JStr(s) => s != ""
    case JList(items) => items != []
    case JObj(fields) => fields != map[]
  }

  function Get(o: Obj, key: string): Json {
    if key in o then o[key] else JNull
  }

  /** `o.get(key, default)` rendered as text. */
  function Shown(env: Env, o: Obj, key: string, default: string): string {
    if key in o then ShowJson(env, o[key]) else default
  }

  function ShowJson(env: Env, j: Json): string {
    if j.JStr? then j.s else env.show(j)
  }

  /** `o.get(key) or ""` as text. */
  function TextOrEmpty(env: Env, o: Obj, key: string): string {
    if Truthy(Get(o, key)) then ShowJson(env, Get(o, key)) else ""
  }

  function Join(sep: string, parts: seq<string>): string {
    if parts == [] then ""
    else if |parts| == 1 then parts[0]
    else parts[0] + sep + Join(sep, parts[1..])
  }

  function FirstLine(s: string): string {
    if s == "" || s[0] == '\n' then "" else [s[0]] + FirstLine(s[1..])
  }

  function TryParseJson(env: Env, v: Json): Option<Obj> {
    match v
    case JObj(o) => Some(o)
    case JStr(s) => env.parse(s)
    case _ => None
  }

  function ArtifactMessage(role: Role, text: string): Message {
    Message(role, [Text(text)], true)
  }

  function MailInHeader(env: Env, input: Obj, parsed: Obj, title: string, body: string): string {
    var msgId := Shown(env, parsed, "id", Shown(env, input, "msg_id", "?"));
    var urgency := TextOrEmpty(env, parsed, "urgency");
    var bits :=
      ["from " + Shown(env, parsed, "sender", "?"), "msg #" + msgId]
      + (if urgency != "" then ["urgency=" + urgency] else [])
      + (if Truthy(Get(parsed, "parent_msg_id"))
         then ["reply_to=#" + ShowJson(env, Get(parsed, "parent_msg_id"))] else [])
      + (if title != "" && env.strip(title) != ""
            && env.strip(title) != env.strip(FirstLine(env.strip(body)))
         then ["title=" + env.repr(title)] else []);
    "[Mail " + Join(" ", bits) + "]"
  }

  /** `mailbox_get_message` becomes a user message that carries the mail body verbatim. */
  function SynthMailIn(env: Env, input: Obj, result: Json, isError: bool): (r: Option<Message>)
    ensures r.Some? <==> !isError && result != JNull
                         && TryParseJson(env, result).Some? && TryParseJson(env, result).value != map[]
    ensures r.Some? ==>
      var body := TextOrEmpty(env, TryParseJson(env, result).value, "body");
      && r.value.role == User && r.value.artifact && |r.value.content| == 1
      && r.value.content[0].Text?
      && IsMailText(r.value.content[0].text)
      && |body| < |r.value.content[0].text|
      && r.value.content[0].text[|r.value.content[0].text| - |body| - 1..] == "\n" + body
  {
    if isError || result == JNull then None
    else
      var parsed := TryParseJson(env, result);
      if parsed.None? || parsed.value == map[] then None
      else
        var title := TextOrEmpty(env, parsed.value, "title");
        var body := TextOrEmpty(env, parsed.value, "body");
        var header := MailInHeader(env, input, parsed.value, title, body);
        Some(ArtifactMessage(User, header + "\n" + body))
  }

  function Recipients(env: Env, to: Json): string {
    match to
    case JList(items) => Join(", ", ShowAll(env, items))
    case JStr(s) => s
    case _ => "?"
  }

  function ShowAll(env: Env, items: seq<Json>): seq<string> {
    seq(|items|, i requires 0 <= i < |items| => ShowJson(env, items[i]))
  }

  /** `part` when the field is set, as a header bit. */
  function Bit(env: Env, input: Obj, key: string, caption: string): seq<string> {
    if Truthy(Get(input, key)) then [caption + ShowJson(env, Get(input, key))] else []
  }

  function MailOutHeader(env: Env, input: Obj): string {
    var bits :=
      ["to " + Recipients(env, Get(input, "to"))]
      + Bit(env, input, "reply_to", "reply_to=#")
      + (if Get(input, "urgency") != JStr("normal") then Bit(env, input, "urgency", "urgency=") else [])
      + (if Truthy(Get(input, "deliver_in")) then Bit(env, input, "deliver_in", "deliver_in=")
         else Bit(env, input, "deliver_at", "deliver_at="))
      + Bit(env, input, "recur_every", "recur_every=");
    "[Sent " + Join(" ", bits) + "]"
  }

  /** `mailbox_send` becomes an assistant message that carries the sent body verbatim. */
  function SynthMailOut(env: Env, input: Obj): (r: Option<Message>)
    ensures r.Some? <==> Get(input, "body").JStr?
    ensures r.Some? ==>
      var body := Get(input, "body").s;
      && r.value.role == Assistant && r.value.artifact && |r.value.content| == 1
      && r.value.content[0].Text?
      && IsMailText(r.value.content[0].text)
      && |body| < |r.value.content[0].text|
      && r.value.content[0].text[|r.value.content[0].text| - |body| - 1..] == "\n" + body
  {
    if Get(input, "body").JStr?
    then Some(ArtifactMessage(Assistant, MailOutHeader(env, input) + "\n" + Get(input, "body").s))
    else None
  }

  /** How synthetic mail is told from a summary seam: by its opening words. */
  predicate IsMailText(t: string) {
    "[Mail " <= t || "[Sent " <= t
  }

  predicate IsMailArtifact(m: Message) {
    m.artifact && m.content != [] && m.content[0].Text? && IsMailText(m.content[0].text)
  }

  // ------------------------------------------------------------------
  // What one tool call leaves behind
  // ------------------------------------------------------------------

  datatype ToolOutcome = ToolOutcome(result: Json, isError: bool)

  /** Tool results by id, the last one winning; a missing id is not indexed. */
  function Index(rs: seq<Block>): map<string, ToolOutcome> {
    if rs == [] then map[]
    else
      var last := rs[|rs| - 1];
      var m := Index(rs[..|rs| - 1]);
      if last.ToolResult? && last.resId != ""
      then m[last.resId := ToolOutcome(last.result, last.isError)] else m
  }

  function Lookup(index: map<string, ToolOutcome>, id: string): ToolOutcome {
    if id in index then index[id] else ToolOutcome(JNull, false)
  }

  /** The mail that one answered tool call stands for. */
  function MailOfCall(env: Env, call: Block, out: ToolOutcome): seq<Message>
    requires call.ToolUse?
  {
    match ToolPolicy(call.name)
    case PreserveIn =>
      var m := SynthMailIn(env, call.input, out.result, out.isError);
      if m.Some? then [m.value] else []
    case PreserveOut =>
      var m := SynthMailOut(env, call.input);
      if m.Some? then [m.value] else []
    case _ => []
  }

  /** The summary lines that one answered tool call contributes. */
  function TraceOfCall(env: Env, call: Block, out: ToolOutcome): seq<string>
    requires call.ToolUse?
  {
    match ToolPolicy(call.name)
    case PreserveIn =>
      if SynthMailIn(env, call.input, out.result, out.isError).Some? then []
      else [env.badResultLine(call.name, call.input)]
    case Trace => [env.traceLine(call.name, call.input, out.result, out.isError)]
    case _ => []
  }

  // ------------------------------------------------------------------
  // The mail record of a history: what must survive
  // ------------------------------------------------------------------

  function MailOf(env: Env): (Block, ToolOutcome) -> seq<Message> {
    (call: Block, out: ToolOutcome) => if call.ToolUse? then MailOfCall(env, call, out) else []
  }

  function TraceOf(env: Env): (Block, ToolOutcome) -> seq<string> {
    (call: Block, out: ToolOutcome) => if call.ToolUse? then TraceOfCall(env, call, out) else []
  }

  /** What a list of calls yields when each is answered by the result at its own position. */
  function Exchange<T>(f: (Block, ToolOutcome) -> seq<T>, calls: seq<Block>, results: seq<Block>): seq<T>
  {
    if calls == [] then []
    else
      var out := if results == [] || !results[0].ToolResult? then ToolOutcome(JNull, false)
                 else ToolOutcome(results[0].result, results[0].isError);
      f(calls[0], out) + Exchange(f, calls[1..], if results == [] then [] else results[1..])
  }

  /** The mail of one message, given the content of the message right after it. */
  function MailAt(env: Env, m: Message, next: seq<Block>): seq<Message> {
    if m.artifact then (if IsMailArtifact(m) then [m] else [])
    else if m.role == Assistant then Exchange(MailOf(env), Uses(m.content), Results(next))
    else []
  }

  /** The ordered mail record: mail artifacts stand for themselves; every other assistant
      message contributes its mail calls, as answered by the message right after it. */
  function MailRecord(env: Env, h: seq<Message>): seq<Message> {
    if h == [] then []
    else MailAt(env, h[0], if |h| > 1 then h[1].content else []) + MailRecord(env, h[1..])
  }

  // ------------------------------------------------------------------
  // The compaction itself
  // ------------------------------------------------------------------

  /** What one block yields when results are looked up by id. */
  function OnBlock<T>(f: (Block, ToolOutcome) -> seq<T>, index: map<string, ToolOutcome>): Block -> seq<T> {
    (b: Block) => if b.ToolUse? then f(b, Lookup(index, b.useId)) else []
  }

  /** What one elided message yields, with one index for the whole range. */
  function OnMessage<T>(f: (Block, ToolOutcome) -> seq<T>, index: map<string, ToolOutcome>): Message -> seq<T> {
    (m: Message) => if m.role == Assistant then FlatMap(OnBlock(f, index), m.content) else []
  }

  function Carried(ms: seq<Message>): seq<Message> {
    if ms == [] then []
    else (if ms[0].artifact then [ms[0]] else []) + Carried(ms[1..])
  }

  function Fresh(ms: seq<Message>): seq<Message> {
    if ms == [] then []
    else (if ms[0].artifact then [] else [ms[0]]) + Fresh(ms[1..])
  }

  const SUMMARY_OPENING := "[Compact summary of prior turns"

  /** The seam that stands for the elided work; degraded when the model gave no text. */
  function SummaryMessage(env: Env, work: seq<string>, summary: string): (r: (Message, bool))
    ensures r.0.role == User && r.0.artifact && |r.0.content| == 1 && r.0.content[0].Text?
    ensures SUMMARY_OPENING <= r.0.content[0].text
    ensures r.1 <==> work != [] && summary == ""
  {
    if work == [] then
      (ArtifactMessage(User, SUMMARY_OPENING
        + " — no substantive tool work to summarize between the mail messages above." + env.transcriptRef + "]"), false)
    else if summary == "" then
      (ArtifactMessage(User, SUMMARY_OPENING + "." + env.transcriptRef + "]\n\nTool actions during elided turns:\n"
        + Join("\n", if |work| <= 40 then work else work[..40])), true)
    else
      (ArtifactMessage(User, SUMMARY_OPENING + "." + env.transcriptRef + "]\n\n" + summary), false)
  }

  datatype CompactionOutcome = CompactionOutcome(messages: seq<Message>, degraded: bool)

  /** What replaces the elided range. */
  function Replacement(env: Env, elided: seq<Message>, summary: string): CompactionOutcome {
    var carried := Carried(elided);
    var recent := Fresh(elided);
    var index := Index(AllResults(recent));
    var synthetic := FlatMap(OnMessage(MailOf(env), index), recent);
    var work := FlatMap(OnMessage(TraceOf(env), index), recent);
    if work != [] || carried == [] then
      var (seam, degraded) := SummaryMessage(env, work, summary);
      CompactionOutcome(carried + synthetic + [seam], degraded)
    else
      CompactionOutcome(carried + synthetic, false)
  }

  /** The history with everything between its first message and `pivot` replaced. */
  function Splice(h: seq<Message>, pivot: nat, middle: seq<Message>): seq<Message>
    requires 1 <= pivot <= |h|
  {
    h[..1] + middle + h[pivot..]
  }

  predicate TooShort(h: seq<Message>, keepLastK: int) {
    |h| < 3 || Pivot(h, keepLastK) <= 1
  }

  function Compact(env: Env, h: seq<Message>, keepLastK: int, summary: string): CompactionOutcome {
    if TooShort(h, keepLastK) then CompactionOutcome(h, false)
    else
      var pivot := Pivot(h, keepLastK);
      var r := Replacement(env, h[1..pivot], summary);
      CompactionOutcome(Splice(h, pivot, r.messages), r.degraded)
  }

  // ------------------------------------------------------------------
  // The code, against those functions
  // ------------------------------------------------------------------

  lemma IndexSnoc(rs: seq<Block>, r: Block)
    ensures Index(rs + [r])
         == if r.ToolResult? && r.resId != ""
            then Index(rs)[r.resId := ToolOutcome(r.result, r.isError)] else Index(rs)
  {
    assert (rs + [r])[..|rs|] == rs;
  }

  lemma ResultsTake(bs: seq<Block>, j: nat)
    requires j < |bs|
    ensures Results(bs[..j + 1]) == Results(bs[..j]) + (if bs[j].ToolResult? then [bs[j]] else [])
  {
    assert bs[..j + 1] == bs[..j] + [bs[j]];
    ResultsConcat(bs[..j], [bs[j]]);
  }

  lemma AllResultsTake(h: seq<Message>, i: nat)
    requires i < |h|
    ensures AllResults(h[..i + 1]) == AllResults(h[..i]) + Results(h[i].content)
  {
    assert h[..i + 1] == h[..i] + [h[i]];
    AllResultsConcat(h[..i], [h[i]]);
    assert AllResults([h[i]]) == Results(h[i].content) + [];
  }

  lemma IndexStep(before: seq<Block>, bs: seq<Block>, j: nat)
    requires j < |bs|
    ensures Index(before + Results(bs[..j + 1]))
         == if bs[j].ToolResult? && bs[j].resId != ""
            then Index(before + Results(bs[..j]))[bs[j].resId := ToolOutcome(bs[j].result, bs[j].isError)]
            else Index(before + Results(bs[..j]))
  {
    ResultsTake(bs, j);
    IndexSnoc(before + Results(bs[..j]), bs[j]);
    hide Index, Results;
    if bs[j].ToolResult? {
      assert before + Results(bs[..j + 1]) == before + Results(bs[..j]) + [bs[j]];
    } else {
      assert before + Results(bs[..j + 1]) == before + Results(bs[..j]);
    }
  }

  lemma IndexStarts(bs: seq<Block>)
    ensures Index(AllResults([])) == map[] && Results(bs[..0]) == []
  {
  }

  /** First pass of the extraction: tool results by id. */
  method IndexResults(elided: seq<Message>) returns (index: map<string, ToolOutcome>)
    ensures index == Index(AllResults(elided))
  {
    hide Index, Results, AllResults;
    index := map[];
    IndexStarts([]);
    assert elided[..0] == [];
    for i := 0 to |elided|
      invariant index == Index(AllResults(elided[..i]))
    {
      var bs := elided[i].content;
      ghost var before := AllResults(elided[..i]);
      IndexStarts(bs);
      assert before + [] == before;
      for j := 0 to |bs|
        invariant index == Index(before + Results(bs[..j]))
      {
        IndexStep(before, bs, j);
        if bs[j].ToolResult? && bs[j].resId != "" {
          index := index[bs[j].resId := ToolOutcome(bs[j].result, bs[j].isError)];
        }
      }
      assert bs[..|bs|] == bs;
      AllResultsTake(elided, i);
    }
    assert elided[..|elided|] == elided;
  }

  /** What the extraction does with one tool call. */
  method ExtractCall(env: Env, index: map<string, ToolOutcome>, call: Block)
    returns (mail: seq<Message>, lines: seq<string>)
    requires call.ToolUse?
    ensures mail == MailOfCall(env, call, Lookup(index, call.useId))
    ensures lines == TraceOfCall(env, call, Lookup(index, call.useId))
  {
    mail, lines := [], [];
    var out := Lookup(index, call.useId);
    match ToolPolicy(call.name) {
      case PreserveIn =>
        var m := SynthMailIn(env, call.input, out.result, out.isError);
        if m.Some? {
          mail := [m.value];
        } else {
          lines := [env.badResultLine(call.name, call.input)];
        }
      case PreserveOut =>
        var m := SynthMailOut(env, call.input);
        if m.Some? {
          mail := [m.value];
        }
      case Drop =>
      case Trace =>
        lines := [env.traceLine(call.name, call.input, out.result, out.isError)];
    }
  }

  /** Walks the elided range in order, turning calls into mail and trace lines. */
  method ExtractSyntheticHistory(env: Env, elided: seq<Message>)
    returns (synthetic: seq<Message>, work: seq<string>)
    ensures synthetic == FlatMap(OnMessage(MailOf(env), Index(AllResults(elided))), elided)
    ensures work == FlatMap(OnMessage(TraceOf(env), Index(AllResults(elided))), elided)
  {
    var index := IndexResults(elided);
    ghost var mailOf, traceOf := OnMessage(MailOf(env), index), OnMessage(TraceOf(env), index);
    synthetic, work := [], [];
    for i := 0 to |elided|
      invariant synthetic == FlatMap(mailOf, elided[..i])
      invariant work == FlatMap(traceOf, elided[..i])
    {
      FlatMapTake(mailOf, elided, i);
      FlatMapTake(traceOf, elided, i);
      if elided[i].role == Assistant {
        var mail, lines := ExtractMessage(env, index, elided[i].content);
        synthetic, work := synthetic + mail, work + lines;
      }
    }
    assert elided[..|elided|] == elided;
  }

  /** The inner loop: the blocks of one assistant message. */
  method ExtractMessage(env: Env, index: map<string, ToolOutcome>, bs: seq<Block>)
    returns (mail: seq<Message>, lines: seq<string>)
    ensures mail == FlatMap(OnBlock(MailOf(env), index), bs)
    ensures lines == FlatMap(OnBlock(TraceOf(env), index), bs)
  {
    ghost var mailOf, traceOf := OnBlock(MailOf(env), index), OnBlock(TraceOf(env), index);
    mail, lines := [], [];
    for j := 0 to |bs|
      invariant mail == FlatMap(mailOf, bs[..j])
      invariant lines == FlatMap(traceOf, bs[..j])
    {
      FlatMapTake(mailOf, bs, j);
      FlatMapTake(traceOf, bs, j);
      if bs[j].ToolUse? {
        var m, t := ExtractCall(env, index, bs[j]);
        mail, lines := mail + m, lines + t;
      }
    }
    assert bs[..|bs|] == bs;
  }

  method CompactMessages(env: Env, h: seq<Message>, keepLastK: int, summary: string)
    returns (outcome: CompactionOutcome)
    ensures outcome == Compact(env, h, keepLastK, summary)
  {
    if |h| < 3 {
      return CompactionOutcome(h, false);
    }
    var pivot := FindPivot(h, keepLastK);
    PivotUnique(h, keepLastK, pivot, Pivot(h, keepLastK));
    if pivot <= 1 {
      return CompactionOutcome(h, false);
    }
    var keptHead, elided, keptTail := h[..1], h[1..pivot], h[pivot..];
    var carried, recent := Carried(elided), Fresh(elided);
    var synthetic, work := ExtractSyntheticHistory(env, recent);
    var newMsgs := carried + synthetic;
    var degraded := false;
    if work != [] || carried == [] {
      var seam, lossy := SummaryMessage(env, work, summary).0, SummaryMessage(env, work, summary).1;
      newMsgs := newMsgs + [seam];
      degraded := lossy;
    }
    return CompactionOutcome(keptHead + newMsgs + keptTail, degraded);
  }
}
