/**
 What a compaction puts in place of the elided messages, told from their blocks: the artifacts of
 earlier compactions, the mail, and at most one seam that carries the elided work.
 */
module CompactionSeam {
  import opened Wrappers
  import opened Messages
  import opened Seqs
  import opened Compaction

  // ------------------------------------------------------------------
  // The reference, over blocks
  // ------------------------------------------------------------------

  function OldArtifact(): Message -> seq<Message> {
    (m: Message) => if m.artifact then [m] else []
  }

  function CallIn(): Block -> seq<Block> {
    (b: Block) => if b.ToolUse? then [b] else []
  }

  function ResultIn(): Block -> seq<Block> {
    (b: Block) => if b.ToolResult? then [b] else []
  }

  /** The tool calls that no earlier compaction has seen. */
  function NewCalls(): Message -> seq<Block> {
    (m: Message) => if !m.artifact && m.role == Assistant then FlatMap(CallIn(), m.content) else []
  }

  function NewResults(): Message -> seq<Block> {
    (m: Message) => if m.artifact then [] else FlatMap(ResultIn(), m.content)
  }

  /** The last result with this id; nothing for a blank id. */
  function Answer(rs: seq<Block>, id: string): ToolOutcome {
    if rs == [] || id == "" then ToolOutcome(JNull, false)
    else
      var last := rs[|rs| - 1];
      if last.ToolResult? && last.resId == id then ToolOutcome(last.result, last.isError)
      else Answer(rs[..|rs| - 1], id)
  }

  /** Listings and progress notes leave nothing behind. */
  predicate LeavesNothing(name: string) {
    name in {"mailbox_read", "mark_read", "list_agents", "list_personas", "list_models", "list_tasks",
             "list_scheduled_mail", "query_task_status", "report_progress"}
  }

  function MailFor(env: Env, rs: seq<Block>): Block -> seq<Message> {
    (c: Block) =>
      if !c.ToolUse? then []
      else if c.name == "mailbox_get_message" then
        var a := Answer(rs, c.useId);
        var m := SynthMailIn(env, c.input, a.result, a.isError);
        if m.Some? then [m.value] else []
      else if c.name == "mailbox_send" then
        var m := SynthMailOut(env, c.input);
        if m.Some? then [m.value] else []
      else []
  }

  /** One line of work: of every call that is neither mail nor nothing, and of a fetch that
      brought no mail. */
  function LineFor(env: Env, rs: seq<Block>): Block -> seq<string> {
    (c: Block) =>
      if !c.ToolUse? || c.name == "mailbox_send" || LeavesNothing(c.name) then []
      else
        var a := Answer(rs, c.useId);
        if c.name != "mailbox_get_message" then [env.traceLine(c.name, c.input, a.result, a.isError)]
        else if SynthMailIn(env, c.input, a.result, a.isError).Some? then []
        else [env.badResultLine(c.name, c.input)]
  }

  function OnOwnLine(): string -> seq<char> {
    (line: string) => "\n" + line
  }

  predicate EndsIn(t: string, end: string) {
    |end| <= |t| && t[|t| - |end|..] == end
  }

  /** A seam carries the model's summary; when there is none, the first 40 lines of work as they
      are; and when there was no work, only the mark that something was elided. */
  predicate IsSeam(env: Env, m: Message, work: seq<string>, summary: string) {
    && m.role == User && m.artifact && |m.content| == 1 && m.content[0].Text?
    && var t := m.content[0].text;
       && "[Compact summary of prior turns" <= t
       && EndsIn(t, env.transcriptRef + "]"
                    + if work == [] then ""
                      else if summary != "" then "\n\n" + summary
                      else "\n\nTool actions during elided turns:"
                           + FlatMap(OnOwnLine(), if |work| <= 40 then work else work[..40]))
  }

  // ------------------------------------------------------------------
  // The parts
  // ------------------------------------------------------------------

  lemma {:induction false} CarriedIs(ms: seq<Message>)
    ensures Carried(ms) == FlatMap(OldArtifact(), ms)
  {
    if ms != [] { CarriedIs(ms[1..]); }
  }

  lemma {:induction false} ResultsIs(bs: seq<Block>)
    ensures Results(bs) == FlatMap(ResultIn(), bs)
  {
    if bs != [] { ResultsIs(bs[1..]); }
  }

  lemma {:induction false} NewResultsIs(ms: seq<Message>)
    ensures AllResults(Fresh(ms)) == FlatMap(NewResults(), ms)
  {
    if ms != [] {
      NewResultsIs(ms[1..]);
      ResultsIs(ms[0].content);
      hide Results;
      if ms[0].artifact {
        assert Fresh(ms) == Fresh(ms[1..]);
      } else {
        assert Fresh(ms) == [ms[0]] + Fresh(ms[1..]);
        assert ([ms[0]] + Fresh(ms[1..]))[1..] == Fresh(ms[1..]);
      }
    }
  }

  lemma {:induction false} LookupIs(rs: seq<Block>, id: string)
    ensures Lookup(Index(rs), id) == Answer(rs, id)
    ensures "" !in Index(rs)
  {
    if rs != [] { LookupIs(rs[..|rs| - 1], id); }
  }

  lemma {:induction false} BlocksByCall<T>(f: (Block, ToolOutcome) -> seq<T>, index: map<string, ToolOutcome>, bs: seq<Block>)
    ensures FlatMap(OnBlock(f, index), bs) == FlatMap(OnBlock(f, index), FlatMap(CallIn(), bs))
  {
    if bs != [] {
      BlocksByCall(f, index, bs[1..]);
      FlatMapConcat(OnBlock(f, index), CallIn()(bs[0]), FlatMap(CallIn(), bs[1..]));
      FlatMapOne(OnBlock(f, index), bs[0]);
    }
  }

  lemma {:induction false} RangeByCall<T>(f: (Block, ToolOutcome) -> seq<T>, index: map<string, ToolOutcome>, ms: seq<Message>)
    ensures FlatMap(OnMessage(f, index), Fresh(ms)) == FlatMap(OnBlock(f, index), FlatMap(NewCalls(), ms))
  {
    if ms != [] {
      RangeByCall(f, index, ms[1..]);
      BlocksByCall(f, index, ms[0].content);
      hide OnBlock;
      FlatMapConcat(OnBlock(f, index), NewCalls()(ms[0]), FlatMap(NewCalls(), ms[1..]));
      if ms[0].artifact {
        assert Fresh(ms) == Fresh(ms[1..]);
      } else {
        assert Fresh(ms) == [ms[0]] + Fresh(ms[1..]);
        FlatMapConcat(OnMessage(f, index), [ms[0]], Fresh(ms[1..]));
        FlatMapOne(OnMessage(f, index), ms[0]);
      }
    }
  }

  lemma {:induction false} SameOf<A, B>(f: A -> seq<B>, g: A -> seq<B>, xs: seq<A>)
    requires forall x :: x in xs ==> f(x) == g(x)
    ensures FlatMap(f, xs) == FlatMap(g, xs)
  {
    if xs != [] { SameOf(f, g, xs[1..]); }
  }

  lemma OneCall(env: Env, rs: seq<Block>, c: Block)
    ensures OnBlock(MailOf(env), Index(rs))(c) == MailFor(env, rs)(c)
    ensures OnBlock(TraceOf(env), Index(rs))(c) == LineFor(env, rs)(c)
  {
    hide Index, Answer, SynthMailIn, SynthMailOut, LeavesNothing;
    if c.ToolUse? {
      LookupIs(rs, c.useId);
      SilentTools(c.name);
    }
  }

  lemma SilentTools(name: string)
    ensures LeavesNothing(name) <==> ToolPolicy(name) == Drop
    ensures ToolPolicy(name) == PreserveIn <==> name == "mailbox_get_message"
    ensures ToolPolicy(name) == PreserveOut <==> name == "mailbox_send"
  {
  }

  /** The mail and the work of a range are those of its calls, one by one. */
  lemma RangeIs(env: Env, ms: seq<Message>)
    ensures var calls, rs := FlatMap(NewCalls(), ms), FlatMap(NewResults(), ms);
            var index := Index(AllResults(Fresh(ms)));
            && FlatMap(OnMessage(MailOf(env), index), Fresh(ms)) == FlatMap(MailFor(env, rs), calls)
            && FlatMap(OnMessage(TraceOf(env), index), Fresh(ms)) == FlatMap(LineFor(env, rs), calls)
  {
    hide Index, MailFor, LineFor, MailOf, TraceOf, OnMessage, FlatMap;
    var calls, rs := FlatMap(NewCalls(), ms), FlatMap(NewResults(), ms);
    NewResultsIs(ms);
    RangeByCall(MailOf(env), Index(rs), ms);
    RangeByCall(TraceOf(env), Index(rs), ms);
    forall c | c in calls
      ensures OnBlock(MailOf(env), Index(rs))(c) == MailFor(env, rs)(c)
      ensures OnBlock(TraceOf(env), Index(rs))(c) == LineFor(env, rs)(c)
    {
      OneCall(env, rs, c);
    }
    SameOf(OnBlock(MailOf(env), Index(rs)), MailFor(env, rs), calls);
    SameOf(OnBlock(TraceOf(env), Index(rs)), LineFor(env, rs), calls);
  }

  lemma {:induction false} JoinIsLines(lines: seq<string>)
    requires lines != []
    ensures "\n" + Join("\n", lines) == FlatMap(OnOwnLine(), lines)
  {
    if |lines| > 1 {
      JoinIsLines(lines[1..]);
      hide Join;
      JoinMore("\n", lines);
      assert FlatMap(OnOwnLine(), lines) == ("\n" + lines[0]) + FlatMap(OnOwnLine(), lines[1..]);
    } else {
      FlatMapOne(OnOwnLine(), lines[0]);
      assert lines == [lines[0]];
    }
  }

  lemma JoinMore(sep: string, parts: seq<string>)
    requires |parts| > 1
    ensures Join(sep, parts) == parts[0] + sep + Join(sep, parts[1..])
  {
  }

  lemma EndOf(front: string, ref: string, mark: string, rest: string, close: string, gap: string, more: string)
    requires mark + rest == close + (gap + more)
    ensures EndsIn(front + ref + mark + rest, ref + close + (gap + more))
  {
    Regroup(front + ref, mark, rest);
    Regroup(ref, close, gap + more);
    Regroup(front, ref, mark + rest);
    var t, end := front + (ref + (mark + rest)), ref + (mark + rest);
    assert t[|t| - |end|..] == end;
  }

  lemma NothingAfter(s: string)
    ensures s + "" == s
  {
  }

  lemma Heading(rest: string, more: string)
    requires "\n" + rest == more
    ensures "]\n\nTool actions during elided turns:\n" + rest == "]" + ("\n\nTool actions during elided turns:" + more)
  {
  }

  lemma SeamIs(env: Env, work: seq<string>, summary: string)
    ensures IsSeam(env, SummaryMessage(env, work, summary).0, work, summary)
    ensures SummaryMessage(env, work, summary).1 <==> work != [] && summary == ""
  {
    hide Join, FlatMap, EndsIn;
    if work == [] {
      var front := SUMMARY_OPENING + " — no substantive tool work to summarize between the mail messages above.";
      EndOf(front, env.transcriptRef, "]", "", "]", "", "");
      NothingAfter(front + env.transcriptRef + "]");
      NothingAfter(env.transcriptRef + "]");
      NothingAfter("");
    } else if summary != "" {
      assert "]\n\n" + summary == "]" + ("\n\n" + summary);
      EndOf(SUMMARY_OPENING + ".", env.transcriptRef, "]\n\n", summary, "]", "\n\n", summary);
    } else {
      var first := if |work| <= 40 then work else work[..40];
      JoinIsLines(first);
      Heading(Join("\n", first), FlatMap(OnOwnLine(), first));
      EndOf(SUMMARY_OPENING + ".", env.transcriptRef, "]\n\nTool actions during elided turns:\n", Join("\n", first),
            "]", "\n\nTool actions during elided turns:", FlatMap(OnOwnLine(), first));
    }
  }

  // ------------------------------------------------------------------
  // Main results
  // ------------------------------------------------------------------

  lemma CompactIs(env: Env, h: seq<Message>, k: int, summary: string, p: nat)
    requires IsPivot(h, k, p) && |h| >= 3 && 1 < p <= |h|
    ensures var r := Replacement(env, h[1..p], summary);
            Compact(env, h, k, summary) == CompactionOutcome(h[..1] + r.messages + h[p..], r.degraded)
  {
    hide Replacement;
    PivotUnique(h, k, p, Pivot(h, k));
  }

  lemma ReplacementInserts(env: Env, elided: seq<Message>, summary: string) returns (seam: seq<Message>)
    ensures var r := Replacement(env, elided, summary);
            var calls, rs := FlatMap(NewCalls(), elided), FlatMap(NewResults(), elided);
            var kept, mail, work := FlatMap(OldArtifact(), elided), FlatMap(MailFor(env, rs), calls), FlatMap(LineFor(env, rs), calls);
            && r.messages == kept + mail + seam
            && (if work == [] && kept != [] then seam == [] else |seam| == 1 && IsSeam(env, seam[0], work, summary))
            && (r.degraded <==> work != [] && summary == "")
  {
    hide FlatMap, Index, Carried, Fresh, IsSeam, OldArtifact, MailFor, LineFor, NewCalls, NewResults, OnMessage, MailOf,
         TraceOf, AllResults, SummaryMessage;
    CarriedIs(elided);
    RangeIs(env, elided);
    var calls, rs := FlatMap(NewCalls(), elided), FlatMap(NewResults(), elided);
    var work := FlatMap(LineFor(env, rs), calls);
    SeamIs(env, work, summary);
    seam := if work == [] && Carried(elided) != [] then [] else [SummaryMessage(env, work, summary).0];
    var kept, mail := Carried(elided), FlatMap(MailFor(env, rs), calls);
    assert kept + mail + [] == kept + mail;
  }

  /** With something to elide, a compaction puts between the first message and the last turns:
      the artifacts that were there, the mail of the new calls, and a seam, unless artifacts are
      there already and the new calls left no work. */
  lemma CompactionInserts(env: Env, h: seq<Message>, k: int, summary: string, p: nat) returns (seam: seq<Message>)
    requires IsPivot(h, k, p) && |h| >= 3 && 1 < p <= |h|
    ensures var out, elided := Compact(env, h, k, summary), h[1..p];
            var calls, rs := FlatMap(NewCalls(), elided), FlatMap(NewResults(), elided);
            var kept, mail, work := FlatMap(OldArtifact(), elided), FlatMap(MailFor(env, rs), calls), FlatMap(LineFor(env, rs), calls);
            && out.messages == h[..1] + (kept + mail + seam) + h[p..]
            && (if work == [] && kept != [] then seam == [] else |seam| == 1 && IsSeam(env, seam[0], work, summary))
            && (out.degraded <==> work != [] && summary == "")
  {
    hide FlatMap, IsSeam, OldArtifact, MailFor, LineFor, NewCalls, NewResults, Compact, Replacement;
    CompactIs(env, h, k, summary, p);
    seam := ReplacementInserts(env, h[1..p], summary);
  }

  /** A history with nothing to elide is returned as it is. */
  lemma NothingToElide(env: Env, h: seq<Message>, k: int, summary: string, p: nat)
    requires IsPivot(h, k, p) && (|h| < 3 || p <= 1)
    ensures Compact(env, h, k, summary) == CompactionOutcome(h, false)
  {
    PivotUnique(h, k, p, Pivot(h, k));
  }

  /** Any elided call that is neither mail nor one of those that leave nothing makes work, so its
      compaction leaves a seam that tells of it. */
  lemma {:induction false} CallsAreWork(env: Env, rs: seq<Block>, calls: seq<Block>, c: Block)
    requires c in calls && c.ToolUse? && c.name !in {"mailbox_get_message", "mailbox_send"} && !LeavesNothing(c.name)
    ensures var a := Answer(rs, c.useId);
            env.traceLine(c.name, c.input, a.result, a.isError) in FlatMap(LineFor(env, rs), calls)
  {
    if c != calls[0] {
      CallsAreWork(env, rs, calls[1..], c);
    }
  }

  // ------------------------------------------------------------------
  // What a mail artifact says of its mail
  // ------------------------------------------------------------------

  function Spaced(): string -> seq<char> {
    (bit: string) => " " + bit
  }

  lemma {:induction false} JoinBits(x: string, bits: seq<string>)
    ensures Join(" ", [x] + bits) == x + FlatMap(Spaced(), bits)
    decreases |bits|
  {
    if bits == [] {
      assert [x] + bits == [x];
    } else {
      JoinMore(" ", [x] + bits);
      assert ([x] + bits)[1..] == bits == [bits[0]] + bits[1..];
      JoinBits(bits[0], bits[1..]);
      hide Join;
      Regroup(x + " ", bits[0], FlatMap(Spaced(), bits[1..]));
      assert x + " " + bits[0] == x + (" " + bits[0]);
      Regroup(x, " " + bits[0], FlatMap(Spaced(), bits[1..]));
      assert FlatMap(Spaced(), bits) == (" " + bits[0]) + FlatMap(Spaced(), bits[1..]);
    }
  }

  function Part(there: bool, text: string): string {
    if there then " " + text else ""
  }

  lemma OneBit(there: bool, text: string)
    ensures FlatMap(Spaced(), if there then [text] else []) == Part(there, text)
  {
    if there { FlatMapOne(Spaced(), text); }
  }

  lemma BitsOf(x: string, a: seq<string>, b: seq<string>, c: seq<string>, d: seq<string>)
    ensures Join(" ", [x] + (a + b + c + d))
         == x + (FlatMap(Spaced(), a) + FlatMap(Spaced(), b) + FlatMap(Spaced(), c) + FlatMap(Spaced(), d))
  {
    hide Join, FlatMap;
    JoinBits(x, a + b + c + d);
    FlatMapConcat(Spaced(), a + b + c, d);
    FlatMapConcat(Spaced(), a + b, c);
    FlatMapConcat(Spaced(), a, b);
  }

  /** Python's notion of a false value. */
  lemma FalseValues(j: Json)
    ensures !Truthy(j) <==> j in [JNull, JBool(false), JNum(0), JStr(""), JList([]), JObj(map[])]
  {
    if j.JObj? { assert !Truthy(j) <==> j == JObj(map[]); }
  }

  /** A field that holds a text is that text; a missing one is empty. */
  lemma FieldTells(env: Env, o: Obj, key: string)
    ensures key in o && o[key].JStr? ==> TextOrEmpty(env, o, key) == o[key].s
    ensures key !in o || o[key] == JNull ==> TextOrEmpty(env, o, key) == ""
    ensures key in o && !o[key].JStr? ==> TextOrEmpty(env, o, key) == if Truthy(o[key]) then env.show(o[key]) else ""
  {
  }

  /** A result is read as the object it is, or the one its text decodes to. */
  lemma ResultTells(env: Env, result: Json)
    ensures TryParseJson(env, result)
         == if result.JObj? then Some(result.fields) else if result.JStr? then env.parse(result.s) else None
  {
  }

  /** An artifact is that first line and then the body. */
  lemma MailTexts(env: Env, input: Obj, result: Json)
    ensures var m, mail := SynthMailIn(env, input, result, false), TryParseJson(env, result);
            m.Some? ==>
              var title, body := TextOrEmpty(env, mail.value, "title"), TextOrEmpty(env, mail.value, "body");
              m.value == Message(User, [Text(MailInHeader(env, input, mail.value, title, body) + "\n" + body)], true)
    ensures var m := SynthMailOut(env, input);
            m.Some? ==>
              m.value == Message(Assistant, [Text(MailOutHeader(env, input) + "\n" + Get(input, "body").s)], true)
  {
    hide MailInHeader, MailOutHeader;
  }

  /** The first line of a fetched mail: who wrote it, its number, and what else is known. */
  lemma MailInTells(env: Env, input: Obj, mail: Obj, title: string, body: string)
    ensures var sender := if "sender" in mail then ShowJson(env, mail["sender"]) else "?";
            var id := if "id" in mail then ShowJson(env, mail["id"])
                      else if "msg_id" in input then ShowJson(env, input["msg_id"]) else "?";
            var urgency, parent := TextOrEmpty(env, mail, "urgency"), Get(mail, "parent_msg_id");
            var titled := title != "" && env.strip(title) != ""
                          && env.strip(title) != env.strip(FirstLine(env.strip(body)));
            MailInHeader(env, input, mail, title, body)
            == "[Mail " + ("from " + sender
                 + (" " + ("msg #" + id) + Part(urgency != "", "urgency=" + urgency)
                    + Part(Truthy(parent), "reply_to=#" + ShowJson(env, parent))
                    + Part(titled, "title=" + env.repr(title)))) + "]"
  {
    hide Join, FlatMap, ShowJson, Part, TextOrEmpty, Truthy, FirstLine;
    var sender := if "sender" in mail then ShowJson(env, mail["sender"]) else "?";
    var id := if "id" in mail then ShowJson(env, mail["id"])
              else if "msg_id" in input then ShowJson(env, input["msg_id"]) else "?";
    var urgency, parent := TextOrEmpty(env, mail, "urgency"), Get(mail, "parent_msg_id");
    var titled := title != "" && env.strip(title) != "" && env.strip(title) != env.strip(FirstLine(env.strip(body)));
    var x, y := "from " + sender, "msg #" + id;
    var b := if urgency != "" then ["urgency=" + urgency] else [];
    var c := if Truthy(parent) then ["reply_to=#" + ShowJson(env, parent)] else [];
    var d := if titled then ["title=" + env.repr(title)] else [];
    assert [x, y] + b + c + d == [x] + ([y] + b + c + d);
    BitsOf(x, [y], b, c, d);
    OneBit(true, y);
    assert FlatMap(Spaced(), [y]) == " " + y by { FlatMapOne(Spaced(), y); }
    OneBit(urgency != "", "urgency=" + urgency);
    OneBit(Truthy(parent), "reply_to=#" + ShowJson(env, parent));
    OneBit(titled, "title=" + env.repr(title));
  }

  lemma BitTells(env: Env, input: Obj, key: string, caption: string)
    ensures FlatMap(Spaced(), Bit(env, input, key, caption))
         == Part(Truthy(Get(input, key)), caption + ShowJson(env, Get(input, key)))
  {
    hide Truthy, ShowJson;
    OneBit(Truthy(Get(input, key)), caption + ShowJson(env, Get(input, key)));
  }

  /** The first line of a sent mail: its recipients, then how it was sent. */
  lemma MailOutTells(env: Env, input: Obj)
    ensures var urgency := Get(input, "urgency");
            var soon := Truthy(Get(input, "deliver_in"));
            MailOutHeader(env, input)
            == "[Sent " + ("to " + Recipients(env, Get(input, "to"))
                 + (Part(Truthy(Get(input, "reply_to")), "reply_to=#" + ShowJson(env, Get(input, "reply_to")))
                    + Part(Truthy(urgency) && urgency != JStr("normal"), "urgency=" + ShowJson(env, urgency))
                    + (if soon then Part(true, "deliver_in=" + ShowJson(env, Get(input, "deliver_in")))
                       else Part(Truthy(Get(input, "deliver_at")), "deliver_at=" + ShowJson(env, Get(input, "deliver_at"))))
                    + Part(Truthy(Get(input, "recur_every")), "recur_every=" + ShowJson(env, Get(input, "recur_every"))))) + "]"
  {
    hide Join, FlatMap, ShowJson, Part, Truthy, Recipients, Bit, Get;
    var x := "to " + Recipients(env, Get(input, "to"));
    var a := Bit(env, input, "reply_to", "reply_to=#");
    var b := if Get(input, "urgency") != JStr("normal") then Bit(env, input, "urgency", "urgency=") else [];
    var c := if Truthy(Get(input, "deliver_in")) then Bit(env, input, "deliver_in", "deliver_in=")
             else Bit(env, input, "deliver_at", "deliver_at=");
    var d := Bit(env, input, "recur_every", "recur_every=");
    assert [x] + a + b + c + d == [x] + (a + b + c + d);
    BitsOf(x, a, b, c, d);
    BitTells(env, input, "reply_to", "reply_to=#");
    BitTells(env, input, "urgency", "urgency=");
    BitTells(env, input, "deliver_in", "deliver_in=");
    BitTells(env, input, "deliver_at", "deliver_at=");
    BitTells(env, input, "recur_every", "recur_every=");
    NoPart("urgency=" + ShowJson(env, Get(input, "urgency")));
    assert FlatMap(Spaced(), []) == "" by { OneBit(false, ""); NoPart(""); }
  }

  lemma NoPart(text: string)
    ensures Part(false, text) == ""
  {
  }
}
