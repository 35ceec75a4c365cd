/**
 What compaction does to mail: exactly when it keeps every mail of the elided range, and what
 goes wrong otherwise. Results are looked up by tool id, so the ids decide.
 */
module CompactionMail {
  import opened Wrappers
  import opened Messages
  import opened Seqs
  import opened Compaction
  import opened CompactionLaws

  // ------------------------------------------------------------------
  // Mail records, part by part
  // ------------------------------------------------------------------

  /** A self-contained front part has its own mail record. */
  lemma {:induction false} MailRecordConcat(env: Env, a: seq<Message>, b: seq<Message>)
    requires WellPaired(a)
    ensures MailRecord(env, a + b) == MailRecord(env, a) + MailRecord(env, b)
  {
    MailRecordConcatFrom(env, a, b, 0);
    assert a[0..] == a;
  }

  lemma {:induction false} MailRecordConcatFrom(env: Env, a: seq<Message>, b: seq<Message>, i: nat)
    requires WellPaired(a) && i <= |a|
    ensures MailRecord(env, a[i..] + b) == MailRecord(env, a[i..]) + MailRecord(env, b)
    decreases |a| - i
  {
    hide MailRecord, MailAt;
    if i == |a| {
      NoMailRecord(env);
      assert a[i..] == [] && a[i..] + b == b;
    } else {
      assert a[i..][1..] == a[i + 1..];
      TailConcat(a[i..], b);
      MailRecordFirst(env, a[i..]);
      MailRecordFirst(env, a[i..] + b);
      MailRecordConcatFrom(env, a, b, i + 1);
      if i + 1 == |a| {
        assert PairedAt(a, i);
        NoCallNoMail(env, a[i], []);
        NoCallNoMail(env, a[i], if b == [] then [] else b[0].content);
      }
    }
  }

  lemma NoMailRecord(env: Env)
    ensures MailRecord(env, []) == []
  {
  }

  lemma MailRecordFirst(env: Env, h: seq<Message>)
    requires h != []
    ensures MailRecord(env, h) == MailAt(env, h[0], if |h| > 1 then h[1].content else []) + MailRecord(env, h[1..])
  {
    hide MailAt;
  }

  /** Without calls it does not matter what answers them. */
  lemma NoCallNoMail(env: Env, m: Message, results: seq<Block>)
    requires UseIds(m.content) == []
    ensures MailAt(env, m, results) == MailAt(env, m, [])
  {
    UsesAreUses(m.content);
    assert |Uses(m.content)| == |UseIds(m.content)|;
  }

  lemma MailOfThreeParts(env: Env, a: seq<Message>, b: seq<Message>, c: seq<Message>)
    requires WellPaired(a) && WellPaired(b)
    ensures MailRecord(env, a + b + c) == MailRecord(env, a) + MailRecord(env, b) + MailRecord(env, c)
  {
    hide MailRecord, WellPaired;
    Regroup(a, b, c);
    MailRecordConcat(env, a, b + c);
    MailRecordConcat(env, b, c);
    Regroup(MailRecord(env, a), MailRecord(env, b), MailRecord(env, c));
  }

  /** Artifacts that are all mail are their own mail record. */
  lemma {:induction false} MailOfMail(env: Env, ms: seq<Message>)
    requires forall m <- ms :: IsMailArtifact(m)
    ensures MailRecord(env, ms) == ms
  {
    if ms != [] { MailOfMail(env, ms[1..]); }
  }

  // ------------------------------------------------------------------
  // Calls and the results that answer them
  // ------------------------------------------------------------------

  /** A call and the outcome standing at its position in the message after it. */
  datatype Answer = Answer(call: Block, out: ToolOutcome)

  function Pair(): (Block, ToolOutcome) -> seq<Answer> {
    (call: Block, out: ToolOutcome) => [Answer(call, out)]
  }

  /** The answered calls of a history, in order. */
  function AnswersOf(h: seq<Message>): seq<Answer> {
    if h == [] then [] else AnswersAt(h[0], if |h| > 1 then h[1].content else []) + AnswersOf(h[1..])
  }

  function AnswersAt(m: Message, next: seq<Block>): seq<Answer> {
    if m.role == Assistant then Exchange(Pair(), Uses(m.content), Results(next)) else []
  }

  /** The mail of an answered call by its own result, which is what the record holds. */
  function Own(env: Env): Answer -> seq<Message> {
    (x: Answer) => if x.call.ToolUse? then MailOfCall(env, x.call, x.out) else []
  }

  /** The mail of an answered call by the result that its id is looked up to. */
  function Found(env: Env, index: map<string, ToolOutcome>): Answer -> seq<Message> {
    (x: Answer) => if x.call.ToolUse? then MailOfCall(env, x.call, Lookup(index, x.call.useId)) else []
  }

  lemma {:induction false} OwnExchange(env: Env, calls: seq<Block>, results: seq<Block>)
    ensures Exchange(MailOf(env), calls, results) == FlatMap(Own(env), Exchange(Pair(), calls, results))
  {
    if calls != [] {
      var rest := if results == [] then [] else results[1..];
      var out := if results == [] || !results[0].ToolResult? then ToolOutcome(JNull, false)
                 else ToolOutcome(results[0].result, results[0].isError);
      OwnExchange(env, calls[1..], rest);
      var x := Answer(calls[0], out);
      assert Exchange(Pair(), calls, results) == [x] + Exchange(Pair(), calls[1..], rest);
      assert Own(env)(x) == MailOf(env)(calls[0], out);
      hide MailOf, Own;
      FlatMapConcat(Own(env), [x], Exchange(Pair(), calls[1..], rest));
      FlatMapOne(Own(env), x);
    }
  }

  /** The record of new messages is the mail of their calls by their own results. */
  lemma {:induction false} RecordByAnswer(env: Env, h: seq<Message>)
    requires forall m <- h :: !m.artifact
    ensures MailRecord(env, h) == FlatMap(Own(env), AnswersOf(h))
  {
    if h != [] {
      var next := if |h| > 1 then h[1].content else [];
      RecordByAnswer(env, h[1..]);
      OwnExchange(env, Uses(h[0].content), Results(next));
      var first := if h[0].role == Assistant then Exchange(Pair(), Uses(h[0].content), Results(next)) else [];
      FlatMapConcat(Own(env), first, AnswersOf(h[1..]));
    }
  }

  lemma {:induction false} FoundInBlocks(env: Env, index: map<string, ToolOutcome>, bs: seq<Block>, results: seq<Block>)
    ensures FlatMap(OnBlock(MailOf(env), index), bs) == FlatMap(Found(env, index), Exchange(Pair(), Uses(bs), results))
  {
    if bs != [] {
      var f := OnBlock(MailOf(env), index);
      if bs[0].ToolUse? {
        assert Uses(bs) == [bs[0]] + Uses(bs[1..]);
        assert Uses(bs)[1..] == Uses(bs[1..]);
        var rest := if results == [] then [] else results[1..];
        var out := if results == [] || !results[0].ToolResult? then ToolOutcome(JNull, false)
                   else ToolOutcome(results[0].result, results[0].isError);
        var x := Answer(bs[0], out);
        FoundInBlocks(env, index, bs[1..], rest);
        assert Exchange(Pair(), Uses(bs), results) == [x] + Exchange(Pair(), Uses(bs[1..]), rest);
        assert Found(env, index)(x) == f(bs[0]);
        hide MailOf, Uses, Found;
        FlatMapConcat(Found(env, index), [x], Exchange(Pair(), Uses(bs[1..]), rest));
        FlatMapOne(Found(env, index), x);
      } else {
        assert Uses(bs) == Uses(bs[1..]);
        FoundInBlocks(env, index, bs[1..], results);
      }
    }
  }

  /** What compaction synthesizes from new messages is the mail of their calls by lookup. */
  lemma {:induction false} SynthByAnswer(env: Env, index: map<string, ToolOutcome>, h: seq<Message>)
    ensures FlatMap(OnMessage(MailOf(env), index), h) == FlatMap(Found(env, index), AnswersOf(h))
  {
    if h != [] {
      var next := if |h| > 1 then h[1].content else [];
      SynthByAnswer(env, index, h[1..]);
      FoundInBlocks(env, index, h[0].content, Results(next));
      var first := if h[0].role == Assistant then Exchange(Pair(), Uses(h[0].content), Results(next)) else [];
      FlatMapConcat(Found(env, index), first, AnswersOf(h[1..]));
    }
  }

  // ------------------------------------------------------------------
  // What a lookup finds
  // ------------------------------------------------------------------

  /** Position k holds the last result with this id. */
  ghost predicate IsLastWith(rs: seq<Block>, id: string, k: nat) {
    && k < |rs| && rs[k].ToolResult? && rs[k].resId == id
    && forall j :: k < j < |rs| && rs[j].ToolResult? ==> rs[j].resId != id
  }

  function OutcomeOf(r: Block): ToolOutcome
    requires r.ToolResult?
  {
    ToolOutcome(r.result, r.isError)
  }

  /** The last result with a non-blank id wins. */
  lemma {:induction false} LookupIsLast(rs: seq<Block>, id: string, k: nat)
    requires id != "" && IsLastWith(rs, id, k)
    ensures Lookup(Index(rs), id) == OutcomeOf(rs[k])
    decreases |rs|
  {
    var init, last := rs[..|rs| - 1], rs[|rs| - 1];
    if k < |rs| - 1 {
      assert init[k] == rs[k];
      assert forall j :: k < j < |init| ==> init[j] == rs[j];
      LookupIsLast(init, id, k);
      assert last.ToolResult? ==> last.resId != id;
    }
  }

  /** A blank id finds nothing. */
  lemma {:induction false} BlankFindsNothing(rs: seq<Block>)
    ensures "" !in Index(rs)
  {
    if rs != [] { BlankFindsNothing(rs[..|rs| - 1]); }
  }

  /** Some position holds the last result with an id that some result has. */
  lemma {:induction false} LastExists(rs: seq<Block>, r: Block) returns (k: nat)
    requires r in rs && r.ToolResult?
    ensures IsLastWith(rs, r.resId, k)
    decreases |rs|
  {
    var n := |rs| - 1;
    if rs[n].ToolResult? && rs[n].resId == r.resId {
      k := n;
    } else {
      var i :| 0 <= i < |rs| && rs[i] == r;
      assert rs[..n][i] == r;
      k := LastExists(rs[..n], r);
      assert forall j :: k < j < n ==> rs[..n][j] == rs[j];
    }
  }

  // ------------------------------------------------------------------
  // One fetch
  // ------------------------------------------------------------------

  function MailBy(env: Env, call: Block, out: ToolOutcome): Option<Message>
    requires call.ToolUse?
  {
    SynthMailIn(env, call.input, out.result, out.isError)
  }

  predicate IsFetch(x: Answer) {
    x.call.ToolUse? && ToolPolicy(x.call.name).PreserveIn?
  }

  /** The condition on a fetch, among the results of the range: with a blank id it has no mail
      to lose; otherwise the last result with its id gives the mail that its own result gives. */
  ghost predicate FetchKept(env: Env, rs: seq<Block>, x: Answer) {
    IsFetch(x) ==>
      if x.call.useId == "" then MailBy(env, x.call, x.out).None?
      else forall k: nat :: IsLastWith(rs, x.call.useId, k) ==>
             MailBy(env, x.call, OutcomeOf(rs[k])) == MailBy(env, x.call, x.out)
  }

  /** A fetch that brought no mail, but whose id a later result with mail reuses. */
  ghost predicate FetchGains(env: Env, rs: seq<Block>, x: Answer) {
    && IsFetch(x) && x.call.useId != "" && MailBy(env, x.call, x.out).None?
    && exists k: nat :: IsLastWith(rs, x.call.useId, k) && MailBy(env, x.call, OutcomeOf(rs[k])).Some?
  }

  lemma {:induction false} ExchangeMember(calls: seq<Block>, results: seq<Block>, x: Answer) returns (i: nat)
    requires x in Exchange(Pair(), calls, results) && |calls| == |results|
    requires forall r <- results :: r.ToolResult?
    ensures i < |calls| && x == Answer(calls[i], OutcomeOf(results[i]))
  {
    var first := Answer(calls[0], OutcomeOf(results[0]));
    if x == first {
      i := 0;
    } else {
      assert Exchange(Pair(), calls, results) == [first] + Exchange(Pair(), calls[1..], results[1..]);
      i := ExchangeMember(calls[1..], results[1..], x);
      i := i + 1;
    }
  }

  lemma {:induction false} AnswerIsAt(h: seq<Message>, x: Answer) returns (i: nat)
    requires x in AnswersOf(h)
    ensures i < |h| && h[i].role == Assistant
    ensures x in Exchange(Pair(), Uses(h[i].content), Results(if i + 1 < |h| then h[i + 1].content else []))
  {
    var next := if |h| > 1 then h[1].content else [];
    if h[0].role == Assistant && x in Exchange(Pair(), Uses(h[0].content), Results(next)) {
      i := 0;
    } else {
      i := AnswerIsAt(h[1..], x);
      i := i + 1;
    }
  }

  lemma {:induction false} ResultsWithin(h: seq<Message>, i: nat)
    requires i < |h|
    ensures forall r <- Results(h[i].content) :: r in AllResults(h)
  {
    if i > 0 { ResultsWithin(h[1..], i - 1); }
  }

  /** In a well-paired history a call is answered by a result with its id. */
  lemma AnswerHasItsId(h: seq<Message>, x: Answer) returns (r: Block)
    requires WellPaired(h) && x in AnswersOf(h)
    ensures x.call.ToolUse? && r in AllResults(h) && r.ToolResult?
    ensures r.resId == x.call.useId && OutcomeOf(r) == x.out
  {
    hide Uses, Results, UseIds, ResultIds, AnswersOf, AllResults, Exchange;
    var i := AnswerIsAt(h, x);
    assert PairedAt(h, i);
    var us, next := Uses(h[i].content), if i + 1 < |h| then h[i + 1].content else [];
    UsesAreUses(h[i].content);
    IdsOfUses(h[i].content);
    NoCallNoAnswer(us, Results(next), x);
    var rs := Results(h[i + 1].content);
    ResultsAreResults(h[i + 1].content);
    IdsOfResults(h[i + 1].content);
    ResultsWithin(h, i + 1);
    var j := ExchangeMember(us, rs, x);
    r := rs[j];
  }

  lemma NoCallNoAnswer(calls: seq<Block>, results: seq<Block>, x: Answer)
    requires x in Exchange(Pair(), calls, results)
    ensures calls != []
  {
  }

  lemma IdsOfUses(bs: seq<Block>)
    ensures |UseIds(bs)| == |Uses(bs)|
    ensures forall j :: 0 <= j < |Uses(bs)| ==> Uses(bs)[j].ToolUse? && UseIds(bs)[j] == Uses(bs)[j].useId
  {
    hide Uses;
    UsesAreUses(bs);
  }

  lemma IdsOfResults(bs: seq<Block>)
    ensures |ResultIds(bs)| == |Results(bs)|
    ensures forall j :: 0 <= j < |Results(bs)| ==> Results(bs)[j].ToolResult? && ResultIds(bs)[j] == Results(bs)[j].resId
  {
    hide Results;
    ResultsAreResults(bs);
  }

  /** Call by call: compaction makes of an elided fetch the mail of its own result exactly
      when the condition on ids holds, and makes more of it exactly when the fetch gains. */
  lemma FetchKeptIff(env: Env, h: seq<Message>, x: Answer)
    requires WellPaired(h) && x in AnswersOf(h)
    ensures Found(env, Index(AllResults(h)))(x) == Own(env)(x) <==> FetchKept(env, AllResults(h), x)
    ensures |Found(env, Index(AllResults(h)))(x)| > |Own(env)(x)| <==> FetchGains(env, AllResults(h), x)
  {
    var rs := AllResults(h);
    var r := AnswerHasItsId(h, x);
    hide Index, SynthMailIn, SynthMailOut, AnswersOf, AllResults;
    if x.call.useId == "" {
      BlankFindsNothing(rs);
      NothingIsNoMail(env, x.call);
      assert Lookup(Index(rs), x.call.useId) == ToolOutcome(JNull, false);
    } else {
      var k := LastExists(rs, r);
      LookupIsLast(rs, x.call.useId, k);
      forall j: nat | IsLastWith(rs, x.call.useId, j)
        ensures j == k
      {
      }
    }
  }

  lemma NothingIsNoMail(env: Env, call: Block)
    requires call.ToolUse?
    ensures MailBy(env, call, ToolOutcome(JNull, false)).None?
  {
  }

  // ------------------------------------------------------------------
  // One compaction
  // ------------------------------------------------------------------

  /** What a compaction elides, and of that the messages new since the last one. */
  function Elided(h: seq<Message>, k: int): seq<Message> {
    if TooShort(h, k) then [] else h[1..Pivot(h, k)]
  }

  function Range(h: seq<Message>, k: int): seq<Message> {
    Fresh(Elided(h, k))
  }

  function Synthesized(env: Env, range: seq<Message>): seq<Message> {
    FlatMap(OnMessage(MailOf(env), Index(AllResults(range))), range)
  }

  /** Every elided fetch meets the condition on ids. */
  ghost predicate FetchesKept(env: Env, h: seq<Message>, k: int) {
    forall x <- AnswersOf(Range(h, k)) :: FetchKept(env, AllResults(Range(h, k)), x)
  }

  ghost predicate SomeFetchGains(env: Env, h: seq<Message>, k: int) {
    exists x :: x in AnswersOf(Range(h, k)) && FetchGains(env, AllResults(Range(h, k)), x)
  }

  lemma SplitAfterArtifacts(elided: seq<Message>)
    requires WellPaired(elided)
    requires forall m <- elided :: m.artifact ==> Plain(m.content)
    requires elided == Carried(elided) + Fresh(elided)
    ensures WellPaired(Fresh(elided))
  {
    var c := |Carried(elided)|;
    CarriedFresh(elided);
    if c < |elided| {
      assert PairedAt(elided, c);
      if c > 0 {
        assert elided[c - 1] in Carried(elided);
        PlainHasNone(elided[c - 1].content);
      }
    }
    WellPairedCut(elided, c);
    assert elided[c..] == Fresh(elided);
  }

  /** The parts of a compactable history around its elided range. */
  lemma RangeParts(h: seq<Message>, k: int)
    requires Compactable(h) && !TooShort(h, k)
    ensures var p, e := Pivot(h, k), Elided(h, k);
            && p <= |h| && h == (h[..1] + Carried(e)) + Fresh(e) + h[p..]
            && WellPaired(h[..1]) && WellPaired(Carried(e)) && WellPaired(Fresh(e)) && WellPaired(h[p..])
            && (forall m <- Carried(e) :: m.artifact && Plain(m.content)) && (forall m <- Fresh(e) :: !m.artifact)
  {
    var p, e := Pivot(h, k), Elided(h, k);
    CutAtPivot(h, p);
    ElidedFacts(h, k);
    hide Carried, Fresh, WellPaired, Compactable, Pivot, Elided;
    LeadSplit(e);
    CarriedFresh(e);
    WellPairedPlain(Carried(e));
    SplitAfterArtifacts(e);
    Regroup(h[..1], Carried(e), Fresh(e));
  }

  lemma ElidedFacts(h: seq<Message>, k: int)
    requires ArtifactsLead(h) && !TooShort(h, k)
    ensures var p, e := Pivot(h, k), Elided(h, k);
            && 1 < p <= |h| && e == h[1..p] && h == h[..1] + e + h[p..]
            && (forall m <- e :: m.artifact ==> Plain(m.content))
            && (forall i, j :: 0 <= i < j < |e| && e[j].artifact ==> e[i].artifact)
  {
    hide ArtifactsLead;
    MiddleFacts(h, Pivot(h, k));
    MiddleSlice(h, Pivot(h, k));
  }

  lemma MiddleFacts(h: seq<Message>, p: nat)
    requires ArtifactsLead(h) && 1 < p <= |h|
    ensures forall m <- h[1..p] :: m.artifact ==> Plain(m.content)
    ensures forall i, j :: 0 <= i < j < |h[1..p]| && h[1..p][j].artifact ==> h[1..p][i].artifact
  {
    hide Plain;
    var e := h[1..p];
    forall i, j | 0 <= i < j < |e| && e[j].artifact
      ensures e[i].artifact
    {
      assert h[i + 1] == e[i] && h[j + 1] == e[j];
    }
  }

  lemma MiddleSlice<T>(s: seq<T>, p: nat)
    requires 1 < p <= |s|
    ensures s == s[..1] + s[1..p] + s[p..]
  {
  }

  /** Around the elided range nothing changes: the record of its new part is replaced by what
      compaction synthesizes from it. */
  lemma CompactionReplaces(env: Env, h: seq<Message>, k: int, summary: string)
    requires Compactable(h) && !TooShort(h, k)
    ensures var p, c := Pivot(h, k), Carried(Elided(h, k));
            var before, after := MailRecord(env, h[..1]) + MailRecord(env, c), MailRecord(env, h[p..]);
            && MailRecord(env, h) == before + MailRecord(env, Range(h, k)) + after
            && MailRecord(env, Compact(env, h, k, summary).messages) == before + Synthesized(env, Range(h, k)) + after
  {
    var p, e := Pivot(h, k), Elided(h, k);
    var c, f := Carried(e), Fresh(e);
    RangeParts(h, k);
    SynthIsMail(env, Index(AllResults(f)), f);
    ReplacementRecord(env, e, summary);
    hide MailRecord, Carried, Fresh, WellPaired, OnMessage, FlatMap, Index, AllResults, Pivot, Replacement, Synthesized, Compactable;
    var r := Replacement(env, e, summary).messages;
    WellPairedConcat(h[..1], c);
    MailOfThreeParts(env, h[..1] + c, f, h[p..]);
    MailRecordConcat(env, h[..1], c);
    MailOfThreeParts(env, h[..1], r, h[p..]);
    Regroup(MailRecord(env, h[..1]), MailRecord(env, c), Synthesized(env, f));
  }

  lemma ReplacementRecord(env: Env, elided: seq<Message>, summary: string)
    requires forall m <- Carried(elided) :: m.artifact && Plain(m.content)
    ensures var r := Replacement(env, elided, summary).messages;
            && WellPaired(r)
            && MailRecord(env, r) == MailRecord(env, Carried(elided)) + Synthesized(env, Fresh(elided))
  {
    var a, f := Carried(elided), Fresh(elided);
    var index := Index(AllResults(f));
    var synth := Synthesized(env, f);
    SynthIsMail(env, index, f);
    WellPairedPlain(a);
    MailOfMail(env, synth);
    WellPairedPlain(synth);
    MailRecordConcat(env, a, synth);
    WellPairedConcat(a, synth);
    var work := FlatMap(OnMessage(TraceOf(env), index), f);
    if work != [] || a == [] {
      var seam := SummaryMessage(env, work, summary).0;
      SeamIsNoMail(env, work, summary);
      WellPairedPlain([seam]);
      WellPairedConcat(a + synth, [seam]);
      MailRecordConcat(env, a + synth, [seam]);
      assert MailRecord(env, [seam]) == [];
    }
  }

  /** Over the new part of an elided range: without gains compaction makes at most the mail
      that is there, and exactly it when every fetch is kept. */
  lemma RangeKeptIff(env: Env, h: seq<Message>, k: int)
    requires WellPaired(Range(h, k)) && forall m <- Range(h, k) :: !m.artifact
    ensures FetchesKept(env, h, k) ==> !SomeFetchGains(env, h, k)
    ensures !SomeFetchGains(env, h, k) ==>
              && |Synthesized(env, Range(h, k))| <= |MailRecord(env, Range(h, k))|
              && (Synthesized(env, Range(h, k)) == MailRecord(env, Range(h, k)) <==> FetchesKept(env, h, k))
  {
    var f := Range(h, k);
    var rs := AllResults(f);
    var index := Index(rs);
    RecordByAnswer(env, f);
    SynthByAnswer(env, index, f);
    forall x | x in AnswersOf(f)
      ensures Found(env, index)(x) == Own(env)(x) <==> FetchKept(env, rs, x)
      ensures |Found(env, index)(x)| > |Own(env)(x)| <==> FetchGains(env, rs, x)
    {
      FetchKeptIff(env, f, x);
    }
    hide Own, Found, FetchKept, FetchGains, AnswersOf, Index, AllResults, Range, MailRecord, OnMessage;
    if !SomeFetchGains(env, h, k) {
      FlatMapSameIff(Own(env), Found(env, index), AnswersOf(f));
    }
  }

  /** Exactly when compaction keeps the mail: the record is the same and no fetch is given
      another's mail, if and only if every elided fetch meets the condition on ids. */
  lemma CompactKeepsMailIff(env: Env, h: seq<Message>, k: int, summary: string)
    requires Compactable(h)
    ensures
      && MailRecord(env, Compact(env, h, k, summary).messages) == MailRecord(env, h)
      && !SomeFetchGains(env, h, k)
      <==> FetchesKept(env, h, k)
  {
    if TooShort(h, k) {
      assert AnswersOf(Range(h, k)) == [];
    } else {
      CompactionReplaces(env, h, k, summary);
      RangeParts(h, k);
      RangeKeptIff(env, h, k);
      hide FetchesKept, SomeFetchGains, MailRecord, Compact, Synthesized, Compactable, Pivot;
      var before := MailRecord(env, h[..1]) + MailRecord(env, Carried(Elided(h, k)));
      SameMiddle(before, Synthesized(env, Range(h, k)), MailRecord(env, Range(h, k)), MailRecord(env, h[Pivot(h, k)..]));
    }
  }

  lemma SameMiddle<T>(a: seq<T>, x: seq<T>, y: seq<T>, c: seq<T>)
    ensures a + x + c == a + y + c <==> x == y
  {
    if a + x + c == a + y + c {
      assert |x| == |y|;
      SplitEqual(a + x, c, a + y, c);
      SplitEqual(a, x, a, y);
    }
  }

  // ------------------------------------------------------------------
  // Many compactions: what is lost stays lost
  // ------------------------------------------------------------------

  /** The part of the mail record that later compactions carry over verbatim. */
  function LeadRecord(env: Env, h: seq<Message>): seq<Message>
    requires h != []
  {
    MailRecord(env, h[..1]) + MailRecord(env, Carried(h[1..]))
  }

  /** The record is not `full`, and no compaction or extension can make it so again: it is too
      short, or what is carried already differs. */
  ghost predicate Diverged(env: Env, h: seq<Message>, full: seq<Message>)
    requires h != []
  {
    |MailRecord(env, h)| < |full| || !(LeadRecord(env, h) <= full)
  }

  lemma {:induction false} CarriedConcat(a: seq<Message>, b: seq<Message>)
    ensures Carried(a + b) == Carried(a) + Carried(b)
  {
    if a == [] {
      assert a + b == b;
    } else {
      CarriedConcat(a[1..], b);
      TailConcat(a, b);
      var first := if a[0].artifact then [a[0]] else [];
      assert Carried(a) == first + Carried(a[1..]);
      assert Carried(a + b) == first + Carried(a[1..] + b);
      hide Carried;
      Regroup(first, Carried(a[1..]), Carried(b));
    }
  }

  /** A compactable history is its first message, its artifacts and its recent messages. */
  lemma LeadIsPrefix(env: Env, h: seq<Message>)
    requires Compactable(h)
    ensures LeadRecord(env, h) <= MailRecord(env, h)
  {
    var rest := h[1..];
    var c, f := Carried(rest), Fresh(rest);
    MiddleFactsOfAll(h);
    LeadSplit(rest);
    CarriedFresh(rest);
    CutAtPivot(h, |h|);
    WellPairedPlain(c);
    assert h[1..|h|] == rest && h == h[..1] + rest;
    hide Carried, Fresh, Compactable, WellPaired, MailRecord;
    MailRecordConcat(env, h[..1], rest);
    MailRecordConcat(env, c, f);
    Regroup(MailRecord(env, h[..1]), MailRecord(env, c), MailRecord(env, f));
  }

  lemma MiddleFactsOfAll(h: seq<Message>)
    requires Compactable(h)
    ensures forall m <- h[1..] :: m.artifact ==> Plain(m.content)
    ensures forall i, j :: 0 <= i < j < |h[1..]| && h[1..][j].artifact ==> h[1..][i].artifact
  {
    hide Plain, WellPaired;
    forall i, j | 0 <= i < j < |h[1..]| && h[1..][j].artifact
      ensures h[1..][i].artifact
    {
      assert h[i + 1] == h[1..][i] && h[j + 1] == h[1..][j];
    }
  }

  /** A diverged record stays so when both histories are extended alike. */
  lemma ExtendKeepsDiverged(env: Env, h: seq<Message>, full: seq<Message>, ext: seq<Message>)
    requires Compactable(h) && Diverged(env, h, full) && |MailRecord(env, h)| <= |full|
    requires forall m <- ext :: !m.artifact
    ensures Diverged(env, h + ext, full + MailRecord(env, ext))
  {
    LeadIsPrefix(env, h);
    MailRecordConcat(env, h, ext);
    NoneCarried(ext);
    CarriedConcat(h[1..], ext);
    SliceConcat(h, ext);
    hide MailRecord, Carried, Compactable;
    assert Carried(h[1..]) + [] == Carried(h[1..]);
    var lead := LeadRecord(env, h);
    assert LeadRecord(env, h + ext) == lead;
    if lead <= full + MailRecord(env, ext) && |lead| <= |full| {
      PrefixOfFront(lead, full, MailRecord(env, ext));
    }
  }

  lemma SliceConcat<T>(a: seq<T>, b: seq<T>)
    requires a != []
    ensures (a + b)[..1] == a[..1] && (a + b)[1..] == a[1..] + b
  {
  }

  lemma PrefixOfFront<T>(p: seq<T>, a: seq<T>, b: seq<T>)
    requires p <= a + b && |p| <= |a|
    ensures p <= a
  {
    assert forall i :: 0 <= i < |p| ==> a[i] == (a + b)[i];
  }

  /** What a compaction carries from now on: what it carried before and what it synthesizes. */
  lemma LeadAfter(env: Env, h: seq<Message>, k: int, summary: string)
    requires Compactable(h) && !TooShort(h, k) && forall j :: Pivot(h, k) <= j < |h| ==> !h[j].artifact
    ensures Compact(env, h, k, summary).messages != []
    ensures LeadRecord(env, h) == MailRecord(env, h[..1]) + MailRecord(env, Carried(Elided(h, k)))
    ensures LeadRecord(env, Compact(env, h, k, summary).messages)
            == LeadRecord(env, h) + Synthesized(env, Range(h, k))
  {
    var p, e := Pivot(h, k), Elided(h, k);
    var r, tail := Replacement(env, e, summary).messages, h[p..];
    RangeParts(h, k);
    ElidedFacts(h, k);
    ReplacementRecord(env, e, summary);
    ReplacementIsArtifacts(env, e, summary);
    AllCarried(r);
    assert forall m <- tail :: !m.artifact;
    assert Compact(env, h, k, summary).messages == h[..1] + r + tail;
    hide Compact, MailRecord, Carried, Compactable, Replacement, Pivot, Synthesized, WellPaired, Elided, Fresh, LeadRecord;
    LeadOfParts(env, h[..1], e, tail);
    LeadOfParts(env, h[..1], r, tail);
    Regroup(MailRecord(env, h[..1]), MailRecord(env, Carried(e)), Synthesized(env, Range(h, k)));
  }

  lemma LeadOfParts(env: Env, first: seq<Message>, mid: seq<Message>, tail: seq<Message>)
    requires |first| == 1 && forall m <- tail :: !m.artifact
    ensures LeadRecord(env, first + mid + tail) == MailRecord(env, first) + MailRecord(env, Carried(mid))
  {
    hide MailRecord, Carried;
    NoneCarried(tail);
    CarriedConcat(mid, tail);
    assert (first + mid + tail)[..1] == first && (first + mid + tail)[1..] == mid + tail;
    assert Carried(mid) + [] == Carried(mid);
  }

  /** One more compaction, seen from the record of the history that was never compacted. */
  lemma CompactAgainst(env: Env, h: seq<Message>, k: int, summary: string, full: seq<Message>)
    requires Compactable(h) && |MailRecord(env, h)| <= |full| && !SomeFetchGains(env, h, k)
    ensures var out := Compact(env, h, k, summary).messages;
            && out != [] && |MailRecord(env, out)| <= |full|
            && (Diverged(env, h, full) ==> Diverged(env, out, full))
            && (MailRecord(env, h) == full && FetchesKept(env, h, k) ==> MailRecord(env, out) == full)
            && (MailRecord(env, h) == full && !FetchesKept(env, h, k) ==> Diverged(env, out, full))
  {
    var out := Compact(env, h, k, summary).messages;
    if TooShort(h, k) {
      assert AnswersOf(Range(h, k)) == [];
    } else if j: nat :| Pivot(h, k) <= j < |h| && h[j].artifact {
      SpliceOfArtifacts(env, h, Pivot(h, k), summary, j);
      OnlyArtifactsElided(h, k, j);
    } else {
      CompactionReplaces(env, h, k, summary);
      LeadAfter(env, h, k, summary);
      RangeParts(h, k);
      RangeKeptIff(env, h, k);
      hide MailRecord, LeadRecord, Carried, Compact, Compactable, Synthesized, FetchesKept, SomeFetchGains, Pivot, Range, Elided;
      var synth, own := Synthesized(env, Range(h, k)), MailRecord(env, Range(h, k));
      var lead, after := LeadRecord(env, h), MailRecord(env, h[Pivot(h, k)..]);
      assert MailRecord(env, h) == lead + own + after && MailRecord(env, out) == lead + synth + after;
      Replaced(lead, synth, own, after, full);
    }
  }

  lemma Replaced<T>(lead: seq<T>, synth: seq<T>, own: seq<T>, after: seq<T>, full: seq<T>)
    requires |synth| <= |own|
    ensures |lead + synth + after| <= |lead + own + after|
    ensures lead + synth <= full ==> lead <= full
    ensures lead + own + after == full && |synth| == |own| && lead + synth <= full ==> synth == own
  {
    if lead + synth <= full {
      assert lead == (lead + synth)[..|lead|] == full[..|lead|];
      if lead + own + after == full && |synth| == |own| {
        assert synth == (lead + synth)[|lead|..] == full[|lead|..|lead| + |synth|];
        assert own == full[|lead|..|lead| + |own|];
      }
    }
  }

  lemma OnlyArtifactsElided(h: seq<Message>, k: int, j: nat)
    requires ArtifactsLead(h) && !TooShort(h, k) && Pivot(h, k) <= j < |h| && h[j].artifact
    ensures Range(h, k) == [] && AnswersOf(Range(h, k)) == []
  {
    var e := Elided(h, k);
    assert forall i :: 0 <= i < |e| ==> e[i] == h[i + 1] && h[i + 1].artifact;
    AllCarried(e);
  }

  // ------------------------------------------------------------------
  // In terms of ids alone
  // ------------------------------------------------------------------

  /** No two results share an id, blank ids apart. */
  ghost predicate IdsDistinct(rs: seq<Block>) {
    forall i, j :: 0 <= i < j < |rs| && rs[i].ToolResult? && rs[j].ToolResult? && rs[i].resId == rs[j].resId ==>
      rs[i].resId == ""
  }

  lemma DistinctFetchKept(env: Env, h: seq<Message>, x: Answer)
    requires WellPaired(h) && IdsDistinct(AllResults(h)) && x in AnswersOf(h) && IsFetch(x)
    ensures x.call.useId != "" ==> FetchKept(env, AllResults(h), x)
    ensures !FetchGains(env, AllResults(h), x)
  {
    var rs := AllResults(h);
    var r := AnswerHasItsId(h, x);
    hide AllResults, AnswersOf, SynthMailIn;
    var i :| 0 <= i < |rs| && rs[i] == r;
    forall k: nat | IsLastWith(rs, x.call.useId, k) && x.call.useId != ""
      ensures rs[k] == r
    {
      assert k == i;
    }
  }

  /** When the non-blank ids in the elided range are distinct, its mail is kept exactly when no
      fetch with a blank id brought a mail. The rest of the history does not matter. */
  lemma DistinctIdsKeepMailIff(env: Env, h: seq<Message>, k: int, summary: string)
    requires Compactable(h) && IdsDistinct(AllResults(Range(h, k)))
    ensures MailRecord(env, Compact(env, h, k, summary).messages) == MailRecord(env, h)
            <==> forall x <- AnswersOf(Range(h, k)) :: IsFetch(x) && x.call.useId == "" ==> MailBy(env, x.call, x.out).None?
  {
    CompactKeepsMailIff(env, h, k, summary);
    if TooShort(h, k) {
      assert AnswersOf(Range(h, k)) == [];
    } else {
      RangeParts(h, k);
      hide AnswersOf, Range, Compact, MailRecord, AllResults, Compactable, SynthMailIn;
      forall x | x in AnswersOf(Range(h, k)) && IsFetch(x)
        ensures x.call.useId != "" ==> FetchKept(env, AllResults(Range(h, k)), x)
        ensures !FetchGains(env, AllResults(Range(h, k)), x)
      {
        DistinctFetchKept(env, Range(h, k), x);
      }
    }
  }

  lemma DistinctAt(s: seq<string>, i: nat, j: nat)
    requires i < j < |s| && forall x :: multiset(s)[x] <= 1
    ensures s[i] != s[j]
  {
    assert s == s[..j] + s[j..];
    assert multiset(s)[s[i]] == multiset(s[..j])[s[i]] + multiset(s[j..])[s[i]];
    assert s[i] in multiset(s[..j]) && s[j] in multiset(s[j..]);
  }

  lemma UniqueIdsDistinct(h: seq<Message>)
    requires UniqueToolIds(h)
    ensures IdsDistinct(AllResults(h)) && forall r <- AllResults(h) :: r.ToolResult? && r.resId != ""
  {
    var rs, ids := AllResults(h), AllResultIds(h);
    AllResultsAreResults(h);
    forall i, j | 0 <= i < j < |rs|
      ensures rs[i].resId != rs[j].resId
    {
      DistinctAt(ids, i, j);
      assert ids[i] == rs[i].resId && ids[j] == rs[j].resId;
    }
    forall r <- rs
      ensures r.resId != ""
    {
      var i :| 0 <= i < |rs| && rs[i] == r;
      assert ids[i] == r.resId;
    }
  }

  /** Present and unique tool ids are more than enough. */
  lemma UniqueIdsKeepFetches(env: Env, h: seq<Message>, k: int)
    requires Compactable(h) && UniqueToolIds(h)
    ensures FetchesKept(env, h, k)
  {
    if TooShort(h, k) {
      assert AnswersOf(Range(h, k)) == [];
    } else {
      var p, c, f := Pivot(h, k), Carried(Elided(h, k)), Range(h, k);
      RangeParts(h, k);
      AllResultIdsConcat(h[..1] + c, f);
      AllResultIdsConcat((h[..1] + c) + f, h[p..]);
      UniqueToolIdsSub(f, h);
      UniqueIdsDistinct(f);
      hide AnswersOf, Range, AllResults, UniqueToolIds, Compactable, FetchKept;
      forall x | x in AnswersOf(f)
        ensures FetchKept(env, AllResults(f), x)
      {
        var r := AnswerHasItsId(f, x);
        if IsFetch(x) {
          DistinctFetchKept(env, f, x);
        } else {
          NoFetchIsKept(env, AllResults(f), x);
        }
      }
    }
  }

  lemma NoFetchIsKept(env: Env, rs: seq<Block>, x: Answer)
    requires !IsFetch(x)
    ensures FetchKept(env, rs, x)
  {
  }

  // ------------------------------------------------------------------
  // The two ways to lose a mail
  // ------------------------------------------------------------------

  /** A fetch of one mail and what came back. */
  datatype Fetch = Fetch(id: string, input: Obj, result: Json)

  function Call(f: Fetch): Block {
    ToolUse(f.id, "mailbox_get_message", f.input)
  }

  function Reply(f: Fetch): Block {
    ToolResult(f.id, f.result, false)
  }

  function Round(f: Fetch): seq<Message> {
    [Message(Assistant, [Call(f)], false), Message(User, [Reply(f)], false)]
  }

  function Rounds(fs: seq<Fetch>): seq<Message> {
    if fs == [] then [] else Round(fs[0]) + Rounds(fs[1..])
  }

  /** A task goal, some fetches, and a last word of the assistant. */
  function FetchHistory(fs: seq<Fetch>): seq<Message> {
    [TextMessage(User, "goal")] + Rounds(fs) + [TextMessage(Assistant, "done")]
  }

  function Answered(f: Fetch): Answer {
    Answer(Call(f), ToolOutcome(f.result, false))
  }

  function AllAnswered(fs: seq<Fetch>): seq<Answer> {
    if fs == [] then [] else [Answered(fs[0])] + AllAnswered(fs[1..])
  }

  function Replies(fs: seq<Fetch>): seq<Block> {
    if fs == [] then [] else [Reply(fs[0])] + Replies(fs[1..])
  }

  lemma RoundParts(f: Fetch)
    ensures WellPaired(Round(f)) && AnswersOf(Round(f)) == [Answered(f)] && AllResults(Round(f)) == [Reply(f)]
    ensures Assistants(Round(f)) == 1
  {
    var a, u := Round(f)[0], Round(f)[1];
    OneBlock(Call(f));
    OneBlock(Reply(f));
    hide Uses, Results, UseIds, ResultIds;
    WellPairedExchange(a, u);
    assert Round(f) == [a] + [u] && [a, u][1..] == [u];
    AnswersOfTwo(a, u);
    OneAssistant(a);
    AssistantsConcat([a], [u]);
    AllResultsConcat([a], [u]);
    OneMessage(a);
    OneMessage(u);
  }

  lemma OneMessage(m: Message)
    ensures AllResults([m]) == Results(m.content) && (m.role != Assistant ==> Assistants([m]) == 0)
  {
    assert AllResults([m]) == Results(m.content) + [];
  }

  lemma AnswersOfTwo(a: Message, u: Message)
    requires a.role == Assistant && u.role == User
    requires |Uses(a.content)| == 1 && |Results(u.content)| == 1 && Results(u.content)[0].ToolResult?
    ensures AnswersOf([a, u]) == [Answer(Uses(a.content)[0], OutcomeOf(Results(u.content)[0]))]
  {
    var calls, results := Uses(a.content), Results(u.content);
    hide Uses, Results;
    assert [a, u][1..] == [u];
    assert AnswersOf([u]) == [];
    assert calls[1..] == [] && results[1..] == [];
    assert Exchange(Pair(), calls, results) == [Answer(calls[0], OutcomeOf(results[0]))] + Exchange(Pair(), [], []);
    assert Exchange(Pair(), [], []) == [];
  }

  lemma LastHasNoCalls(a: seq<Message>)
    requires WellPaired(a) && a != []
    ensures Uses(a[|a| - 1].content) == []
  {
    assert PairedAt(a, |a| - 1);
    UsesAreUses(a[|a| - 1].content);
    assert |UseIds(a[|a| - 1].content)| == |Uses(a[|a| - 1].content)|;
  }

  lemma {:induction false} AnswersOfConcatFrom(a: seq<Message>, b: seq<Message>, i: nat)
    requires WellPaired(a) && i <= |a|
    ensures AnswersOf(a[i..] + b) == AnswersOf(a[i..]) + AnswersOf(b)
    decreases |a| - i
  {
    if i == |a| {
      assert a[i..] + b == b;
    } else {
      assert (a[i..] + b)[1..] == a[i + 1..] + b;
      assert a[i..][1..] == a[i + 1..];
      AnswersOfConcatFrom(a, b, i + 1);
      var next, next' := if i + 1 < |a| then a[i + 1].content else [], if |a[i..] + b| > 1 then (a[i..] + b)[1].content else [];
      assert AnswersAt(a[i], next') == AnswersAt(a[i], next) by {
        if i + 1 == |a| { LastHasNoCalls(a); }
      }
      hide AnswersAt;
      Regroup(AnswersAt(a[i], next), AnswersOf(a[i + 1..]), AnswersOf(b));
    }
  }

  lemma {:induction false} RoundsParts(fs: seq<Fetch>)
    ensures WellPaired(Rounds(fs)) && AnswersOf(Rounds(fs)) == AllAnswered(fs) && AllResults(Rounds(fs)) == Replies(fs)
    ensures forall m <- Rounds(fs) :: !m.artifact
    ensures |Rounds(fs)| == 2 * |fs|
  {
    if fs != [] {
      RoundsParts(fs[1..]);
      RoundParts(fs[0]);
      var a, b := Round(fs[0]), Rounds(fs[1..]);
      WellPairedConcat(a, b);
      assert a[0..] == a;
      AnswersOfConcatFrom(a, b, 0);
      AllResultsConcat(a, b);
    }
  }

  /** Compacting such a history with k = 1 elides exactly the fetches. */
  lemma FetchesAreElided(fs: seq<Fetch>)
    requires fs != []
    ensures var h := FetchHistory(fs);
            && Compactable(h) && !TooShort(h, 1) && Range(h, 1) == Rounds(fs)
            && h[..1] == [TextMessage(User, "goal")] && Elided(h, 1) == Rounds(fs)
            && h[Pivot(h, 1)..] == [TextMessage(Assistant, "done")]
  {
    var goal, rounds, done := [TextMessage(User, "goal")], Rounds(fs), [TextMessage(Assistant, "done")];
    var h := FetchHistory(fs);
    RoundsParts(fs);
    WellPairedPlain(goal);
    WellPairedPlain(done);
    WellPairedConcat(goal, rounds);
    WellPairedConcat(goal + rounds, done);
    var p := |goal + rounds|;
    assert h[p..] == done && h[1..p] == rounds && h[..1] == goal;
    OneAssistant(done[0]);
    assert h == (goal + rounds) + done;
    AssistantsConcat(goal + rounds, done);
    PivotUnique(h, 1, p, Pivot(h, 1));
    NoneCarried(rounds);
  }

  /** Its mail before and after: by own results, and by looked-up ones. */
  lemma FetchHistoryMail(env: Env, fs: seq<Fetch>, summary: string)
    requires fs != []
    ensures MailRecord(env, FetchHistory(fs)) == FlatMap(Own(env), AllAnswered(fs))
    ensures MailRecord(env, Compact(env, FetchHistory(fs), 1, summary).messages)
            == FlatMap(Found(env, Index(Replies(fs))), AllAnswered(fs))
  {
    var h, rounds := FetchHistory(fs), Rounds(fs);
    FetchesAreElided(fs);
    RoundsParts(fs);
    NoneCarried(rounds);
    CompactionReplaces(env, h, 1, summary);
    RecordByAnswer(env, rounds);
    SynthByAnswer(env, Index(Replies(fs)), rounds);
    EndsHaveNoMail(env);
    hide FetchHistory, Rounds, Compact, Pivot, AllAnswered, Index, OnMessage;
    var x, y := MailRecord(env, rounds), Synthesized(env, rounds);
    assert [] + [] + x + [] == x && [] + [] + y + [] == y;
  }

  lemma EndsHaveNoMail(env: Env)
    ensures MailRecord(env, [TextMessage(User, "goal")]) == [] && MailRecord(env, [TextMessage(Assistant, "done")]) == []
    ensures MailRecord(env, []) == []
  {
  }

  /** Any mail fetched under a blank id is lost. */
  lemma BlankIdLosesMail(env: Env, input: Obj, result: Json, summary: string)
    requires SynthMailIn(env, input, result, false).Some?
    ensures var h := FetchHistory([Fetch("", input, result)]);
            && Compactable(h)
            && MailRecord(env, h) == [SynthMailIn(env, input, result, false).value]
            && MailRecord(env, Compact(env, h, 1, summary).messages) == []
  {
    var f := Fetch("", input, result);
    FetchesAreElided([f]);
    FetchHistoryMail(env, [f], summary);
    OneReply(f);
    hide FetchHistory, Compact, MailRecord, SynthMailIn, Index;
    BlankFindsNothing([Reply(f)]);
    NothingIsNoMail(env, Call(f));
    FlatMapOne(Own(env), Answered(f));
    FlatMapOne(Found(env, Index([Reply(f)])), Answered(f));
  }

  lemma OneReply(f: Fetch)
    ensures Replies([f]) == [Reply(f)] && AllAnswered([f]) == [Answered(f)]
  {
  }

  /** Of two mails fetched under one id the first is lost: the second result stands for both. */
  lemma ReusedIdLosesMail(env: Env, id: string, input1: Obj, result1: Json, input2: Obj, result2: Json, summary: string)
    requires id != ""
    requires SynthMailIn(env, input1, result1, false).Some? && SynthMailIn(env, input2, result2, false).Some?
    ensures var h := FetchHistory([Fetch(id, input1, result1), Fetch(id, input2, result2)]);
            && Compactable(h)
            && MailRecord(env, h)
               == [SynthMailIn(env, input1, result1, false).value, SynthMailIn(env, input2, result2, false).value]
            && SynthMailIn(env, input1, result2, false).Some?
            && MailRecord(env, Compact(env, h, 1, summary).messages)
               == [SynthMailIn(env, input1, result2, false).value, SynthMailIn(env, input2, result2, false).value]
  {
    var f1, f2 := Fetch(id, input1, result1), Fetch(id, input2, result2);
    AnyInputWillDo(env, input1, input2, result2);
    hide FetchHistory, Compact, MailRecord, SynthMailIn;
    TwoFetches(env, f1, f2, summary);
    LookupIsLast([Reply(f1), Reply(f2)], id, 1);
  }

  lemma TwoFetches(env: Env, f1: Fetch, f2: Fetch, summary: string)
    ensures var h, found := FetchHistory([f1, f2]), Found(env, Index([Reply(f1), Reply(f2)]));
            && Compactable(h)
            && MailRecord(env, h) == Own(env)(Answered(f1)) + Own(env)(Answered(f2))
            && MailRecord(env, Compact(env, h, 1, summary).messages) == found(Answered(f1)) + found(Answered(f2))
  {
    FetchesAreElided([f1, f2]);
    FetchHistoryMail(env, [f1, f2], summary);
    TwoReplies(f1, f2);
    hide FetchHistory, Compact, MailRecord, Index, Own, Found, Answered;
    TwoContributions(Own(env), Answered(f1), Answered(f2));
    TwoContributions(Found(env, Index([Reply(f1), Reply(f2)])), Answered(f1), Answered(f2));
  }

  lemma TwoContributions<A, B>(f: A -> seq<B>, x: A, y: A)
    ensures FlatMap(f, [x] + [y]) == f(x) + f(y)
  {
    FlatMapConcat(f, [x], [y]);
    FlatMapOne(f, x);
    FlatMapOne(f, y);
  }

  /** Whether a result holds a mail does not depend on the call. */
  lemma AnyInputWillDo(env: Env, input: Obj, other: Obj, result: Json)
    ensures SynthMailIn(env, input, result, false).Some? <==> SynthMailIn(env, other, result, false).Some?
  {
  }

  lemma TwoReplies(f: Fetch, g: Fetch)
    ensures Replies([f, g]) == [Reply(f), Reply(g)] && AllAnswered([f, g]) == [Answered(f)] + [Answered(g)]
  {
    assert [f, g][1..] == [g];
    OneReply(g);
  }
}
