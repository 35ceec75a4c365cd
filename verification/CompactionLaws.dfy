/**
 What compaction guarantees: it keeps the history well paired, keeps the first message and
 the last turns, adds no tool result id, and is idempotent.
 */
module CompactionLaws {
  import opened Wrappers
  import opened Messages
  import opened Seqs
  import opened Compaction

  // ------------------------------------------------------------------
  // The shape that the run keeps
  // ------------------------------------------------------------------

  /** Artifacts carry neither calls nor results, and no message other than an artifact
      stands between messages[0] and an artifact. */
  ghost predicate ArtifactsLead(h: seq<Message>) {
    && (forall m <- h :: m.artifact ==> Plain(m.content))
    && (forall i, j :: 1 <= i < j < |h| && h[j].artifact ==> h[i].artifact)
  }

  /** The shape of a history the run can compact: `messages[0]` is the task goal. */
  ghost predicate Compactable(h: seq<Message>) {
    WellPaired(h) && ArtifactsLead(h) && |h| > 0 && h[0].role == User
  }

  lemma {:induction false} CarriedFresh(ms: seq<Message>)
    ensures forall m <- Carried(ms) :: m in ms && m.artifact
    ensures forall m <- Fresh(ms) :: m in ms && !m.artifact
  {
    if ms != [] { CarriedFresh(ms[1..]); }
  }

  /** When artifacts lead, the carried ones are a prefix and the recent ones the rest. */
  lemma {:induction false} LeadSplit(ms: seq<Message>)
    requires forall i, j :: 0 <= i < j < |ms| && ms[j].artifact ==> ms[i].artifact
    ensures ms == Carried(ms) + Fresh(ms)
  {
    if ms != [] {
      var rest := ms[1..];
      LeadSplit(rest);
      if !ms[0].artifact {
        NoneCarried(rest);
        assert Carried(ms) == [] && Fresh(ms) == [ms[0]] + Fresh(rest);
      } else {
        assert Carried(ms) == [ms[0]] + Carried(rest) && Fresh(ms) == Fresh(rest);
        hide Carried, Fresh;
        Regroup([ms[0]], Carried(rest), Fresh(rest));
      }
    }
  }

  lemma {:induction false} NoneCarried(ms: seq<Message>)
    requires forall m <- ms :: !m.artifact
    ensures Carried(ms) == [] && Fresh(ms) == ms
  {
    if ms != [] { NoneCarried(ms[1..]); }
  }

  lemma {:induction false} AllCarried(ms: seq<Message>)
    requires forall m <- ms :: m.artifact
    ensures Carried(ms) == ms && Fresh(ms) == []
  {
    if ms != [] { AllCarried(ms[1..]); }
  }

  // ------------------------------------------------------------------
  // What the replacement of an elided range is made of
  // ------------------------------------------------------------------

  lemma CallMailIsArtifact(env: Env, call: Block, out: ToolOutcome)
    requires call.ToolUse?
    ensures forall m <- MailOfCall(env, call, out) :: IsMailArtifact(m) && Plain(m.content)
  {
  }

  lemma SynthIsMail(env: Env, index: map<string, ToolOutcome>, ms: seq<Message>)
    ensures forall m <- FlatMap(OnMessage(MailOf(env), index), ms) :: IsMailArtifact(m) && Plain(m.content)
  {
    forall m <- FlatMap(OnMessage(MailOf(env), index), ms)
      ensures IsMailArtifact(m) && Plain(m.content)
    {
      var origin := FlatMapMember(OnMessage(MailOf(env), index), ms, m);
      var call := FlatMapMember(OnBlock(MailOf(env), index), origin.content, m);
      CallMailIsArtifact(env, call, Lookup(index, call.useId));
    }
  }

  lemma SeamIsNoMail(env: Env, work: seq<string>, summary: string)
    ensures var seam := SummaryMessage(env, work, summary).0;
            seam.artifact && Plain(seam.content) && !IsMailArtifact(seam)
  {
    NotMailText(SummaryMessage(env, work, summary).0.content[0].text);
  }

  lemma NotMailText(t: string)
    requires SUMMARY_OPENING <= t
    ensures !IsMailText(t)
  {
    assert t[1] == SUMMARY_OPENING[1] == 'C';
    assert "[Mail "[1] == 'M' && "[Sent "[1] == 'S';
  }

  /** The replacement consists of artifacts only, and is never empty for a real range. */
  lemma ReplacementIsArtifacts(env: Env, elided: seq<Message>, summary: string)
    requires forall m <- elided :: m.artifact ==> Plain(m.content)
    ensures forall m <- Replacement(env, elided, summary).messages :: m.artifact && Plain(m.content)
    ensures Replacement(env, elided, summary).messages != []
  {
    hide Carried, Fresh, Plain, Index, AllResults, FlatMap, SummaryMessage, IsMailArtifact, OnMessage, MailOf, TraceOf;
    CarriedFresh(elided);
    var index := Index(AllResults(Fresh(elided)));
    SynthIsMail(env, index, Fresh(elided));
    SynthsAreArtifacts(env, index, Fresh(elided));
    SeamIsNoMail(env, FlatMap(OnMessage(TraceOf(env), index), Fresh(elided)), summary);
  }

  lemma SynthsAreArtifacts(env: Env, index: map<string, ToolOutcome>, ms: seq<Message>)
    ensures forall m <- FlatMap(OnMessage(MailOf(env), index), ms) :: m.artifact
  {
    hide FlatMap, OnMessage, MailOf;
    SynthIsMail(env, index, ms);
  }

  /** A range of artifacts is its own replacement. */
  lemma ReplacementOfArtifacts(env: Env, elided: seq<Message>, summary: string)
    requires elided != [] && forall m <- elided :: m.artifact
    ensures Replacement(env, elided, summary) == CompactionOutcome(elided, false)
  {
    AllCarried(elided);
  }

  // ------------------------------------------------------------------
  // Pairing and shape are kept
  // ------------------------------------------------------------------

  /** Cuts a history at the pivot: each of the three parts is well paired by itself. */
  lemma CutAtPivot(h: seq<Message>, p: nat)
    requires Compactable(h) && 1 <= p <= |h| && (p < |h| ==> h[p].role == Assistant)
    ensures WellPaired(h[..1]) && WellPaired(h[1..p]) && WellPaired(h[p..])
  {
    assert PairedAt(h, 0);
    if p < |h| { assert PairedAt(h, p); }
    WellPairedCut(h, p);
    var front := h[..p];
    if 1 < p { assert PairedAt(front, 0) && PairedAt(front, 1); }
    WellPairedCut(front, 1);
    assert front[..1] == h[..1] && front[1..] == h[1..p];
  }

  lemma SpliceKeepsPairing(h: seq<Message>, p: nat, r: seq<Message>)
    requires Compactable(h) && 1 <= p <= |h| && (p < |h| ==> h[p].role == Assistant)
    requires forall m <- r :: Plain(m.content)
    ensures WellPaired(Splice(h, p, r))
  {
    CutAtPivot(h, p);
    WellPairedPlain(r);
    WellPairedConcat(h[..1], r);
    WellPairedConcat(h[..1] + r, h[p..]);
  }

  lemma SpliceKeepsLead(h: seq<Message>, p: nat, r: seq<Message>)
    requires ArtifactsLead(h) && 1 <= p <= |h|
    requires forall m <- r :: m.artifact && Plain(m.content)
    requires forall j :: p <= j < |h| ==> !h[j].artifact
    ensures ArtifactsLead(Splice(h, p, r))
  {
    var out := Splice(h, p, r);
    assert forall t :: 1 <= t < 1 + |r| ==> out[t] == r[t - 1];
    assert forall t :: 1 + |r| <= t < |out| ==> out[t] == h[t - 1 - |r| + p];
  }

  /** An artifact in the kept tail means that only artifacts are elided: nothing changes. */
  lemma SpliceOfArtifacts(env: Env, h: seq<Message>, p: nat, summary: string, j: nat)
    requires ArtifactsLead(h) && 1 < p <= j < |h| && h[j].artifact
    ensures Splice(h, p, Replacement(env, h[1..p], summary).messages) == h
  {
    ReplacementOfArtifacts(env, h[1..p], summary);
    SpliceSelf(h, p);
  }

  lemma CompactKeepsShape(env: Env, h: seq<Message>, k: int, summary: string)
    requires Compactable(h)
    ensures Compactable(Compact(env, h, k, summary).messages)
  {
    if !TooShort(h, k) {
      var p := Pivot(h, k);
      var r := Replacement(env, h[1..p], summary).messages;
      ReplacementIsArtifacts(env, h[1..p], summary);
      SpliceKeepsPairing(h, p, r);
      if j: nat :| p <= j < |h| && h[j].artifact {
        SpliceOfArtifacts(env, h, p, summary, j);
      } else {
        SpliceKeepsLead(h, p, r);
      }
    }
  }

  /** The task goal and the last k assistant turns survive untouched. */
  lemma CompactKeepsEnds(env: Env, h: seq<Message>, k: int, summary: string)
    requires |h| > 0
    ensures var out, p := Compact(env, h, k, summary).messages, Pivot(h, k);
            && |out| > 0 && out[0] == h[0]
            && (p <= |h| ==> |h| - p <= |out| && out[|out| - (|h| - p)..] == h[p..])
            && (0 < k <= Assistants(h) ==> Assistants(h[p..]) == k)
  {
    if !TooShort(h, k) {
      var p := Pivot(h, k);
      var r := Replacement(env, h[1..p], summary).messages;
      assert Splice(h, p, r)[1 + |r|..] == h[p..];
    }
  }

  // ------------------------------------------------------------------
  // Idempotence
  // ------------------------------------------------------------------

  /** After a replacement the pivot lands on the old tail. */
  lemma PivotAfterReplacement(h: seq<Message>, k: int, r: seq<Message>)
    requires !TooShort(h, k)
    ensures Pivot(Splice(h, Pivot(h, k), r), k) == 1 + |r|
  {
    var p, q := Pivot(h, k), 1 + |r|;
    var once := Splice(h, p, r);
    assert once[q..] == h[p..];
    assert once == once[..q] + once[q..];
    AssistantsConcat(once[..q], once[q..]);
    PivotUnique(once, k, q, Pivot(once, k));
  }

  /** With only artifacts before the pivot there is nothing left to compact. */
  lemma CompactOfArtifacts(env: Env, h: seq<Message>, k: int, summary: string)
    requires forall i: nat :: 1 <= i < Pivot(h, k) && i < |h| ==> h[i].artifact
    ensures Compact(env, h, k, summary) == CompactionOutcome(h, false)
  {
    if !TooShort(h, k) {
      var p := Pivot(h, k);
      ReplacementOfArtifacts(env, h[1..p], summary);
      SpliceSelf(h, p);
    }
  }

  lemma SpliceSelf(h: seq<Message>, p: nat)
    requires 1 <= p <= |h|
    ensures Splice(h, p, h[1..p]) == h
  {
  }

  /** Compacting a compacted history again changes nothing, whatever the summary model
      would say the second time. */
  lemma CompactIdempotent(env: Env, h: seq<Message>, k: int, summary: string, summary': string)
    requires forall m <- h :: m.artifact ==> Plain(m.content)
    ensures var once := Compact(env, h, k, summary).messages;
            Compact(env, once, k, summary') == CompactionOutcome(once, false)
  {
    if !TooShort(h, k) {
      var p := Pivot(h, k);
      var r := Replacement(env, h[1..p], summary).messages;
      ReplacementIsArtifacts(env, h[1..p], summary);
      PivotAfterReplacement(h, k, r);
      CompactOfArtifacts(env, Splice(h, p, r), k, summary');
    }
  }

  // ------------------------------------------------------------------
  // Tool ids
  // ------------------------------------------------------------------

  lemma SpliceIds(h: seq<Message>, p: nat, r: seq<Message>)
    requires 1 <= p <= |h| && forall m <- r :: Plain(m.content)
    ensures multiset(AllResultIds(Splice(h, p, r))) <= multiset(AllResultIds(h))
  {
    var head, elided, tail := h[..1], h[1..p], h[p..];
    AllResultsPlain(r);
    assert h == head + elided + tail;
    AllResultIdsConcat(head, elided);
    AllResultIdsConcat(head + elided, tail);
    AllResultIdsConcat(head, r);
    AllResultIdsConcat(head + r, tail);
  }

  /** Compaction brings no tool id into the history. */
  lemma CompactKeepsIds(env: Env, h: seq<Message>, k: int, summary: string)
    requires forall m <- h :: m.artifact ==> Plain(m.content)
    ensures multiset(AllResultIds(Compact(env, h, k, summary).messages)) <= multiset(AllResultIds(h))
  {
    if !TooShort(h, k) {
      var p := Pivot(h, k);
      ReplacementIsArtifacts(env, h[1..p], summary);
      SpliceIds(h, p, Replacement(env, h[1..p], summary).messages);
    }
  }
}
