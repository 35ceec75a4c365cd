/**
 What a run of the agent loop guarantees about its history, for every sequence of turns: what
 is sent to the model is well paired, and exactly when mail survives all compactions.
 */
module AgentLoopLaws {
  import opened Wrappers
  import opened Messages
  import opened Seqs
  import opened Compaction
  import opened CompactionLaws
  import opened CompactionMail
  import opened AgentLoop

  /** What the adapters and tool handlers promise about block types. */
  predicate ValidTurn(t: Turn) {
    && (forall b <- t.thinking :: b.Thinking?)
    && (forall c <- t.calls :: forall b <- c.view :: b.Image? || b.Document?)
  }

  // ------------------------------------------------------------------
  // What a turn appends is well paired
  // ------------------------------------------------------------------

  function IdsOf(calls: seq<Call>): seq<string> {
    seq(|calls|, i requires 0 <= i < |calls| => calls[i].id)
  }

  lemma {:induction false} CallBlocksIds(calls: seq<Call>)
    ensures UseIds(FlatMap(CallBlock(), calls)) == IdsOf(calls)
    ensures ResultIds(FlatMap(CallBlock(), calls)) == []
  {
    if calls != [] {
      var first, rest := CallBlock()(calls[0]), FlatMap(CallBlock(), calls[1..]);
      CallBlocksIds(calls[1..]);
      UsesConcat(first, rest);
      ResultsConcat(first, rest);
      assert Uses(first) == first && Results(first) == [];
    }
  }

  /** The answer to one call: its result, then its view. */
  lemma OneAnswer(c: Call)
    requires forall b <- c.view :: b.Image? || b.Document?
    ensures ResultIds(AnswerBlocks()(c)) == [c.id] && UseIds(AnswerBlocks()(c)) == []
  {
    var own := ToolResult(c.id, JStr(c.result), c.isError);
    OneBlock(own);
    PlainHasNone(c.view);
    hide Uses, Results, UseIds, ResultIds;
    ResultsConcat([own], c.view);
    UsesConcat([own], c.view);
  }

  lemma {:induction false} AnswerBlocksIds(calls: seq<Call>)
    requires forall c <- calls :: forall b <- c.view :: b.Image? || b.Document?
    ensures ResultIds(FlatMap(AnswerBlocks(), calls)) == IdsOf(calls)
    ensures UseIds(FlatMap(AnswerBlocks(), calls)) == []
  {
    if calls == [] {
      assert ResultIds([]) == [] && UseIds([]) == [];
    } else {
      hide Uses, Results, UseIds, ResultIds, AnswerBlocks;
      var first, rest := AnswerBlocks()(calls[0]), FlatMap(AnswerBlocks(), calls[1..]);
      OneAnswer(calls[0]);
      AnswerBlocksIds(calls[1..]);
      ResultsConcat(first, rest);
      UsesConcat(first, rest);
      assert IdsOf(calls) == [calls[0].id] + IdsOf(calls[1..]);
    }
  }

  lemma AssistantBlocksIds(t: Turn, calls: seq<Call>)
    requires ValidTurn(t)
    ensures UseIds(AssistantBlocks(t, calls)) == IdsOf(calls)
    ensures ResultIds(AssistantBlocks(t, calls)) == []
  {
    var front := t.thinking + if t.text != "" then [Text(t.text)] else [];
    PlainHasNone(front);
    CallBlocksIds(calls);
    UsesConcat(front, FlatMap(CallBlock(), calls));
    ResultsConcat(front, FlatMap(CallBlock(), calls));
  }

  /** The assistant message of a turn and the answers to its calls. */
  lemma ToolExchangePaired(t: Turn)
    requires ValidTurn(t)
    ensures WellPaired(AssistantSays(t, t.calls) + ToolsSay(t.calls))
  {
    AssistantBlocksIds(t, t.calls);
    if t.calls == [] {
      AssistantAlonePaired(t);
    } else {
      AnswerBlocksIds(t.calls);
      assert IdsOf(t.calls) != [];
      WellPairedExchange(AssistantSays(t, t.calls)[0], ToolsSay(t.calls)[0]);
    }
  }

  lemma AssistantAlonePaired(t: Turn)
    requires ValidTurn(t)
    ensures WellPaired(AssistantSays(t, []))
  {
    AssistantBlocksIds(t, []);
  }

  // ------------------------------------------------------------------
  // The invariant about histories
  // ------------------------------------------------------------------

  /** Every fetch that the run's compactions elided met the condition on ids. */
  ghost predicate AllFetchesKept(cfg: Config, s: Loop) {
    forall h <- s.log.compacted :: FetchesKept(cfg.env, h, cfg.keepLastK)
  }

  ghost predicate FetchGained(cfg: Config, s: Loop) {
    exists h :: h in s.log.compacted && SomeFetchGains(cfg.env, h, cfg.keepLastK)
  }

  /** Unless some fetch gained another's mail: the mail record is that of the never-compacted
      history while every fetch was kept, and from the first lost one on it never is again. */
  ghost predicate MailInv(cfg: Config, s: Loop)
    requires s.messages != []
  {
    var full := MailRecord(cfg.env, s.log.full);
    FetchGained(cfg, s)
    || (&& |MailRecord(cfg.env, s.messages)| <= |full|
        && if AllFetchesKept(cfg, s) then MailRecord(cfg.env, s.messages) == full
           else Diverged(cfg.env, s.messages, full))
  }

  /** The working history is compactable and every history sent so far was well paired. */
  ghost predicate ShapeInv(s: Loop) {
    && Compactable(s.messages)
    && WellPaired(s.log.full)
    && (forall h <- s.log.sent :: WellPaired(h))
  }

  /** Compaction only ever saw compactable histories with no tool id of its own. */
  ghost predicate IdsInv(s: Loop) {
    && multiset(AllResultIds(s.messages)) <= multiset(AllResultIds(s.log.full))
    && (forall h <- s.log.compacted ::
          Compactable(h) && multiset(AllResultIds(h)) <= multiset(AllResultIds(s.log.full)))
  }

  ghost predicate HistoryInv(cfg: Config, s: Loop) {
    ShapeInv(s) && IdsInv(s) && MailInv(cfg, s)
  }

  lemma ExtendCompactable(h: seq<Message>, ext: seq<Message>)
    requires Compactable(h) && WellPaired(ext) && forall m <- ext :: !m.artifact
    ensures Compactable(h + ext)
  {
    WellPairedConcat(h, ext);
  }

  lemma ExtendKeepsInv(cfg: Config, s: Loop, ext: seq<Message>)
    requires HistoryInv(cfg, s) && WellPaired(ext) && forall m <- ext :: !m.artifact
    ensures HistoryInv(cfg, Extend(s, ext))
  {
    var full := s.log.full;
    ExtendCompactable(s.messages, ext);
    WellPairedConcat(full, ext);
    AllResultIdsConcat(s.messages, ext);
    AllResultIdsConcat(full, ext);
    hide Compactable, AllResultIds, MailRecord, WellPaired;
    ExtendKeepsMail(cfg, s, ext);
  }

  lemma ExtendKeepsMail(cfg: Config, s: Loop, ext: seq<Message>)
    requires Compactable(s.messages) && WellPaired(s.log.full) && MailInv(cfg, s)
    requires WellPaired(ext) && forall m <- ext :: !m.artifact
    ensures MailInv(cfg, Extend(s, ext))
  {
    hide MailRecord, FetchesKept, SomeFetchGains;
    MailRecordConcat(cfg.env, s.messages, ext);
    MailRecordConcat(cfg.env, s.log.full, ext);
    var full := MailRecord(cfg.env, s.log.full);
    assert FetchGained(cfg, Extend(s, ext)) == FetchGained(cfg, s);
    assert AllFetchesKept(cfg, Extend(s, ext)) == AllFetchesKept(cfg, s);
    if |MailRecord(cfg.env, s.messages)| <= |full| && Diverged(cfg.env, s.messages, full) {
      ExtendKeepsDiverged(cfg.env, s.messages, full, ext);
    }
  }

  lemma SayTextKeepsInv(cfg: Config, s: Loop, text: string)
    requires HistoryInv(cfg, s)
    ensures HistoryInv(cfg, Extend(s, [TextMessage(User, text)]))
  {
    WellPairedPlain([TextMessage(User, text)]);
    ExtendKeepsInv(cfg, s, [TextMessage(User, text)]);
  }

  lemma NoticeKeepsInv(cfg: Config, s: Loop, notice: Option<string>)
    requires HistoryInv(cfg, s)
    ensures HistoryInv(cfg, Extend(s, NoticeSays(notice)))
  {
    if notice.Some? {
      SayTextKeepsInv(cfg, s, notice.value);
    } else {
      ExtendKeepsInv(cfg, s, []);
    }
  }

  lemma SwapKeepsInv(cfg: Config, s: Loop, summary: string)
    requires HistoryInv(cfg, s)
    ensures HistoryInv(cfg, Swap(s, Compact(cfg.env, s.messages, cfg.keepLastK, summary)))
  {
    hide ShapeInv, IdsInv, MailInv, Swap, Compact;
    SwapKeepsShape(cfg, s, summary);
    SwapKeepsIds(cfg, s, summary);
    SwapKeepsMail(cfg, s, summary);
  }

  lemma SwapKeepsShape(cfg: Config, s: Loop, summary: string)
    requires ShapeInv(s)
    ensures Compactable(s.messages)
    ensures ShapeInv(Swap(s, Compact(cfg.env, s.messages, cfg.keepLastK, summary)))
  {
    hide Compact, Compactable, WellPaired;
    CompactKeepsShape(cfg.env, s.messages, cfg.keepLastK, summary);
  }

  lemma SwapKeepsIds(cfg: Config, s: Loop, summary: string)
    requires IdsInv(s) && Compactable(s.messages)
    ensures IdsInv(Swap(s, Compact(cfg.env, s.messages, cfg.keepLastK, summary)))
  {
    hide Compact, WellPaired, AllResultIds;
    CompactKeepsIds(cfg.env, s.messages, cfg.keepLastK, summary);
  }

  lemma SwapKeepsMail(cfg: Config, s: Loop, summary: string)
    requires Compactable(s.messages) && MailInv(cfg, s)
    ensures Compact(cfg.env, s.messages, cfg.keepLastK, summary).messages != []
    ensures MailInv(cfg, Swap(s, Compact(cfg.env, s.messages, cfg.keepLastK, summary)))
  {
    var h, k := s.messages, cfg.keepLastK;
    var s' := Swap(s, Compact(cfg.env, h, k, summary));
    CompactKeepsShape(cfg.env, h, k, summary);
    if s.messages != [] && !FetchGained(cfg, s') {
      assert forall g <- s.log.compacted :: g in s'.log.compacted;
      assert h in s'.log.compacted;
      assert AllFetchesKept(cfg, s') <==> AllFetchesKept(cfg, s) && FetchesKept(cfg.env, h, k);
      CompactAgainst(cfg.env, h, k, summary, MailRecord(cfg.env, s.log.full));
    }
  }

  lemma ToolsKeepInv(cfg: Config, s: Loop, t: Turn)
    requires HistoryInv(cfg, s) && ValidTurn(t)
    ensures HistoryInv(cfg, RunTools(s, t))
  {
    ToolExchangePaired(t);
    ExtendKeepsInv(cfg, s, AssistantSays(t, t.calls) + ToolsSay(t.calls));
    hide HistoryInv, Acts;
    SameHistories(cfg, Extend(s, AssistantSays(t, t.calls) + ToolsSay(t.calls)), RunTools(s, t));
  }

  lemma SilentNudgeKeepsInv(cfg: Config, s: Loop)
    requires HistoryInv(cfg, s)
    ensures HistoryInv(cfg, SilentNudge(s))
  {
    hide HistoryInv;
    SayTextKeepsInv(cfg, s, SILENT_TURN_NUDGE);
    SameHistories(cfg, Extend(s, [TextMessage(User, SILENT_TURN_NUDGE)]), SilentNudge(s));
  }

  lemma SaidKeepsInv(cfg: Config, s: Loop, t: Turn)
    requires HistoryInv(cfg, s) && ValidTurn(t)
    ensures HistoryInv(cfg, Extend(s, AssistantSays(t, [])))
  {
    AssistantAlonePaired(t);
    ExtendKeepsInv(cfg, s, AssistantSays(t, []));
  }

  lemma ToolTurnKeepsInv(cfg: Config, s: Loop, t: Turn)
    requires HistoryInv(cfg, s) && ValidTurn(t)
    ensures HistoryInv(cfg, ToolTurn(cfg, s, t).0)
  {
    hide HistoryInv, RunTools, DeadLoopGuard, Aftermath;
    ToolsKeepInv(cfg, s, t);
    GuardKeepsInv(cfg, RunTools(s, t), t);
    AftermathKeepsInv(cfg, DeadLoopGuard(cfg, RunTools(s, t), t).0, t);
  }

  lemma AftermathKeepsInv(cfg: Config, s: Loop, t: Turn)
    requires HistoryInv(cfg, s)
    ensures HistoryInv(cfg, Aftermath(cfg, s, t).0)
  {
    hide HistoryInv, SilentNudge, AutoCompact;
    SilentNudgeKeepsInv(cfg, s);
    AutoCompactKeepsInv(cfg, if WantsSilentNudge(s, t) then SilentNudge(s) else s, t);
  }

  /** The invariant is about histories only. */
  lemma SameHistories(cfg: Config, s: Loop, s': Loop)
    requires HistoryInv(cfg, s) && s'.messages == s.messages && s'.log.full == s.log.full
    requires s'.log.compacted == s.log.compacted
    requires s'.log.sent == s.log.sent || s'.log.sent == s.log.sent + [s.messages]
    ensures HistoryInv(cfg, s')
  {
    hide FetchesKept, SomeFetchGains, MailRecord, ArtifactsLead, UniqueToolIds;
    assert FetchGained(cfg, s') == FetchGained(cfg, s) && AllFetchesKept(cfg, s') == AllFetchesKept(cfg, s);
    hide WellPaired;
  }

  lemma GuardKeepsInv(cfg: Config, s: Loop, t: Turn)
    requires HistoryInv(cfg, s)
    ensures HistoryInv(cfg, DeadLoopGuard(cfg, s, t).0)
  {
    hide Fingerprint, HistoryInv;
    var nudged := Extend(s, [TextMessage(User, LOOP_REPEAT_NUDGE)]);
    SayTextKeepsInv(cfg, s, LOOP_REPEAT_NUDGE);
    var s' := DeadLoopGuard(cfg, s, t).0;
    if s'.messages == s.messages && s'.log.full == s.log.full {
      SameHistories(cfg, s, s');
    } else {
      SameHistories(cfg, nudged, s');
    }
  }

  lemma AutoCompactKeepsInv(cfg: Config, s: Loop, t: Turn)
    requires HistoryInv(cfg, s)
    ensures HistoryInv(cfg, AutoCompact(cfg, s, t).0)
  {
    hide HistoryInv, Swap, Compact;
    SwapKeepsInv(cfg, s, t.summary);
    SameHistories(cfg, s, s.(finalReason := EndTurn, acted := false, nudges := MAX_SILENT_TURN_NUDGES));
  }

  lemma BeginTurnKeepsInv(cfg: Config, s: Loop, t: Turn)
    requires HistoryInv(cfg, s)
    ensures HistoryInv(cfg, BeginTurn(s, t))
  {
    hide HistoryInv;
    NoticeKeepsInv(cfg, s, t.notice);
    SameHistories(cfg, Extend(s, NoticeSays(t.notice)), BeginTurn(s, t));
  }

  lemma NoToolTurnKeepsInv(cfg: Config, s: Loop, t: Turn)
    requires HistoryInv(cfg, s) && ValidTurn(t)
    ensures HistoryInv(cfg, NoToolTurn(s, t).0)
  {
    hide HistoryInv, Extend, SilentNudge;
    SaidKeepsInv(cfg, s, t);
    var spoken := Extend(s, AssistantSays(t, []));
    NoticeKeepsInv(cfg, spoken, t.lateNotice);
    SilentNudgeKeepsInv(cfg, spoken);
  }

  lemma InterruptedTurnKeepsInv(cfg: Config, s: Loop, t: Turn)
    requires HistoryInv(cfg, s) && ValidTurn(t)
    ensures HistoryInv(cfg, InterruptedTurn(s, t))
  {
    hide HistoryInv, RunTools, Extend;
    ToolsKeepInv(cfg, s, t);
    NoticeKeepsInv(cfg, RunTools(s, t), t.lateNotice);
  }

  lemma TurnStepKeepsInv(cfg: Config, s: Loop, t: Turn)
    requires HistoryInv(cfg, s) && ValidTurn(t)
    ensures HistoryInv(cfg, TurnStep(cfg, s, t).0)
  {
    hide HistoryInv, BeginTurn, InterruptedTurn, NoToolTurn, ToolTurn, ValidTurn;
    var s0 := Boundary(s, t);
    SameHistories(cfg, s, s0);
    BeginTurnKeepsInv(cfg, s0, t);
    var s1 := BeginTurn(s0, t);
    InterruptedTurnKeepsInv(cfg, s1, t);
    NoToolTurnKeepsInv(cfg, s1, t);
    ToolTurnKeepsInv(cfg, s1, t);
  }

  lemma {:induction false} RunKeepsInv(cfg: Config, s: Loop, turns: seq<Turn>)
    requires HistoryInv(cfg, s) && forall t <- turns :: ValidTurn(t)
    ensures HistoryInv(cfg, Run(cfg, s, turns).state)
    decreases |turns|
  {
    if turns != [] {
      TurnStepKeepsInv(cfg, s, turns[0]);
      var (s', flow) := TurnStep(cfg, s, turns[0]);
      if flow.Continue? { RunKeepsInv(cfg, s', turns[1..]); }
    }
  }

  /** Every history sent to the model is well paired, on every run. */
  lemma EveryHistorySentIsPaired(cfg: Config, initial: seq<Message>, turns: seq<Turn>)
    requires Compactable(initial) && forall t <- turns :: ValidTurn(t)
    ensures forall h <- Run(cfg, Start(initial), turns).state.log.sent :: WellPaired(h)
    ensures WellPaired(Run(cfg, Start(initial), turns).state.messages)
  {
    RunKeepsInv(cfg, Start(initial), turns);
  }

  // ------------------------------------------------------------------
  // The run that never elides anything
  // ------------------------------------------------------------------

  /** The same run when compaction keeps so many turns that it never elides any. */
  function Uncompacted(cfg: Config, keep: nat): Config {
    cfg.(keepLastK := keep)
  }

  /** `u` is where the uncompacted run stands when the run stands at `s`. */
  ghost predicate Shadows(u: Loop, s: Loop) {
    u == s.(messages := s.log.full, degraded := u.degraded,
            log := s.log.(sent := u.log.sent, compacted := u.log.compacted))
  }

  /** The never-compacted history grew, by at most n assistant messages. */
  ghost predicate Grows(s: Loop, s': Loop, n: nat) {
    s.log.full <= s'.log.full && Assistants(s'.log.full) <= Assistants(s.log.full) + n
  }

  lemma ExtendGrows(s: Loop, ext: seq<Message>)
    ensures Grows(s, Extend(s, ext), Assistants(ext))
  {
    AssistantsConcat(s.log.full, ext);
  }

  lemma AssistantsOfOne(ms: seq<Message>)
    requires |ms| <= 1
    ensures Assistants(ms) == if |ms| == 1 && ms[0].role == Assistant then 1 else 0
  {
  }

  lemma SayingsGrow(s: Loop, t: Turn, notice: Option<string>, text: string)
    ensures Grows(s, Extend(s, NoticeSays(notice)), 0)
    ensures Grows(s, Extend(s, [TextMessage(User, text)]), 0)
    ensures Grows(s, Extend(s, AssistantSays(t, [])), 1)
    ensures Grows(s, RunTools(s, t), 1)
  {
    ExtendGrows(s, NoticeSays(notice));
    AssistantsOfOne(NoticeSays(notice));
    ExtendGrows(s, [TextMessage(User, text)]);
    AssistantsOfOne([TextMessage(User, text)]);
    ExtendGrows(s, AssistantSays(t, []));
    AssistantsOfOne(AssistantSays(t, []));
    ExtendGrows(s, AssistantSays(t, t.calls) + ToolsSay(t.calls));
    AssistantsConcat(AssistantSays(t, t.calls), ToolsSay(t.calls));
    AssistantsOfOne(AssistantSays(t, t.calls));
    AssistantsOfOne(ToolsSay(t.calls));
  }

  lemma ToolTurnGrows(cfg: Config, s: Loop, t: Turn)
    ensures Grows(s, ToolTurn(cfg, s, t).0, 1)
  {
    SayingsGrow(s, t, None, "");
    GuardGrows(cfg, RunTools(s, t), t);
    AftermathGrows(cfg, DeadLoopGuard(cfg, RunTools(s, t), t).0, t);
  }

  lemma AftermathGrows(cfg: Config, s: Loop, t: Turn)
    ensures Grows(s, Aftermath(cfg, s, t).0, 0)
  {
    SayingsGrow(s, t, None, SILENT_TURN_NUDGE);
  }

  lemma GuardGrows(cfg: Config, s: Loop, t: Turn)
    ensures Grows(s, DeadLoopGuard(cfg, s, t).0, 0)
  {
    SayingsGrow(s, t, None, LOOP_REPEAT_NUDGE);
  }

  lemma NoToolTurnGrows(s: Loop, t: Turn)
    ensures Grows(s, NoToolTurn(s, t).0, 1)
  {
    SayingsGrow(s, t, None, "");
    SayingsGrow(Extend(s, AssistantSays(t, [])), t, t.lateNotice, SILENT_TURN_NUDGE);
  }

  /** One iteration adds at most one assistant message. */
  lemma StepGrows(cfg: Config, s: Loop, t: Turn)
    ensures Grows(s, TurnStep(cfg, s, t).0, 1)
  {
    hide Compact, Fingerprint, AssistantSays, ToolsSay;
    SayingsGrow(Boundary(s, t), t, t.notice, "");
    var s1 := BeginTurn(Boundary(s, t), t);
    assert Grows(s, s1, 0);
    InterruptedTurnGrows(s1, t);
    NoToolTurnGrows(s1, t);
    ToolTurnGrows(cfg, s1, t);
  }

  lemma InterruptedTurnGrows(s: Loop, t: Turn)
    ensures Grows(s, InterruptedTurn(s, t), 1)
  {
    SayingsGrow(s, t, None, "");
    SayingsGrow(RunTools(s, t), t, t.lateNotice, "");
  }

  lemma NothingElided(env: Env, h: seq<Message>, keep: nat, summary: string)
    requires Assistants(h) < keep
    ensures Compact(env, h, keep, summary) == CompactionOutcome(h, false)
  {
  }

  lemma ToolTurnShadows(cfg: Config, keep: nat, u: Loop, s: Loop, t: Turn)
    requires Shadows(u, s) && Assistants(s.log.full) + 1 < keep
    ensures Shadows(ToolTurn(Uncompacted(cfg, keep), u, t).0, ToolTurn(cfg, s, t).0)
    ensures ToolTurn(Uncompacted(cfg, keep), u, t).1 == ToolTurn(cfg, s, t).1
  {
    var cfg' := Uncompacted(cfg, keep);
    var s1, u1 := RunTools(s, t), RunTools(u, t);
    SayingsGrow(s, t, None, "");
    GuardShadows(cfg, keep, u1, s1, t);
    GuardGrows(cfg, s1, t);
    AftermathShadows(cfg, keep, DeadLoopGuard(cfg', u1, t).0, DeadLoopGuard(cfg, s1, t).0, t);
  }

  lemma AftermathShadows(cfg: Config, keep: nat, u: Loop, s: Loop, t: Turn)
    requires Shadows(u, s) && Assistants(s.log.full) < keep
    ensures Shadows(Aftermath(Uncompacted(cfg, keep), u, t).0, Aftermath(cfg, s, t).0)
    ensures Aftermath(Uncompacted(cfg, keep), u, t).1 == Aftermath(cfg, s, t).1
  {
    SayingsGrow(s, t, None, SILENT_TURN_NUDGE);
    AutoCompactShadows(cfg, keep,
      if WantsSilentNudge(u, t) then SilentNudge(u) else u,
      if WantsSilentNudge(s, t) then SilentNudge(s) else s, t);
  }

  lemma GuardShadows(cfg: Config, keep: nat, u: Loop, s: Loop, t: Turn)
    requires Shadows(u, s)
    ensures Shadows(DeadLoopGuard(Uncompacted(cfg, keep), u, t).0, DeadLoopGuard(cfg, s, t).0)
    ensures DeadLoopGuard(Uncompacted(cfg, keep), u, t).1 == DeadLoopGuard(cfg, s, t).1
  {
  }

  lemma SwapShadows(u: Loop, s: Loop, outcome: CompactionOutcome)
    requires Shadows(u, s)
    ensures Shadows(Swap(u, CompactionOutcome(u.messages, false)), Swap(s, outcome))
  {
  }

  lemma AutoCompactShadows(cfg: Config, keep: nat, u: Loop, s: Loop, t: Turn)
    requires Shadows(u, s) && Assistants(s.log.full) < keep
    ensures Shadows(AutoCompact(Uncompacted(cfg, keep), u, t).0, AutoCompact(cfg, s, t).0)
    ensures AutoCompact(Uncompacted(cfg, keep), u, t).1 == AutoCompact(cfg, s, t).1
  {
    NothingElided(cfg.env, u.messages, keep, t.summary);
    SwapShadows(u, s, Compact(cfg.env, s.messages, cfg.keepLastK, t.summary));
  }

  lemma BeginTurnShadows(u: Loop, s: Loop, t: Turn)
    requires Shadows(u, s)
    ensures Shadows(Boundary(u, t), Boundary(s, t))
    ensures Shadows(BeginTurn(Boundary(u, t), t), BeginTurn(Boundary(s, t), t))
  {
  }

  lemma BodyShadows(cfg: Config, keep: nat, u: Loop, s: Loop, t: Turn)
    requires Shadows(u, s) && Assistants(s.log.full) + 1 < keep
    ensures Shadows(TurnBody(Uncompacted(cfg, keep), u, t).0, TurnBody(cfg, s, t).0)
    ensures TurnBody(Uncompacted(cfg, keep), u, t).1 == TurnBody(cfg, s, t).1
  {
    if !t.interrupted && t.calls != [] {
      ToolTurnShadows(cfg, keep, u, s, t);
    } else {
      QuietShadows(u, s, t);
    }
  }

  lemma QuietShadows(u: Loop, s: Loop, t: Turn)
    requires Shadows(u, s)
    ensures Shadows(InterruptedTurn(u, t), InterruptedTurn(s, t))
    ensures Shadows(NoToolTurn(u, t).0, NoToolTurn(s, t).0) && NoToolTurn(u, t).1 == NoToolTurn(s, t).1
  {
  }

  lemma StepShadows(cfg: Config, keep: nat, u: Loop, s: Loop, t: Turn)
    requires Shadows(u, s) && Assistants(s.log.full) + 1 < keep
    ensures Shadows(TurnStep(Uncompacted(cfg, keep), u, t).0, TurnStep(cfg, s, t).0)
    ensures TurnStep(Uncompacted(cfg, keep), u, t).1 == TurnStep(cfg, s, t).1
  {
    BeginTurnShadows(u, s, t);
    SayingsGrow(Boundary(s, t), t, t.notice, "");
    BodyShadows(cfg, keep, BeginTurn(Boundary(u, t), t), BeginTurn(Boundary(s, t), t), t);
  }

  lemma {:induction false} RunShadows(cfg: Config, keep: nat, u: Loop, s: Loop, turns: seq<Turn>)
    requires Shadows(u, s) && Assistants(s.log.full) + |turns| < keep
    ensures var r, r' := Run(cfg, s, turns), Run(Uncompacted(cfg, keep), u, turns);
            Shadows(r'.state, r.state) && r'.exit == r.exit && r'.turns == r.turns
    decreases |turns|
  {
    if turns != [] {
      var (s', flow) := TurnStep(cfg, s, turns[0]);
      StepGrows(cfg, s, turns[0]);
      StepShadows(cfg, keep, u, s, turns[0]);
      if flow.Continue? {
        RunShadows(cfg, keep, TurnStep(Uncompacted(cfg, keep), u, turns[0]).0, s', turns[1..]);
      }
    }
  }

  /** Exactly when mail survives a run. Compare with the run that keeps more turns than it will
      ever have, so that it never elides one: it makes the same number of iterations and ends
      the same way. The two mail records are equal and no fetch was given another's mail, if and
      only if every fetch that a compaction elided met the condition on ids. */
  lemma MailSurvivesEveryRun(cfg: Config, s: Loop, turns: seq<Turn>, keep: nat)
    requires s == Start(s.messages) && Compactable(s.messages) && forall t <- turns :: ValidTurn(t)
    requires Assistants(s.messages) + |turns| < keep
    ensures var r, r' := Run(cfg, s, turns), Run(Uncompacted(cfg, keep), s, turns);
            && (&& MailRecord(cfg.env, r.state.messages) == MailRecord(cfg.env, r'.state.messages)
                && !FetchGained(cfg, r.state)
                <==> AllFetchesKept(cfg, r.state))
            && r.exit == r'.exit && r.turns == r'.turns
  {
    StartKeepsInv(cfg, s);
    RunShadows(cfg, keep, s, s, turns);
    RunKeepsInv(cfg, s, turns);
    var e := Run(cfg, s, turns).state;
    hide Run, MailRecord, Compactable, FetchesKept, SomeFetchGains;
    RecordTells(cfg, e);
  }

  lemma RecordTells(cfg: Config, s: Loop)
    requires HistoryInv(cfg, s)
    ensures MailRecord(cfg.env, s.messages) == MailRecord(cfg.env, s.log.full) && !FetchGained(cfg, s)
            <==> AllFetchesKept(cfg, s)
  {
    if AllFetchesKept(cfg, s) {
      forall h <- s.log.compacted
        ensures !SomeFetchGains(cfg.env, h, cfg.keepLastK)
      {
        CompactKeepsMailIff(cfg.env, h, cfg.keepLastK, "");
      }
    }
    LeadIsPrefix(cfg.env, s.messages);
  }

  /** In particular, mail survives every run whose tool ids are present and unique. */
  lemma UniqueIdsSurvive(cfg: Config, s: Loop, turns: seq<Turn>, keep: nat)
    requires s == Start(s.messages) && Compactable(s.messages) && forall t <- turns :: ValidTurn(t)
    requires Assistants(s.messages) + |turns| < keep
    requires UniqueToolIds(Run(Uncompacted(cfg, keep), s, turns).state.messages)
    ensures AllFetchesKept(cfg, Run(cfg, s, turns).state)
    ensures MailRecord(cfg.env, Run(cfg, s, turns).state.messages)
            == MailRecord(cfg.env, Run(Uncompacted(cfg, keep), s, turns).state.messages)
  {
    StartKeepsInv(cfg, s);
    RunShadows(cfg, keep, s, s, turns);
    RunKeepsInv(cfg, s, turns);
    var e := Run(cfg, s, turns).state;
    hide Run, MailRecord, Compactable, FetchesKept, UniqueToolIds;
    forall h <- e.log.compacted
      ensures FetchesKept(cfg.env, h, cfg.keepLastK)
    {
      UniqueToolIdsSub(h, e.log.full);
      UniqueIdsKeepFetches(cfg.env, h, cfg.keepLastK);
    }
    MailSurvivesEveryRun(cfg, s, turns, keep);
  }

  lemma StartKeepsInv(cfg: Config, s: Loop)
    requires s == Start(s.messages) && Compactable(s.messages)
    ensures HistoryInv(cfg, s)
  {
  }
}
