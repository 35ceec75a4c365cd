/**
 The code of `AgentLoop.run` and its helpers, as methods that update the loop's state in
 place, each proved against the specification in AgentLoop.dfy.

 The local variables of the original `run` are fields here, so that its paths can be
 methods of their own. `max_turns` is the number of turns offered.
 */
module AgentLoopCode {
  import opened Wrappers
  import opened Messages
  import opened Seqs
  import opened Compaction
  import opened Spec = AgentLoop
  import opened AgentLoopVerdicts

  /** The run that continues at turn i. */
  ghost function RunFrom(cfg: Config, s: Loop, turns: seq<Turn>, i: nat): RunEnd
    requires i <= |turns|
  {
    var r := Run(cfg, s, turns[i..]);
    r.(turns := r.turns + i)
  }

  lemma RunFromEnds(cfg: Config, s: Loop, turns: seq<Turn>)
    ensures RunFrom(cfg, s, turns, 0) == Run(cfg, s, turns)
    ensures RunFrom(cfg, s, turns, |turns|) == RunEnd(s, Exhausted, |turns|)
  {
    assert turns[0..] == turns && turns[|turns|..] == [];
  }

  /** One iteration taken off the front of a run. */
  lemma RunUnfold(cfg: Config, s: Loop, turns: seq<Turn>, i: nat)
    requires i < |turns|
    ensures var (s', flow) := TurnStep(cfg, s, turns[i]);
            && flow != Break(Exhausted)
            && RunFrom(cfg, s, turns, i) ==
                 if flow.Break? then RunEnd(s', flow.exit, i + 1) else RunFrom(cfg, s', turns, i + 1)
  {
    assert turns[i..][0] == turns[i] && turns[i..][1..] == turns[i + 1..];
  }

  class AgentLoop {
    const cfg: Config
    var messages: seq<Message>
    var toolCalls: seq<Call>
    var finalReason: StopReason
    var stop: Option<StopRequest>
    var repeatFingerprint: Option<multiset<string>>
    var repeatCount: nat
    var repeatNudged: bool
    var madeUserFacingAction: bool
    var silentTurnNudgesUsed: nat
    var compactionCount: nat
    var compactionSummaryDegraded: nat
    ghost var log: Log

    ghost function State(): Loop
      reads this
    {
      Loop(messages, toolCalls, finalReason, stop, repeatFingerprint, repeatCount, repeatNudged,
           madeUserFacingAction, silentTurnNudgesUsed, compactionCount, compactionSummaryDegraded, log)
    }

    constructor (cfg: Config)
      ensures this.cfg == cfg && State() == Start([])
    {
      this.cfg := cfg;
      messages, toolCalls, finalReason, stop := [], [], NoReason, None;
      repeatFingerprint, repeatCount, repeatNudged := None, 0, false;
      madeUserFacingAction, silentTurnNudgesUsed := false, 0;
      compactionCount, compactionSummaryDegraded := 0, 0;
      log := Log([], [], [], [], 0);
    }

    /** Safe to call from another task; the first request wins. */
    method RequestStopOnce(request: StopRequest)
      modifies this`stop
      ensures State() == RequestStop(old(State()), Some(request))
    {
      if stop == None {
        stop := Some(request);
      }
    }

    /** A request that another task may or may not have raised. */
    method ObserveStop(request: Option<StopRequest>)
      modifies this`stop
      ensures State() == RequestStop(old(State()), request)
    {
      if request.Some? {
        RequestStopOnce(request.value);
      }
    }

    method Append(m: Message)
      modifies this`messages, this`log
      ensures State() == Extend(old(State()), [m])
    {
      messages := messages + [m];
      log := log.(full := log.full + [m]);
    }

    method InjectBlockerNotice(notice: Option<string>)
      modifies this`messages, this`log
      ensures State() == Extend(old(State()), NoticeSays(notice))
    {
      if notice.Some? {
        Append(TextMessage(User, notice.value));
      } else {
        assert messages + [] == messages && log.full + [] == log.full;
      }
    }

    /** Thinking first, then text, then the calls; nothing at all makes no message. */
    method AppendAssistantMessage(t: Turn, calls: seq<Call>)
      modifies this`messages, this`log
      ensures State() == Extend(old(State()), AssistantSays(t, calls))
    {
      var blocks := t.thinking;
      if t.text != "" {
        blocks := blocks + [Text(t.text)];
      }
      ghost var front := blocks;
      for i := 0 to |calls|
        invariant State() == old(State())
        invariant blocks == front + FlatMap(CallBlock(), calls[..i])
      {
        FlatMapTake(CallBlock(), calls, i);
        blocks := blocks + [ToolUse(calls[i].id, calls[i].name, calls[i].input)];
      }
      assert calls[..|calls|] == calls;
      assert blocks == AssistantBlocks(t, calls);
      if blocks != [] {
        assert AssistantSays(t, calls) == [Message(Assistant, blocks, false)];
        Append(Message(Assistant, blocks, false));
      } else {
        assert AssistantSays(t, calls) == [];
        assert messages + [] == messages && log.full + [] == log.full;
      }
    }

    /** Dispatches the calls in order and feeds their results back as one user message. */
    method DispatchTools(calls: seq<Call>)
      modifies this`messages, this`log, this`madeUserFacingAction
      ensures State() == Extend(old(State()), ToolsSay(calls)).(acted := old(State()).acted || Acts(calls))
    {
      var blocks: seq<Block> := [];
      for i := 0 to |calls|
        invariant blocks == FlatMap(AnswerBlocks(), calls[..i])
        invariant State() == old(State()).(acted := old(State()).acted || Acts(calls[..i]))
      {
        FlatMapTake(AnswerBlocks(), calls, i);
        blocks := blocks + ([ToolResult(calls[i].id, JStr(calls[i].result), calls[i].isError)] + calls[i].view);
        assert calls[..i + 1][..i] == calls[..i];
        if calls[i].name in USER_FACING_TOOLS {
          madeUserFacingAction := true;
        }
      }
      assert calls[..|calls|] == calls;
      if calls != [] {
        Append(Message(User, blocks, false));
      } else {
        assert messages + [] == messages && log.full + [] == log.full;
      }
    }

    /** An assistant message and the answers to its calls. */
    method RunToolTurn(t: Turn)
      modifies this`messages, this`log, this`madeUserFacingAction
      ensures State() == RunTools(old(State()), t)
    {
      AppendAssistantMessage(t, t.calls);
      DispatchTools(t.calls);
      ghost var said, fed := AssistantSays(t, t.calls), ToolsSay(t.calls);
      assert old(messages) + said + fed == old(messages) + (said + fed);
      assert old(log.full) + said + fed == old(log.full) + (said + fed);
    }

    method InjectSilentTurnNudge()
      modifies this`messages, this`log, this`silentTurnNudgesUsed
      ensures State() == SilentNudge(old(State()))
    {
      Append(TextMessage(User, SILENT_TURN_NUDGE));
      silentTurnNudgesUsed := silentTurnNudgesUsed + 1;
      log := log.(nudges := log.nudges + 1);
    }

    /** Returns true when the loop must stop. */
    method GuardDeadLoop(t: Turn) returns (bail: bool)
      modifies this
      ensures (State(), if bail then Break(DeadLoop) else Continue) == DeadLoopGuard(cfg, old(State()), t)
    {
      bail := false;
      if cfg.repeatThreshold > 0 {
        var current := Fingerprint(cfg.dump, t.calls);
        log := log.(fps := log.fps + [current]);
        if Some(current) == repeatFingerprint {
          repeatCount := repeatCount + 1;
        } else {
          repeatFingerprint := Some(current);
          repeatCount := 1;
          repeatNudged := false;
        }
        if repeatCount >= cfg.repeatThreshold {
          if !repeatNudged {
            Append(TextMessage(User, LOOP_REPEAT_NUDGE));
            repeatNudged := true;
          } else {
            stop := Some(StopRequest(NeedsContinuation, "dead_loop"));
            bail := true;
          }
        }
      }
    }

    /** Returns true when compaction thrashes and the loop must stop. */
    method CompactIfNeeded(t: Turn) returns (thrashed: bool)
      modifies this
      ensures (State(), if thrashed then Break(Thrash) else Continue) == AutoCompact(cfg, old(State()), t)
    {
      hide Compact;
      thrashed := false;
      if t.window.Some? && t.window.value != 0 && t.inputTokens != 0
         && t.inputTokens as real >= cfg.compactThreshold * t.window.value as real {
        if compactionCount >= MAX_COMPACTIONS {
          finalReason := EndTurn;
          madeUserFacingAction := false;
          silentTurnNudgesUsed := MAX_SILENT_TURN_NUDGES;
          thrashed := true;
        } else if !t.compactFails {
          var outcome := CompactMessages(cfg.env, messages, cfg.keepLastK, t.summary);
          log := log.(compacted := log.compacted + [messages]);
          messages := outcome.messages;
          compactionCount := compactionCount + 1;
          if outcome.degraded {
            compactionSummaryDegraded := compactionSummaryDegraded + 1;
          }
        }
      }
    }

    /** The mid-stream path: keep what was emitted, drain its tools, then the notice. */
    method HandleInterrupt(t: Turn)
      modifies this
      ensures State() == InterruptedTurn(old(State()), t)
    {
      RunToolTurn(t);
      InjectBlockerNotice(t.lateNotice);
    }

    /** A turn without calls ends the run unless there is a reason to go on. */
    method HandleNoTools(t: Turn) returns (done: bool)
      modifies this
      ensures (State(), if done then Break(NoTools) else Continue) == NoToolTurn(old(State()), t)
    {
      done := false;
      if t.lateNotice.Some? {
        AppendAssistantMessage(t, []);
        InjectBlockerNotice(t.lateNotice);
      } else if t.stopReason == EndTurn && toolCalls != [] && !madeUserFacingAction
                && silentTurnNudgesUsed < MAX_SILENT_TURN_NUDGES {
        AppendAssistantMessage(t, []);
        InjectSilentTurnNudge();
      } else {
        done := true;
      }
    }

    method HandleTools(t: Turn) returns (flow: Flow)
      modifies this
      ensures (State(), flow) == ToolTurn(cfg, old(State()), t)
    {
      RunToolTurn(t);
      var bail := GuardDeadLoop(t);
      if bail {
        return Break(DeadLoop);
      }
      if t.stopReason == EndTurn && toolCalls != [] && !madeUserFacingAction
         && silentTurnNudgesUsed < MAX_SILENT_TURN_NUDGES {
        InjectSilentTurnNudge();
      }
      var thrashed := CompactIfNeeded(t);
      return if thrashed then Break(Thrash) else Continue;
    }

    /** One iteration of the turn loop. */
    method Iterate(t: Turn) returns (flow: Flow)
      modifies this
      ensures (State(), flow) == TurnStep(cfg, old(State()), t)
    {
      if stop == None {
        ObserveStop(t.stopAtBoundary);
        if t.cancel.Some? {
          RequestStopOnce(StopRequest(Cancelled, t.cancel.value));
        }
      }
      if stop != None {
        return Break(Stopped);
      }
      InjectBlockerNotice(t.notice);
      log := log.(sent := log.sent + [messages]);
      toolCalls := toolCalls + t.calls;
      finalReason := t.stopReason;
      ObserveStop(t.stopDuring);
      assert State() == BeginTurn(Boundary(old(State()), t), t);
      if t.interrupted {
        HandleInterrupt(t);
        return Continue;
      }
      if t.calls == [] {
        var done := HandleNoTools(t);
        return if done then Break(NoTools) else Continue;
      }
      flow := HandleTools(t);
    }

    /** Detects a silent close, sends its fallback mail, and settles the status. */
    method Conclude(exit: Exit, lateStop: Option<StopRequest>) returns (status: Status, silentClose: bool)
      modifies this`stop
      ensures Verdict(status, silentClose) == Finish(old(State()), exit, lateStop)
      ensures State() == if silentClose then RequestStop(old(State()), lateStop) else old(State())
      ensures silentClose <==>
                && old(finalReason) == EndTurn && old(silentTurnNudgesUsed) >= 2 && !old(madeUserFacingAction)
                && old(toolCalls) != [] && exit != Exhausted && old(stop) == None
      ensures old(stop).Some? ==> status == old(stop).value.target
      ensures silentClose ==> status == if lateStop.Some? then lateStop.value.target else SilentClose
      ensures old(stop) == None && !silentClose ==>
                status == if exit != Exhausted && old(finalReason) == EndTurn then Completed else NeedsContinuation
    {
      silentClose := finalReason == EndTurn && silentTurnNudgesUsed >= MAX_SILENT_TURN_NUDGES
                     && !madeUserFacingAction && toolCalls != [] && exit != Exhausted && stop == None;
      if silentClose {
        ObserveStop(lateStop);  // raised while the fallback mail is being sent
      }
      if stop != None {
        status := stop.value.target;
      } else if exit == Exhausted {
        status := NeedsContinuation;
      } else if silentClose {
        status := SilentClose;
      } else if finalReason == EndTurn {
        status := Completed;
      } else {
        status := NeedsContinuation;
      }
    }

    /** The instance may be reused: every run starts afresh. */
    method Reset(initial: seq<Message>)
      modifies this
      ensures State() == Start(initial)
    {
      messages, toolCalls, finalReason, stop := initial, [], NoReason, None;
      repeatFingerprint, repeatCount, repeatNudged := None, 0, false;
      madeUserFacingAction, silentTurnNudgesUsed := false, 0;
      compactionCount, compactionSummaryDegraded := 0, 0;
      log := Log(initial, [], [], [], 0);
    }

    /** Runs turns until the model is done, a stop is due, or the turns are used up. */
    method RunLoop(initial: seq<Message>, turns: seq<Turn>, lateStop: Option<StopRequest>)
      returns (status: Status, silentClose: bool, turnCount: nat)
      modifies this
      ensures var r := Run(cfg, Start(initial), turns);
              && Verdict(status, silentClose) == Finish(r.state, r.exit, lateStop)
              && Verdict(status, silentClose) == Deserved(cfg, r, turns, lateStop)
              && turnCount == r.turns
              && State() == if silentClose then RequestStop(r.state, lateStop) else r.state
    {
      hide TurnStep, Run, RunFrom, Finish, Deserved;
      Reset(initial);
      ghost var start := State();
      turnCount := 0;
      var exit := Exhausted;
      RunFromEnds(cfg, State(), turns);
      while turnCount < |turns| && exit == Exhausted
        invariant turnCount <= |turns|
        invariant exit == Exhausted ==> Run(cfg, start, turns) == RunFrom(cfg, State(), turns, turnCount)
        invariant exit != Exhausted ==> Run(cfg, start, turns) == RunEnd(State(), exit, turnCount)
        decreases |turns| - turnCount, if exit == Exhausted then 1 else 0
      {
        RunUnfold(cfg, State(), turns, turnCount);
        var flow := Iterate(turns[turnCount]);
        turnCount := turnCount + 1;
        if flow.Break? {
          exit := flow.exit;
        }
      }
      if exit == Exhausted {
        RunFromEnds(cfg, State(), turns);
      }
      VerdictIsDeserved(cfg, start, turns, lateStop);
      status, silentClose := Conclude(exit, lateStop);
    }
  }
}
