/**
 What a run ends with, told from the turns it executed: which way it leaves the loop, how often
 it was nudged and compacted, and the status it finishes with.
 */
module AgentLoopVerdicts {
  import opened Wrappers
  import opened Messages
  import opened Seqs
  import opened Compaction
  import opened AgentLoop
  import opened AgentLoopBudgets
  import opened AgentLoopStops

  // ------------------------------------------------------------------
  // What executed turns amount to
  // ------------------------------------------------------------------

  predicate CalledTools(done: seq<Turn>) {
    exists t <- done :: t.calls != []
  }

  /** Some call went to a tool that the owner or a peer gets to see. */
  predicate ReachedSomeone(done: seq<Turn>) {
    exists t <- done :: exists c <- t.calls :: c.name in USER_FACING_TOOLS
  }

  /** The last turn ended in silence: with stop reason end_turn after tool calls of which none
      reached anybody, not interrupted, and with no mail waiting if it made no call itself. */
  predicate FellSilent(done: seq<Turn>) {
    done != [] &&
    var last := done[|done| - 1];
    && !last.interrupted && last.stopReason == EndTurn && (last.calls != [] || last.lateNotice == None)
    && CalledTools(done) && !ReachedSomeone(done)
  }

  /** The first two silent turns are nudged. */
  function Nudges(done: seq<Turn>): nat {
    if done == [] then 0
    else
      var before := Nudges(done[..|done| - 1]);
      if FellSilent(done) && before < 2 then before + 1 else before
  }

  /** A turn that ran its tools and filled the context window to the threshold. */
  predicate Fills(cfg: Config, t: Turn) {
    && t.calls != [] && !t.interrupted
    && t.window.Some? && t.window.value > 0 && t.inputTokens > 0
    && t.inputTokens as real >= cfg.compactThreshold * t.window.value as real
  }

  /** Each such turn compacts the history, unless compacting fails. */
  function Compactions(cfg: Config, done: seq<Turn>): nat {
    if done == [] then 0
    else
      Compactions(cfg, done[..|done| - 1])
      + if Fills(cfg, done[|done| - 1]) && !done[|done| - 1].compactFails then 1 else 0
  }

  /** The state of a run that goes on after these turns. */
  ghost predicate Tracks(cfg: Config, s: Loop, done: seq<Turn>) {
    && (s.toolCalls != [] <==> CalledTools(done))
    && (s.acted <==> ReachedSomeone(done))
    && s.nudges == s.log.nudges == Nudges(done)
    && s.compactions == Compactions(cfg, done)
  }

  /** Which way a run leaves the loop after the executed turns `done`, and with what state. */
  ghost predicate LeavesBy(cfg: Config, done: seq<Turn>, s: Loop, exit: Exit) {
    match exit
    case Exhausted => Tracks(cfg, s, done) && s.compactions <= 3
    case Stopped => s.stop.Some?
    case _ =>
      done != [] &&
      var last, before := done[|done| - 1], done[..|done| - 1];
      && !last.interrupted
      && match exit
         case NoTools =>
           && last.calls == [] && last.lateNotice == None && !(FellSilent(done) && Nudges(before) < 2)
           && s.finalReason == last.stopReason && Tracks(cfg, s, done) && s.compactions <= 3
         case Thrash =>
           && Fills(cfg, last) && Compactions(cfg, before) == 3
           && s.finalReason == EndTurn && !s.acted && s.nudges == 2 && s.toolCalls != []
         case _ => last.calls != [] && s.stop == Some(BAIL)
  }

  // ------------------------------------------------------------------
  // One turn
  // ------------------------------------------------------------------

  lemma {:induction false} ActsIs(calls: seq<Call>)
    ensures Acts(calls) <==> exists c <- calls :: c.name in USER_FACING_TOOLS
  {
    if calls != [] {
      ActsIs(calls[..|calls| - 1]);
      assert forall c :: c in calls <==> c in calls[..|calls| - 1] || c == calls[|calls| - 1];
    }
  }

  lemma OneMore(done: seq<Turn>, t: Turn)
    ensures CalledTools(done + [t]) <==> CalledTools(done) || t.calls != []
    ensures ReachedSomeone(done + [t]) <==> ReachedSomeone(done) || Acts(t.calls)
  {
    ActsIs(t.calls);
    hide Acts;
    assert forall u :: u in done + [t] <==> u in done || u == t;
  }

  lemma CountsOneMore(cfg: Config, done: seq<Turn>, t: Turn)
    ensures var before := Nudges(done);
            Nudges(done + [t]) == if FellSilent(done + [t]) && before < 2 then before + 1 else before
    ensures Compactions(cfg, done + [t])
         == Compactions(cfg, done) + if Fills(cfg, t) && !t.compactFails then 1 else 0
  {
    assert (done + [t])[..|done|] == done;
  }

  /** What a turn's beginning and its tools do to the books. */
  lemma BeginTracks(cfg: Config, s: Loop, done: seq<Turn>, t: Turn)
    requires Tracks(cfg, s, done)
    ensures var s1 := BeginTurn(Boundary(s, t), t);
            && (s1.toolCalls != [] <==> CalledTools(done + [t])) && s1.finalReason == t.stopReason
            && (s1.acted || Acts(t.calls) <==> ReachedSomeone(done + [t]))
            && s1.nudges == s1.log.nudges == Nudges(done) && s1.compactions == Compactions(cfg, done)
  {
    hide Acts, CalledTools, ReachedSomeone, Nudges, Compactions, NoticeSays;
    OneMore(done, t);
  }

  lemma AftermathTracks(cfg: Config, s: Loop, done: seq<Turn>, t: Turn)
    requires t.calls != [] && !t.interrupted && s.finalReason == t.stopReason
    requires s.toolCalls != [] && (s.acted <==> ReachedSomeone(done + [t]))
    requires s.nudges == s.log.nudges == Nudges(done) && s.compactions == Compactions(cfg, done) <= 3
    ensures var (s', flow) := Aftermath(cfg, s, t);
            && (flow == Continue ==> Tracks(cfg, s', done + [t]) && s'.compactions <= 3)
            && (flow.Break? ==> flow == Break(Thrash) && LeavesBy(cfg, done + [t], s', Thrash))
  {
    hide Compact, Nudges, Compactions;
    OneMore(done, t);
    CountsOneMore(cfg, done, t);
    assert (done + [t])[..|done|] == done;
  }

  lemma ToolTurnTracks(cfg: Config, s: Loop, done: seq<Turn>, t: Turn)
    requires t.calls != [] && !t.interrupted && s.finalReason == t.stopReason
    requires s.toolCalls != [] && (s.acted || Acts(t.calls) <==> ReachedSomeone(done + [t]))
    requires s.nudges == s.log.nudges == Nudges(done) && s.compactions == Compactions(cfg, done) <= 3
    ensures var (s', flow) := ToolTurn(cfg, s, t);
            && (flow == Continue ==> Tracks(cfg, s', done + [t]) && s'.compactions <= 3)
            && (flow.Break? ==> flow.exit in {Thrash, DeadLoop} && LeavesBy(cfg, done + [t], s', flow.exit))
  {
    hide Aftermath, Fingerprint, Acts, ReachedSomeone, Nudges, Compactions, AssistantSays, ToolsSay, CalledTools;
    var (s2, flow) := DeadLoopGuard(cfg, RunTools(s, t), t);
    if flow.Continue? {
      AftermathTracks(cfg, s2, done, t);
    }
  }

  lemma NoToolTurnTracks(cfg: Config, s: Loop, done: seq<Turn>, t: Turn)
    requires t.calls == [] && !t.interrupted && s.finalReason == t.stopReason
    requires s.toolCalls != [] <==> CalledTools(done + [t])
    requires s.acted <==> ReachedSomeone(done + [t])
    requires s.nudges == s.log.nudges == Nudges(done) && s.compactions == Compactions(cfg, done) <= 3
    ensures var (s', flow) := NoToolTurn(s, t);
            && (flow == Continue ==> Tracks(cfg, s', done + [t]) && s'.compactions <= 3)
            && (flow.Break? ==> flow == Break(NoTools) && LeavesBy(cfg, done + [t], s', NoTools))
  {
    hide CalledTools, ReachedSomeone, Nudges, Compactions, AssistantSays;
    CountsOneMore(cfg, done, t);
    assert (done + [t])[..|done|] == done;
  }

  lemma StepTracks(cfg: Config, s: Loop, done: seq<Turn>, t: Turn)
    requires Tracks(cfg, s, done) && s.compactions <= 3
    ensures var (s', flow) := TurnStep(cfg, s, t);
            && (flow == Continue ==> Tracks(cfg, s', done + [t]) && s'.compactions <= 3)
            && (flow.Break? ==> flow != Break(Exhausted) && LeavesBy(cfg, done + [t], s', flow.exit))
  {
    hide ToolTurn, NoToolTurn, Acts, CalledTools, ReachedSomeone, Nudges, Compactions, NoticeSays;
    BeginTracks(cfg, s, done, t);
    var s1 := BeginTurn(Boundary(s, t), t);
    NoCallsActNot(t.calls);
    if t.interrupted {
      InterruptedTracks(cfg, s1, done, t);
    } else if t.calls == [] {
      NoToolTurnTracks(cfg, s1, done, t);
    } else {
      OneMore(done, t);
      ToolTurnTracks(cfg, s1, done, t);
    }
  }

  lemma NoCallsActNot(calls: seq<Call>)
    ensures calls == [] ==> !Acts(calls)
  {
  }

  lemma InterruptedTracks(cfg: Config, s: Loop, done: seq<Turn>, t: Turn)
    requires t.interrupted
    requires s.toolCalls != [] <==> CalledTools(done + [t])
    requires s.acted || Acts(t.calls) <==> ReachedSomeone(done + [t])
    requires s.nudges == s.log.nudges == Nudges(done) && s.compactions == Compactions(cfg, done)
    ensures Tracks(cfg, InterruptedTurn(s, t), done + [t])
  {
    hide CalledTools, ReachedSomeone, Nudges, Compactions, AssistantSays, ToolsSay, Acts;
    CountsOneMore(cfg, done, t);
  }

  // ------------------------------------------------------------------
  // Runs
  // ------------------------------------------------------------------

  lemma {:induction false} RunTracks(cfg: Config, s: Loop, done: seq<Turn>, turns: seq<Turn>)
    requires Tracks(cfg, s, done) && s.compactions <= 3
    ensures var r := Run(cfg, s, turns);
            r.turns <= |turns| && LeavesBy(cfg, done + turns[..r.turns], r.state, r.exit)
    decreases |turns|
  {
    hide TurnStep, Tracks, LeavesBy;
    if turns == [] {
      assert done + turns[..0] == done;
      NothingLeft(cfg, s, done);
    } else {
      StepTracks(cfg, s, done, turns[0]);
      var (s', flow) := TurnStep(cfg, s, turns[0]);
      if flow.Continue? {
        RunTracks(cfg, s', done + [turns[0]], turns[1..]);
        var n := Run(cfg, s', turns[1..]).turns;
        assert done + [turns[0]] + turns[1..][..n] == done + turns[..n + 1];
      } else {
        assert done + [turns[0]] == done + turns[..1];
      }
    }
  }

  lemma NothingLeft(cfg: Config, s: Loop, done: seq<Turn>)
    requires Tracks(cfg, s, done) && s.compactions <= 3
    ensures LeavesBy(cfg, done, s, Exhausted)
  {
    hide Tracks;
  }

  /** How every run leaves the loop, told from its turns: by a turn without calls that needs no
      nudge, by a fourth compaction, by the guard, by a stop request, or by using all turns up. */
  lemma RunLeavesBy(cfg: Config, s: Loop, turns: seq<Turn>)
    requires s == Start(s.messages)
    ensures var r := Run(cfg, s, turns);
            r.turns <= |turns| && LeavesBy(cfg, turns[..r.turns], r.state, r.exit)
  {
    RunTracks(cfg, s, [], turns);
    var r := Run(cfg, s, turns);
    assert [] + turns[..r.turns] == turns[..r.turns];
  }

  // ------------------------------------------------------------------
  // The verdict
  // ------------------------------------------------------------------

  /** A silent close, unless a request comes while its fallback mail is sent. */
  function Silence(late: Option<StopRequest>): Verdict {
    Verdict(if late.Some? then late.value.target else SilentClose, true)
  }

  /** What the source promises of a run that left by `exit` in its turn `turns[n - 1]`. */
  function Deserved(cfg: Config, r: RunEnd, turns: seq<Turn>, late: Option<StopRequest>): Verdict {
    var done := Entered(r, turns);
    var asked := FirstRaised(done);
    if Tripped(cfg, r, turns) then Verdict(NeedsContinuation, false)
    else if asked.Some? then Verdict(asked.value.target, false)
    else match r.exit
      case Thrash => Silence(late)
      case NoTools =>
        if done == [] || done[|done| - 1].stopReason != EndTurn then Verdict(NeedsContinuation, false)
        else if CalledTools(done) && !ReachedSomeone(done) then Silence(late)
        else Verdict(Completed, false)
      case _ => Verdict(NeedsContinuation, false)
  }

  lemma LeftInSilence(cfg: Config, done: seq<Turn>, s: Loop, exit: Exit)
    requires LeavesBy(cfg, done, s, exit) && exit in {NoTools, Thrash} && s.stop == None
    ensures IsSilentClose(s, exit) <==>
              exit == Thrash || (done[|done| - 1].stopReason == EndTurn && CalledTools(done) && !ReachedSomeone(done))
  {
    hide CalledTools, ReachedSomeone, Compactions;
    if exit == NoTools {
      NudgesWithin(done[..|done| - 1]);
    }
  }

  lemma {:induction false} NudgesWithin(done: seq<Turn>)
    ensures Nudges(done) <= 2
  {
    if done != [] { NudgesWithin(done[..|done| - 1]); }
  }

  /** For every run the verdict is the one deserved: a dead loop and used-up turns need
      continuation, a request decides, a fourth compaction and a last turn that falls silent are
      silent closes, and only a last turn without calls that ends its work is completed. */
  lemma VerdictIsDeserved(cfg: Config, s: Loop, turns: seq<Turn>, late: Option<StopRequest>)
    requires s == Start(s.messages)
    ensures var r := Run(cfg, s, turns);
            Finish(r.state, r.exit, late) == Deserved(cfg, r, turns, late)
  {
    hide Run, TailRun, MainFingerprint, Executed, FirstRaised, LeavesBy, IsSilentClose, CalledTools, ReachedSomeone;
    var r := Run(cfg, s, turns);
    RunLeavesBy(cfg, s, turns);
    RunStop(cfg, s, turns);
    FirstRequestWinsIff(cfg, s, turns);
    if r.exit in {NoTools, Thrash} && r.state.stop == None {
      LeftInSilence(cfg, turns[..r.turns], r.state, r.exit);
    }
    ExitFacts(cfg, turns[..r.turns], r.state, r.exit);
  }

  lemma ExitFacts(cfg: Config, done: seq<Turn>, s: Loop, exit: Exit)
    requires LeavesBy(cfg, done, s, exit)
    ensures exit in {Stopped, DeadLoop} ==> s.stop.Some?
    ensures exit == NoTools ==> done != [] && s.finalReason == done[|done| - 1].stopReason
    ensures exit == Exhausted || s.stop.Some? ==> !IsSilentClose(s, exit)
  {
  }
}
