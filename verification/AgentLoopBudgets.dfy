/**
 Budgets and verdicts of a run: silent-turn nudges, compactions, repeated tool calls, and
 what it takes to finish as completed.
 */
module AgentLoopBudgets {
  import opened Wrappers
  import opened Messages
  import opened Seqs
  import opened Compaction
  import opened AgentLoop

  // ------------------------------------------------------------------
  // Runs of equal elements
  // ------------------------------------------------------------------

  ghost predicate Constant<T>(xs: seq<T>) {
    forall i, j :: 0 <= i < j < |xs| ==> xs[i] == xs[j]
  }

  /** No stretch of equal elements is longer than n. */
  ghost predicate RunsWithin<T>(xs: seq<T>, n: nat) {
    forall i, j :: 0 <= i <= j <= |xs| && Constant(xs[i..j]) ==> j - i <= n
  }

  /** Length of the stretch of equal elements at the end. */
  function TailRun<T(==)>(xs: seq<T>): nat {
    if |xs| <= 1 then |xs|
    else if xs[|xs| - 1] == xs[|xs| - 2] then 1 + TailRun(xs[..|xs| - 1])
    else 1
  }

  lemma {:induction false} TailRunIsLongest<T>(xs: seq<T>, i: nat)
    requires i <= |xs| && Constant(xs[i..])
    ensures |xs| - i <= TailRun(xs) <= |xs|
  {
    var n := |xs|;
    if n > 1 {
      if i < n - 1 {
        assert xs[i..][n - 1 - i] == xs[n - 1] && xs[i..][n - 2 - i] == xs[n - 2];
        assert xs[..n - 1][i..] == xs[i..][..n - 1 - i];
        TailRunIsLongest(xs[..n - 1], i);
      } else if xs[n - 1] == xs[n - 2] {
        TailRunIsLongest(xs[..n - 1], n - 1);
      }
    }
  }

  lemma {:induction false} TailRunIsConstant<T>(xs: seq<T>)
    ensures TailRun(xs) <= |xs| && Constant(xs[|xs| - TailRun(xs)..])
  {
    var n := |xs|;
    if n > 1 && xs[n - 1] == xs[n - 2] {
      var front := xs[..n - 1];
      TailRunIsConstant(front);
      var k := TailRun(front);
      TailRunIsLongest(front, n - 2);
      assert forall j :: n - 1 - k <= j < n - 1 ==> front[n - 1 - k..][j - (n - 1 - k)] == xs[j];
      assert forall j :: n - 1 - k <= j < n - 1 ==> xs[j] == xs[n - 2];
    }
  }

  lemma TailRunSnoc<T>(xs: seq<T>, x: T)
    ensures TailRun(xs + [x]) == if xs != [] && xs[|xs| - 1] == x then TailRun(xs) + 1 else 1
  {
    assert (xs + [x])[..|xs|] == xs;
  }

  lemma TailRunWithin<T>(xs: seq<T>, n: nat)
    requires RunsWithin(xs, n)
    ensures TailRun(xs) <= n
  {
    TailRunIsConstant(xs);
    assert xs[|xs| - TailRun(xs)..|xs|] == xs[|xs| - TailRun(xs)..];
  }

  lemma RunsWithinSnoc<T>(xs: seq<T>, x: T, n: nat, m: nat)
    requires RunsWithin(xs, n) && n <= m && TailRun(xs + [x]) <= m
    ensures RunsWithin(xs + [x], m)
  {
    var ys := xs + [x];
    forall i, j | 0 <= i <= j <= |ys| && Constant(ys[i..j])
      ensures j - i <= m
    {
      if j == |ys| {
        assert ys[i..j] == ys[i..];
        TailRunIsLongest(ys, i);
      } else {
        assert ys[i..j] == xs[i..j];
      }
    }
  }

  // ------------------------------------------------------------------
  // What a fingerprint tells
  // ------------------------------------------------------------------

  /** What a call counts as for the guard: its name and input, or its name alone when the adapter
      could not decode its arguments, which leaves exactly the field _raw with a text. */
  function CountsAs(dump: (string, Json) -> string, c: Call): string {
    if c.input.Keys == {"_raw"} && c.input["_raw"].JStr? then dump(c.name, JStr("<truncated-args>"))
    else dump(c.name, JObj(c.input))
  }

  lemma TruncatedIff(input: Obj)
    ensures IsTruncatedToolArgs(input) <==> input.Keys == {"_raw"} && input["_raw"].JStr?
  {
    if "_raw" in input {
      var others := input.Keys - {"_raw"};
      assert input.Keys == others + {"_raw"} && |input.Keys| == |others| + 1 == |input|;
    }
  }

  /** A turn's fingerprint counts its calls, whatever their order. */
  lemma FingerprintTells(dump: (string, Json) -> string, calls: seq<Call>, c: Call)
    ensures Fingerprint(dump, []) == multiset{}
    ensures Fingerprint(dump, calls + [c]) == Fingerprint(dump, calls) + multiset{CountsAs(dump, c)}
  {
    TruncatedIff(c.input);
    var all := calls + [c];
    var prints := seq(|all|, i requires 0 <= i < |all| => Print(dump, all[i]));
    var before := seq(|calls|, i requires 0 <= i < |calls| => Print(dump, calls[i]));
    assert prints == before + [Print(dump, c)];
  }

  // ------------------------------------------------------------------
  // What a run books
  // ------------------------------------------------------------------

  /** The turns whose model call was made: all entered ones, less one stopped at its boundary. */
  function Executed(r: RunEnd, turns: seq<Turn>): seq<Turn> {
    var n := if r.exit == Stopped && r.turns > 0 then r.turns - 1 else r.turns;
    if n <= |turns| then turns[..n] else turns
  }

  function CallsOf(): Turn -> seq<Call> {
    (t: Turn) => t.calls
  }

  /** The fingerprint of a turn that executes its tools on the main path. */
  function MainFingerprint(cfg: Config): Turn -> seq<multiset<string>> {
    (t: Turn) => if t.interrupted || t.calls == [] || cfg.repeatThreshold <= 0 then []
                 else [Fingerprint(cfg.dump, t.calls)]
  }

  ghost predicate Booked(cfg: Config, s: Loop, s': Loop, t: Turn) {
    && s'.toolCalls == s.toolCalls + t.calls
    && s'.log.fps == s.log.fps + MainFingerprint(cfg)(t)
    && |s'.log.sent| == |s.log.sent| + 1
  }

  ghost predicate SameBooks(s: Loop, s': Loop) {
    s'.toolCalls == s.toolCalls && s'.log.sent == s.log.sent && s'.log.fps == s.log.fps
  }

  lemma AftermathBooks(cfg: Config, s: Loop, t: Turn)
    ensures SameBooks(s, Aftermath(cfg, s, t).0)
    ensures Aftermath(cfg, s, t).1 in {Continue, Break(Thrash)}
  {
  }

  lemma ToolTurnBooks(cfg: Config, s: Loop, t: Turn)
    ensures var s' := ToolTurn(cfg, s, t).0;
            && s'.toolCalls == s.toolCalls && s'.log.sent == s.log.sent
            && s'.log.fps == s.log.fps + (if cfg.repeatThreshold <= 0 then [] else [Fingerprint(cfg.dump, t.calls)])
    ensures ToolTurn(cfg, s, t).1 in {Continue, Break(Thrash), Break(DeadLoop)}
  {
    hide Aftermath, Fingerprint, AssistantSays, ToolsSay, Acts;
    AftermathBooks(cfg, DeadLoopGuard(cfg, RunTools(s, t), t).0, t);
  }

  lemma QuietBooks(s: Loop, t: Turn)
    ensures SameBooks(s, InterruptedTurn(s, t)) && SameBooks(s, NoToolTurn(s, t).0)
  {
  }

  lemma BodyBooks(cfg: Config, s: Loop, t: Turn)
    ensures var s' := TurnBody(cfg, s, t).0;
            && s'.toolCalls == s.toolCalls && s'.log.sent == s.log.sent
            && s'.log.fps == s.log.fps + MainFingerprint(cfg)(t)
    ensures TurnBody(cfg, s, t).1 == Break(NoTools) ==>
              !t.interrupted && t.calls == [] && t.lateNotice.None? && TurnBody(cfg, s, t).0 == s
    ensures TurnBody(cfg, s, t).1 != Break(Exhausted) && TurnBody(cfg, s, t).1 != Break(Stopped)
  {
    QuietBooks(s, t);
    if !t.interrupted && t.calls != [] { ToolTurnBooks(cfg, s, t); }
  }

  lemma StepBooks(cfg: Config, s: Loop, t: Turn)
    ensures var (s', flow) := TurnStep(cfg, s, t);
            if flow == Break(Stopped) then s'.toolCalls == s.toolCalls && s'.log == s.log && s'.stop.Some?
            else flow != Break(Exhausted) && Booked(cfg, s, s', t)
  {
    BodyBooks(cfg, BeginTurn(Boundary(s, t), t), t);
  }

  ghost predicate RunBooked(cfg: Config, s: Loop, turns: seq<Turn>) {
    var r := Run(cfg, s, turns);
    var done := Executed(r, turns);
    && r.turns <= |turns| && (r.exit != Exhausted ==> r.turns > 0) && (r.exit == Exhausted ==> r.turns == |turns|)
    && r.state.toolCalls == s.toolCalls + FlatMap(CallsOf(), done)
    && r.state.log.fps == s.log.fps + FlatMap(MainFingerprint(cfg), done)
    && |r.state.log.sent| == |s.log.sent| + |done|
  }

  /** The books of a run are the calls, fingerprints and histories of its executed turns. */
  lemma {:induction false} RunBooks(cfg: Config, s: Loop, turns: seq<Turn>)
    ensures RunBooked(cfg, s, turns)
    decreases |turns|
  {
    hide TurnStep;
    if turns != [] {
      var t := turns[0];
      var (s', flow) := TurnStep(cfg, s, t);
      StepBooks(cfg, s, t);
      if flow.Continue? {
        RunBooks(cfg, s', turns[1..]);
        var r, r' := Run(cfg, s, turns), Run(cfg, s', turns[1..]);
        assert Executed(r, turns) == [t] + Executed(r', turns[1..]);
      } else if flow != Break(Stopped) {
        assert Executed(Run(cfg, s, turns), turns) == [t];
        FlatMapOne(CallsOf(), t);
        FlatMapOne(MainFingerprint(cfg), t);
      }
    }
  }

  // ------------------------------------------------------------------
  // Nudges and compactions
  // ------------------------------------------------------------------

  ghost predicate WithinBudgets(s: Loop) {
    s.log.nudges <= s.nudges <= MAX_SILENT_TURN_NUDGES && s.compactions <= MAX_COMPACTIONS
  }

  lemma AftermathKeepsBudgets(cfg: Config, s: Loop, t: Turn)
    requires WithinBudgets(s)
    ensures WithinBudgets(Aftermath(cfg, s, t).0)
  {
    hide Compact;
  }

  lemma GuardKeepsBudgets(cfg: Config, s: Loop, t: Turn)
    requires WithinBudgets(s)
    ensures WithinBudgets(DeadLoopGuard(cfg, s, t).0)
  {
    hide Fingerprint;
  }

  lemma BodyKeepsBudgets(cfg: Config, s: Loop, t: Turn)
    requires WithinBudgets(s)
    ensures WithinBudgets(TurnBody(cfg, s, t).0)
  {
    hide DeadLoopGuard, Aftermath, AssistantSays, ToolsSay, NoticeSays, Acts;
    GuardKeepsBudgets(cfg, RunTools(s, t), t);
    AftermathKeepsBudgets(cfg, DeadLoopGuard(cfg, RunTools(s, t), t).0, t);
  }

  lemma StepKeepsBudgets(cfg: Config, s: Loop, t: Turn)
    requires WithinBudgets(s)
    ensures WithinBudgets(TurnStep(cfg, s, t).0)
  {
    hide TurnBody, NoticeSays;
    BodyKeepsBudgets(cfg, BeginTurn(Boundary(s, t), t), t);
  }

  /** At most 2 silent-turn nudges and 3 compactions, on every run. */
  lemma {:induction false} BudgetsHold(cfg: Config, s: Loop, turns: seq<Turn>)
    requires WithinBudgets(s)
    ensures WithinBudgets(Run(cfg, s, turns).state)
    decreases |turns|
  {
    if turns != [] {
      StepKeepsBudgets(cfg, s, turns[0]);
      var (s', flow) := TurnStep(cfg, s, turns[0]);
      if flow.Continue? { BudgetsHold(cfg, s', turns[1..]); }
    }
  }

  // ------------------------------------------------------------------
  // The dead-loop guard
  // ------------------------------------------------------------------

  /** The guard's counter is the length of the last stretch of equal fingerprints. */
  ghost predicate GuardInv(cfg: Config, s: Loop) {
    cfg.repeatThreshold > 0 ==>
      && s.fp == (if s.log.fps == [] then None else Some(s.log.fps[|s.log.fps| - 1]))
      && s.repeatCount == TailRun(s.log.fps)
      && (s.repeatNudged <==> s.repeatCount >= cfg.repeatThreshold)
      && RunsWithin(s.log.fps, cfg.repeatThreshold)
  }

  ghost predicate GuardTripped(cfg: Config, s: Loop) {
    && cfg.repeatThreshold > 0
    && TailRun(s.log.fps) == cfg.repeatThreshold + 1
    && RunsWithin(s.log.fps, cfg.repeatThreshold + 1)
    && s.stop == Some(StopRequest(NeedsContinuation, "dead_loop"))
  }

  lemma GuardCounts(cfg: Config, s: Loop, t: Turn)
    requires GuardInv(cfg, s)
    ensures var (s', flow) := DeadLoopGuard(cfg, s, t);
            && flow in {Continue, Break(DeadLoop)}
            && (flow.Continue? ==> GuardInv(cfg, s'))
            && (flow.Break? ==> GuardTripped(cfg, s'))
  {
    hide Fingerprint, TailRun, RunsWithin;
    if cfg.repeatThreshold > 0 {
      var fps, fp := s.log.fps, Fingerprint(cfg.dump, t.calls);
      TailRunSnoc(fps, fp);
      TailRunWithin(fps, cfg.repeatThreshold);
      RunsWithinSnoc(fps, fp, cfg.repeatThreshold, if TailRun(fps + [fp]) <= cfg.repeatThreshold
        then cfg.repeatThreshold else cfg.repeatThreshold + 1);
    }
  }

  ghost predicate SameGuard(s: Loop, s': Loop) {
    && s'.log.fps == s.log.fps && s'.fp == s.fp
    && s'.repeatCount == s.repeatCount && s'.repeatNudged == s.repeatNudged
  }

  lemma AftermathSameGuard(cfg: Config, s: Loop, t: Turn)
    ensures SameGuard(s, Aftermath(cfg, s, t).0)
    ensures Aftermath(cfg, s, t).1 in {Continue, Break(Thrash)}
  {
  }

  lemma QuietSameGuard(s: Loop, t: Turn)
    ensures SameGuard(s, InterruptedTurn(s, t)) && SameGuard(s, NoToolTurn(s, t).0)
    ensures SameGuard(s, RunTools(s, t))
    ensures NoToolTurn(s, t).1 in {Continue, Break(NoTools)}
  {
  }

  lemma ToolTurnCounts(cfg: Config, s: Loop, t: Turn)
    requires GuardInv(cfg, s)
    ensures var (s', flow) := ToolTurn(cfg, s, t);
            && flow in {Continue, Break(DeadLoop), Break(Thrash)}
            && if flow == Break(DeadLoop) then GuardTripped(cfg, s') else GuardInv(cfg, s')
  {
    hide Aftermath, Fingerprint;
    QuietSameGuard(s, t);
    GuardCounts(cfg, RunTools(s, t), t);
    AftermathSameGuard(cfg, DeadLoopGuard(cfg, RunTools(s, t), t).0, t);
  }

  lemma StepCounts(cfg: Config, s: Loop, t: Turn)
    requires GuardInv(cfg, s)
    ensures var (s', flow) := TurnStep(cfg, s, t);
            if flow == Break(DeadLoop) then GuardTripped(cfg, s') else GuardInv(cfg, s')
  {
    hide ToolTurn;
    var s1 := BeginTurn(Boundary(s, t), t);
    assert SameGuard(s, s1) && SameGuard(s, Boundary(s, t));
    QuietSameGuard(s1, t);
    ToolTurnCounts(cfg, s1, t);
  }

  lemma {:induction false} RunCounts(cfg: Config, s: Loop, turns: seq<Turn>)
    requires GuardInv(cfg, s)
    ensures var r := Run(cfg, s, turns);
            if r.exit == DeadLoop then GuardTripped(cfg, r.state) else GuardInv(cfg, r.state)
    decreases |turns|
  {
    if turns != [] {
      StepCounts(cfg, s, turns[0]);
      var (s', flow) := TurnStep(cfg, s, turns[0]);
      if flow.Continue? { RunCounts(cfg, s', turns[1..]); }
    }
  }

  /** Among the main-path tool turns of a run, no call fingerprint repeats more than T+1
      times in a row; the run ends by the guard exactly when the last one did, and then it
      finishes as needs_continuation whatever other tasks requested. */
  lemma DeadLoopIsBounded(cfg: Config, s: Loop, turns: seq<Turn>, late: Option<StopRequest>)
    requires s == Start(s.messages) && cfg.repeatThreshold > 0
    ensures var r := Run(cfg, s, turns);
            var prints := FlatMap(MainFingerprint(cfg), Executed(r, turns));
            && RunsWithin(prints, cfg.repeatThreshold + 1)
            && (r.exit == DeadLoop <==> TailRun(prints) == cfg.repeatThreshold + 1)
            && (r.exit != DeadLoop ==> RunsWithin(prints, cfg.repeatThreshold))
            && (r.exit == DeadLoop ==> Finish(r.state, r.exit, late) == Verdict(NeedsContinuation, false))
  {
    hide Run, Finish;
    var r := Run(cfg, s, turns);
    StartGuarded(cfg, s);
    RunCounts(cfg, s, turns);
    RunBooks(cfg, s, turns);
    assert s.log.fps == [];
    assert r.state.log.fps == FlatMap(MainFingerprint(cfg), Executed(r, turns));
    if r.exit == DeadLoop {
      TrippedVerdict(cfg, r.state, late);
    } else {
      TailRunWithin(r.state.log.fps, cfg.repeatThreshold);
    }
  }

  lemma StartGuarded(cfg: Config, s: Loop)
    requires s == Start(s.messages)
    ensures GuardInv(cfg, s) && s.log.fps == []
  {
  }

  lemma TrippedVerdict(cfg: Config, s: Loop, late: Option<StopRequest>)
    requires GuardTripped(cfg, s)
    ensures Finish(s, DeadLoop, late) == Verdict(NeedsContinuation, false)
  {
  }

  // ------------------------------------------------------------------
  // The verdict
  // ------------------------------------------------------------------

  /** No other task asks for the verdict `completed`; the code only ever asks for
      `cancelled` or `needs_continuation`. */
  predicate Honest(r: Option<StopRequest>) {
    r.Some? ==> r.value.target != Completed && r.value.target != SilentClose
  }

  predicate HonestTurn(t: Turn) {
    Honest(t.stopAtBoundary) && Honest(t.stopDuring)
  }

  /** What each way of leaving the loop implies about the state left behind. */
  ghost predicate ExitMeans(s: Loop, exit: Exit) {
    match exit
    case Stopped => s.stop.Some?
    case DeadLoop => s.stop.Some?
    case Thrash => s.stop.Some? || IsSilentClose(s, Thrash)
    case _ => true
  }

  lemma AftermathExit(cfg: Config, s: Loop, t: Turn)
    requires s.toolCalls != [] && Honest(s.stop)
    ensures var (s', flow) := Aftermath(cfg, s, t);
            && s'.stop == s.stop
            && (flow.Break? ==> flow.exit == Thrash && ExitMeans(s', Thrash))
  {
  }

  lemma BodyExit(cfg: Config, s: Loop, t: Turn)
    requires Honest(s.stop) && (t.calls != [] ==> s.toolCalls != []) && s.finalReason == t.stopReason
    ensures var (s', flow) := TurnBody(cfg, s, t);
            && Honest(s'.stop)
            && (flow.Break? ==> ExitMeans(s', flow.exit) && flow.exit != Stopped && flow.exit != Exhausted)
            && (flow == Break(NoTools) ==>
                  t.calls == [] && !t.interrupted && t.lateNotice.None? && s'.finalReason == t.stopReason)
  {
    hide Compact, Fingerprint;
    if !t.interrupted && t.calls != [] {
      var s1 := RunTools(s, t);
      var (s2, flow) := DeadLoopGuard(cfg, s1, t);
      if flow.Continue? { AftermathExit(cfg, s2, t); }
    }
  }

  lemma StepExit(cfg: Config, s: Loop, t: Turn)
    requires Honest(s.stop) && HonestTurn(t)
    ensures var (s', flow) := TurnStep(cfg, s, t);
            && Honest(s'.stop)
            && (flow.Break? ==> ExitMeans(s', flow.exit) && flow.exit != Exhausted)
            && (flow == Break(NoTools) ==>
                  t.calls == [] && !t.interrupted && t.lateNotice.None? && s'.finalReason == t.stopReason)
  {
    BodyExit(cfg, BeginTurn(Boundary(s, t), t), t);
  }

  lemma {:induction false} RunExit(cfg: Config, s: Loop, turns: seq<Turn>)
    requires Honest(s.stop) && forall t <- turns :: HonestTurn(t)
    ensures var r := Run(cfg, s, turns);
            && Honest(r.state.stop) && ExitMeans(r.state, r.exit)
            && r.turns <= |turns|
            && (r.exit == NoTools ==>
                  && r.turns > 0
                  && var t := turns[r.turns - 1];
                     t.calls == [] && !t.interrupted && t.lateNotice.None? && r.state.finalReason == t.stopReason)
    decreases |turns|
  {
    if turns != [] {
      StepExit(cfg, s, turns[0]);
      var (s', flow) := TurnStep(cfg, s, turns[0]);
      if flow.Continue? { RunExit(cfg, s', turns[1..]); }
    }
  }

  /** `completed` is earned: exactly when no stop was requested and the loop was left by a
      turn without tool calls whose stop reason is end_turn, unless that is a silent close. */
  lemma CompletedIsEarned(cfg: Config, s: Loop, turns: seq<Turn>, late: Option<StopRequest>)
    requires s == Start(s.messages) && Honest(late) && forall t <- turns :: HonestTurn(t)
    ensures var r := Run(cfg, s, turns);
            Finish(r.state, r.exit, late).status == Completed <==>
              && r.state.stop.None? && r.exit == NoTools && !IsSilentClose(r.state, r.exit)
              && 0 < r.turns <= |turns| && turns[r.turns - 1].calls == [] && turns[r.turns - 1].stopReason == EndTurn
  {
    RunExit(cfg, s, turns);
  }
}
