/**
 "First stop request wins" (`request_stop` in src/lyre/runtime/agent_loop.py), over whole runs:
 exactly when the request a run ends with is the first one raised.
 */
module AgentLoopStops {
  import opened Wrappers
  import opened Messages
  import opened Seqs
  import opened Compaction
  import opened AgentLoop
  import opened AgentLoopBudgets

  /** The request that the dead-loop guard makes. */
  const BAIL := StopRequest(NeedsContinuation, "dead_loop")

  function OrElse<T>(a: Option<T>, b: Option<T>): Option<T> {
    if a.Some? then a else b
  }

  /** The first request that others raise in a turn: at its boundary, by the cancel flag read
      there, or while the turn runs. */
  function RaisedIn(t: Turn): Option<StopRequest> {
    OrElse(t.stopAtBoundary,
           OrElse(if t.cancel.Some? then Some(StopRequest(Cancelled, t.cancel.value)) else None, t.stopDuring))
  }

  function FirstRaised(turns: seq<Turn>): Option<StopRequest> {
    if turns == [] then None else OrElse(RaisedIn(turns[0]), FirstRaised(turns[1..]))
  }

  /** The turns that a run entered. */
  function Entered(r: RunEnd, turns: seq<Turn>): seq<Turn> {
    if r.turns <= |turns| then turns[..r.turns] else turns
  }

  /** The guard's condition on a run: its last threshold + 1 tool turns made the same calls. */
  predicate Tripped(cfg: Config, r: RunEnd, turns: seq<Turn>) {
    cfg.repeatThreshold > 0
    && TailRun(FlatMap(MainFingerprint(cfg), Executed(r, turns))) == cfg.repeatThreshold + 1
  }

  /** The first request of a run, the guard's own included, which can only come last. */
  function FirstRequest(cfg: Config, r: RunEnd, turns: seq<Turn>): Option<StopRequest> {
    OrElse(FirstRaised(Entered(r, turns)), if Tripped(cfg, r, turns) then Some(BAIL) else None)
  }

  // ------------------------------------------------------------------
  // One turn
  // ------------------------------------------------------------------

  lemma GuardStop(cfg: Config, s: Loop, t: Turn)
    ensures var (s', flow) := DeadLoopGuard(cfg, s, t);
            && flow in {Continue, Break(DeadLoop)}
            && (flow.Break? ==> cfg.repeatThreshold > 0)
            && s'.stop == if flow.Break? then Some(BAIL) else s.stop
  {
    hide Fingerprint;
  }

  lemma AftermathStop(cfg: Config, s: Loop, t: Turn)
    ensures Aftermath(cfg, s, t).0.stop == s.stop && Aftermath(cfg, s, t).1 != Break(DeadLoop)
  {
    hide Compact;
  }

  lemma BodyStop(cfg: Config, s: Loop, t: Turn)
    ensures var (s', flow) := TurnBody(cfg, s, t);
            && s'.stop == (if flow == Break(DeadLoop) then Some(BAIL) else s.stop)
            && (flow == Break(DeadLoop) ==> cfg.repeatThreshold > 0)
  {
    GuardStop(cfg, RunTools(s, t), t);
    AftermathStop(cfg, DeadLoopGuard(cfg, RunTools(s, t), t).0, t);
    hide DeadLoopGuard, Aftermath;
  }

  lemma StepStop(cfg: Config, s: Loop, t: Turn)
    ensures var (s', flow) := TurnStep(cfg, s, t);
            && s'.stop == (if flow == Break(DeadLoop) then Some(BAIL) else OrElse(s.stop, RaisedIn(t)))
            && (flow == Break(DeadLoop) ==> cfg.repeatThreshold > 0 && s.stop.None? && RaisedIn(t) == t.stopDuring)
  {
    BodyStop(cfg, BeginTurn(Boundary(s, t), t), t);
    hide TurnBody;
  }

  // ------------------------------------------------------------------
  // Runs
  // ------------------------------------------------------------------

  /** What a run ends with: the bail's request, or else the first one raised. */
  lemma {:induction false} RunStop(cfg: Config, s: Loop, turns: seq<Turn>)
    ensures var r := Run(cfg, s, turns);
            && r.turns <= |turns|
            && r.state.stop == (if r.exit == DeadLoop then Some(BAIL) else OrElse(s.stop, FirstRaised(Entered(r, turns))))
            && (r.exit == DeadLoop ==>
                  && cfg.repeatThreshold > 0 && r.turns > 0
                  && OrElse(s.stop, FirstRaised(Entered(r, turns))) == turns[r.turns - 1].stopDuring)
    decreases |turns|
  {
    hide TurnStep, RaisedIn, FirstRaised, Entered;
    NothingRaised();
    var r := Run(cfg, s, turns);
    if turns == [] {
      assert Entered(r, turns) == [] by { NoneEntered(r, turns); }
    } else {
      var t := turns[0];
      var (s', flow) := TurnStep(cfg, s, t);
      StepStop(cfg, s, t);
      if flow.Continue? {
        RunStop(cfg, s', turns[1..]);
        var r' := Run(cfg, s', turns[1..]);
        EnteredFirst(r, turns);
        assert Entered(r', turns[1..]) == turns[1..][..r'.turns] by { EnteredIsPrefix(r', turns[1..]); }
        FirstRaisedOf(t, Entered(r', turns[1..]));
      } else {
        EnteredFirst(r, turns);
        FirstRaisedOf(t, []);
      }
    }
  }

  lemma NoneEntered(r: RunEnd, turns: seq<Turn>)
    requires turns == []
    ensures Entered(r, turns) == []
  {
  }

  lemma EnteredIsPrefix(r: RunEnd, turns: seq<Turn>)
    requires r.turns <= |turns|
    ensures Entered(r, turns) == turns[..r.turns]
  {
  }

  lemma EnteredFirst(r: RunEnd, turns: seq<Turn>)
    requires 0 < r.turns <= |turns|
    ensures Entered(r, turns) == [turns[0]] + turns[1..][..r.turns - 1]
  {
  }

  lemma NothingRaised()
    ensures FirstRaised([]) == None
  {
  }

  lemma FirstRaisedOf(t: Turn, rest: seq<Turn>)
    ensures FirstRaised([t] + rest) == OrElse(RaisedIn(t), FirstRaised(rest))
  {
    hide RaisedIn;
    TailConcat([t], rest);
    assert [t][1..] + rest == rest;
  }

  /** What a boundary sees: the request of another task, or the cancel flag. */
  function AtBoundary(t: Turn): Option<StopRequest> {
    OrElse(t.stopAtBoundary, if t.cancel.Some? then Some(StopRequest(Cancelled, t.cancel.value)) else None)
  }

  /** No request stands when the model is called in turn i. */
  predicate CallsFreely(stop: Option<StopRequest>, turns: seq<Turn>, i: nat)
    requires i < |turns|
  {
    OrElse(stop, OrElse(FirstRaised(turns[..i]), AtBoundary(turns[i]))) == None
  }

  lemma BoundaryStops(cfg: Config, s: Loop, t: Turn)
    ensures TurnStep(cfg, s, t).1 == Break(Stopped) <==> OrElse(s.stop, AtBoundary(t)).Some?
  {
    hide TurnBody, BeginTurn;
    BodyNeverStops(cfg, BeginTurn(Boundary(s, t), t), t);
  }

  lemma BodyNeverStops(cfg: Config, s: Loop, t: Turn)
    ensures TurnBody(cfg, s, t).1 != Break(Stopped)
  {
    GuardStop(cfg, RunTools(s, t), t);
    hide DeadLoopGuard, RunTools, InterruptedTurn, Compact, SilentNudge;
  }

  lemma RaisedAfter(turns: seq<Turn>, i: nat)
    requires turns != [] && i <= |turns[1..]|
    ensures FirstRaised(turns[..i + 1]) == OrElse(RaisedIn(turns[0]), FirstRaised(turns[1..][..i]))
  {
    hide RaisedIn, FirstRaised;
    assert turns[..i + 1] == [turns[0]] + turns[1..][..i];
    FirstRaisedOf(turns[0], turns[1..][..i]);
  }

  /** A request stops the run at the next boundary: the model is called in a turn exactly while
      none stands, and a run that stops at a boundary has met one. */
  lemma {:induction false} StopsAtOnce(cfg: Config, s: Loop, turns: seq<Turn>)
    ensures var r := Run(cfg, s, turns);
            && r.turns <= |turns|
            && (forall i: nat :: i < (if r.exit == Stopped then r.turns - 1 else r.turns) ==> CallsFreely(s.stop, turns, i))
            && (r.exit == Stopped ==> r.turns > 0 && !CallsFreely(s.stop, turns, r.turns - 1))
    decreases |turns|
  {
    hide TurnStep, RaisedIn, AtBoundary, FirstRaised;
    NothingRaised();
    if turns != [] {
      var (s', flow) := TurnStep(cfg, s, turns[0]);
      BoundaryStops(cfg, s, turns[0]);
      StepStop(cfg, s, turns[0]);
      assert turns[..0] == [];
      if flow.Continue? {
        StopsAtOnce(cfg, s', turns[1..]);
        forall i: nat | i < |turns[1..]|
          ensures CallsFreely(s.stop, turns, i + 1) <==> CallsFreely(s'.stop, turns[1..], i)
        {
          RaisedAfter(turns, i);
        }
        var r := Run(cfg, s, turns);
        forall i: nat | i < (if r.exit == Stopped then r.turns - 1 else r.turns)
          ensures CallsFreely(s.stop, turns, i)
        {
          if i > 0 { assert CallsFreely(s'.stop, turns[1..], i - 1); }
        }
      }
    }
  }

  /** Exactly when the first request wins: a run ends with the first request raised, by others
      or by the guard, if and only if the guard did not trip or its own request was the first. */
  lemma FirstRequestWinsIff(cfg: Config, s: Loop, turns: seq<Turn>)
    requires s == Start(s.messages)
    ensures var r := Run(cfg, s, turns);
            && (r.state.stop == FirstRequest(cfg, r, turns) <==>
                  !Tripped(cfg, r, turns) || FirstRequest(cfg, r, turns) == Some(BAIL))
            && (Tripped(cfg, r, turns) <==> r.exit == DeadLoop)
  {
    hide Run, TailRun, MainFingerprint, Executed;
    RunStop(cfg, s, turns);
    if cfg.repeatThreshold > 0 {
      DeadLoopIsBounded(cfg, s, turns, None);
    }
  }

  /** What an overridden request is: one raised while the tripping turn ran. The run then
      finishes as needs_continuation instead of the request's own target. */
  lemma OverriddenInLastTurn(cfg: Config, s: Loop, turns: seq<Turn>, late: Option<StopRequest>)
    requires s == Start(s.messages)
    requires Run(cfg, s, turns).state.stop != FirstRequest(cfg, Run(cfg, s, turns), turns)
    ensures var r := Run(cfg, s, turns);
            && 0 < r.turns <= |turns|
            && FirstRequest(cfg, r, turns) == turns[r.turns - 1].stopDuring != Some(BAIL)
            && Finish(r.state, r.exit, late) == Verdict(NeedsContinuation, false)
  {
    hide Run, TailRun, MainFingerprint, Executed, Finish;
    FirstRequestWinsIff(cfg, s, turns);
    RunStop(cfg, s, turns);
    if cfg.repeatThreshold > 0 {
      DeadLoopIsBounded(cfg, s, turns, late);
    }
  }

  /** A request that wins decides the verdict. */
  lemma WinningRequestIsVerdict(cfg: Config, s: Loop, turns: seq<Turn>, late: Option<StopRequest>)
    requires s == Start(s.messages)
    requires FirstRequest(cfg, Run(cfg, s, turns), turns).Some?
    requires !Tripped(cfg, Run(cfg, s, turns), turns)
    ensures var r := Run(cfg, s, turns);
            Finish(r.state, r.exit, late) == Verdict(FirstRequest(cfg, r, turns).value.target, false)
  {
    hide Run, TailRun, MainFingerprint, Executed, FirstRequest;
    FirstRequestWinsIff(cfg, s, turns);
  }

  // ------------------------------------------------------------------
  // The failing runs, for every threshold
  // ------------------------------------------------------------------

  function Repeated(t: Turn, n: nat): seq<Turn> {
    if n == 0 then [] else [t] + Repeated(t, n - 1)
  }

  /** A tool turn in which nothing else happens. */
  predicate Quiet(cfg: Config, t: Turn) {
    && t.calls != [] && !t.interrupted && !OverThreshold(cfg, t)
    && t.cancel.None? && t.stopAtBoundary.None? && t.stopDuring.None?
  }

  /** The guard after n equal tool turns. */
  ghost predicate Counting(cfg: Config, s: Loop, t: Turn, n: nat) {
    && s.stop.None? && s.repeatCount == n
    && (if n == 0 then s.fp.None? else s.fp == Some(Fingerprint(cfg.dump, t.calls)))
    && (n > 0 ==> (s.repeatNudged <==> n >= cfg.repeatThreshold))
  }

  lemma QuietStep(cfg: Config, s: Loop, t: Turn, n: nat)
    requires Quiet(cfg, t) && Counting(cfg, s, t, n) && n < cfg.repeatThreshold
    ensures TurnStep(cfg, s, t).1 == Continue && Counting(cfg, TurnStep(cfg, s, t).0, t, n + 1)
  {
    hide Fingerprint, Compact, AssistantSays, ToolsSay;
    var s1 := RunTools(BeginTurn(Boundary(s, t), t), t);
    var (s2, flow) := DeadLoopGuard(cfg, s1, t);
    assert flow.Continue? && Counting(cfg, s2, t, n + 1);
  }

  lemma TrippingStep(cfg: Config, s: Loop, t: Turn, request: StopRequest)
    requires Quiet(cfg, t) && cfg.repeatThreshold > 0 && Counting(cfg, s, t, cfg.repeatThreshold)
    ensures TurnStep(cfg, s, t.(stopDuring := Some(request))).1 == Break(DeadLoop)
  {
    hide Fingerprint, Compact, AssistantSays, ToolsSay;
  }

  lemma {:induction false} RepeatedTrips(cfg: Config, s: Loop, t: Turn, n: nat, request: StopRequest)
    requires Quiet(cfg, t) && cfg.repeatThreshold > 0 && n <= cfg.repeatThreshold
    requires Counting(cfg, s, t, cfg.repeatThreshold - n)
    ensures var turns := Repeated(t, n) + [t.(stopDuring := Some(request))];
            Run(cfg, s, turns).exit == DeadLoop && Run(cfg, s, turns).turns == n + 1
    decreases n
  {
    hide TurnStep, Counting, Quiet;
    var last := t.(stopDuring := Some(request));
    var turns := Repeated(t, n) + [last];
    if n == 0 {
      TrippingStep(cfg, s, t, request);
      assert turns == [last];
    } else {
      QuietStep(cfg, s, t, cfg.repeatThreshold - n);
      assert turns[0] == t && turns[1..] == Repeated(t, n - 1) + [last];
      RepeatedTrips(cfg, TurnStep(cfg, s, t).0, t, n - 1, request);
    }
  }

  lemma {:induction false} QuietRaisesNothing(cfg: Config, t: Turn, n: nat, last: Turn)
    requires Quiet(cfg, t)
    ensures FirstRaised(Repeated(t, n) + [last]) == RaisedIn(last) && |Repeated(t, n)| == n
  {
    if n == 0 {
      assert Repeated(t, n) + [last] == [last] && [last][1..] == [];
    } else {
      QuietRaisesNothing(cfg, t, n - 1, last);
      assert (Repeated(t, n) + [last])[1..] == Repeated(t, n - 1) + [last];
    }
  }

  /** For every threshold, every start, every quiet tool turn and every request: when the turn
      repeats past the threshold and the request is raised while the last repetition runs, the
      request is the first, and the run ends with the guard's request in its place. */
  lemma BailOverridesRequest(cfg: Config, initial: seq<Message>, t: Turn, request: StopRequest)
    requires cfg.repeatThreshold > 0 && Quiet(cfg, t)
    ensures var turns := Repeated(t, cfg.repeatThreshold) + [t.(stopDuring := Some(request))];
            var r := Run(cfg, Start(initial), turns);
            && FirstRequest(cfg, r, turns) == Some(request)
            && r.state.stop == Some(BAIL)
  {
    var last := t.(stopDuring := Some(request));
    var turns := Repeated(t, cfg.repeatThreshold) + [last];
    RepeatedTrips(cfg, Start(initial), t, cfg.repeatThreshold, request);
    QuietRaisesNothing(cfg, t, cfg.repeatThreshold, last);
    hide Run, Repeated, FirstRaised;
    RunStop(cfg, Start(initial), turns);
    assert Entered(Run(cfg, Start(initial), turns), turns) == turns;
  }
}
