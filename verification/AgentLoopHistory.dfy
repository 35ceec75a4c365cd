/**
 What a run writes into the history, told from its turns: every notice, every word, thought and
 call of the model, every result, and the nudges, in order.
 */
module AgentLoopHistory {
  import opened Wrappers
  import opened Messages
  import opened Seqs
  import opened Compaction
  import opened AgentLoop
  import opened AgentLoopBudgets
  import opened AgentLoopVerdicts

  // ------------------------------------------------------------------
  // The reference
  // ------------------------------------------------------------------

  function FromUser(text: string): Message {
    Message(User, [Text(text)], false)
  }

  function Notice(notice: Option<string>): seq<Message> {
    match notice
    case Some(text) => [FromUser(text)]
    case None => []
  }

  /** Thoughts, then words, then calls; a turn with none of them says nothing. */
  function Speech(t: Turn): seq<Message> {
    var words := if t.text == "" then [] else [Text(t.text)];
    var calls := seq(|t.calls|, i requires 0 <= i < |t.calls| => ToolUse(t.calls[i].id, t.calls[i].name, t.calls[i].input));
    if t.thinking + words + calls == [] then [] else [Message(Assistant, t.thinking + words + calls, false)]
  }

  function ResultsOf(calls: seq<Call>): seq<Block> {
    if calls == [] then []
    else
      var last := calls[|calls| - 1];
      ResultsOf(calls[..|calls| - 1]) + [ToolResult(last.id, JStr(last.result), last.isError)] + last.view
  }

  /** The results of all calls in one message, each followed by what it shows. */
  function Feedback(t: Turn): seq<Message> {
    if t.calls == [] then [] else [Message(User, ResultsOf(t.calls), false)]
  }

  /** The same calls have now been made as often in a row as the guard tolerates. */
  predicate Repeats(cfg: Config, done: seq<Turn>) {
    cfg.repeatThreshold > 0 && TailRun(FlatMap(MainFingerprint(cfg), done)) == cfg.repeatThreshold
  }

  predicate GetsNudged(done: seq<Turn>) {
    done != [] && FellSilent(done) && Nudges(done[..|done| - 1]) < 2
  }

  predicate TripsGuard(cfg: Config, done: seq<Turn>) {
    cfg.repeatThreshold > 0 && TailRun(FlatMap(MainFingerprint(cfg), done)) == cfg.repeatThreshold + 1
  }

  /** What the last of the executed turns adds to the history. */
  function Adds(cfg: Config, done: seq<Turn>): seq<Message>
    requires done != []
  {
    var t := done[|done| - 1];
    var nudge := if GetsNudged(done) then [FromUser(SILENT_TURN_NUDGE)] else [];
    Notice(t.notice)
    + if t.interrupted then Speech(t) + Feedback(t) + Notice(t.lateNotice)
      else if t.calls != [] then
        Speech(t) + Feedback(t)
        + (if Repeats(cfg, done) then [FromUser(LOOP_REPEAT_NUDGE)] else [])
        + (if TripsGuard(cfg, done) then [] else nudge)
      else if t.lateNotice.Some? then Speech(t) + Notice(t.lateNotice)
      else if GetsNudged(done) then Speech(t) + nudge
      else []
  }

  /** Every message ever appended. */
  function Story(cfg: Config, done: seq<Turn>): seq<Message> {
    if done == [] then [] else Story(cfg, done[..|done| - 1]) + Adds(cfg, done)
  }

  /** The last of the executed turns compacts the history: it fills the window, compacting does
      not fail, fewer than 3 compactions were made before, and the guard does not end the run. */
  predicate Compacts(cfg: Config, done: seq<Turn>) {
    && done != []
    && Fills(cfg, done[|done| - 1]) && !done[|done| - 1].compactFails
    && Compactions(cfg, done[..|done| - 1]) < 3 && !TripsGuard(cfg, done)
  }

  function MaybeCompact(cfg: Config, h: seq<Message>, done: seq<Turn>): seq<Message> {
    if Compacts(cfg, done) then Compact(cfg.env, h, cfg.keepLastK, done[|done| - 1].summary).messages else h
  }

  /** The history a run works on: what each turn adds, compacted where a turn compacts. */
  function Working(cfg: Config, initial: seq<Message>, done: seq<Turn>): seq<Message> {
    if done == [] then initial
    else MaybeCompact(cfg, Working(cfg, initial, done[..|done| - 1]) + Adds(cfg, done), done)
  }

  /** What the model was sent in each of these turns: the working history with its notice. */
  function Sent(cfg: Config, initial: seq<Message>, done: seq<Turn>): seq<seq<Message>> {
    if done == [] then []
    else
      var before := done[..|done| - 1];
      Sent(cfg, initial, before) + [Working(cfg, initial, before) + Notice(done[|done| - 1].notice)]
  }

  /** Both histories grow by the same messages. */
  ghost predicate Grows(s: Loop, s': Loop, more: seq<Message>) {
    s'.log.full == s.log.full + more && s'.messages == s.messages + more
  }

  // ------------------------------------------------------------------
  // The parts
  // ------------------------------------------------------------------

  lemma {:induction false} ResultsAre(calls: seq<Call>)
    ensures FlatMap(AnswerBlocks(), calls) == ResultsOf(calls)
  {
    if calls != [] {
      var init, last := calls[..|calls| - 1], calls[|calls| - 1];
      ResultsAre(init);
      assert calls == init + [last];
      FlatMapConcat(AnswerBlocks(), init, [last]);
      FlatMapOne(AnswerBlocks(), last);
      Regroup(ResultsOf(init), [ToolResult(last.id, JStr(last.result), last.isError)], last.view);
    }
  }

  lemma {:induction false} CallsAre(calls: seq<Call>)
    ensures FlatMap(CallBlock(), calls)
         == seq(|calls|, i requires 0 <= i < |calls| => ToolUse(calls[i].id, calls[i].name, calls[i].input))
  {
    if calls != [] {
      CallsAre(calls[1..]);
      assert FlatMap(CallBlock(), calls) == CallBlock()(calls[0]) + FlatMap(CallBlock(), calls[1..]);
    }
  }

  lemma SpeechIs(t: Turn)
    ensures AssistantSays(t, t.calls) == Speech(t)
  {
    CallsAre(t.calls);
    hide FlatMap;
    var words := if t.text == "" then [] else [Text(t.text)];
    var calls := seq(|t.calls|, i requires 0 <= i < |t.calls| => ToolUse(t.calls[i].id, t.calls[i].name, t.calls[i].input));
    assert calls == FlatMap(CallBlock(), t.calls);
    assert AssistantBlocks(t, t.calls) == t.thinking + words + calls;
  }

  lemma FeedbackIs(t: Turn)
    ensures ToolsSay(t.calls) == Feedback(t)
  {
    ResultsAre(t.calls);
    hide FlatMap, ResultsOf;
  }

  // ------------------------------------------------------------------
  // One turn
  // ------------------------------------------------------------------

  /** What a run knows of itself when it goes on after these turns. */
  ghost predicate Knows(cfg: Config, s: Loop, done: seq<Turn>) {
    && Tracks(cfg, s, done) && s.compactions <= 3
    && GuardInv(cfg, s) && s.log.fps == FlatMap(MainFingerprint(cfg), done)
  }

  lemma KnowsMore(cfg: Config, s: Loop, done: seq<Turn>, t: Turn)
    requires Knows(cfg, s, done) && TurnStep(cfg, s, t).1 == Continue
    ensures Knows(cfg, TurnStep(cfg, s, t).0, done + [t])
  {
    hide TurnStep, Tracks, GuardInv, TailRun;
    StepTracks(cfg, s, done, t);
    StepCounts(cfg, s, t);
    StepBooks(cfg, s, t);
    FlatMapConcat(MainFingerprint(cfg), done, [t]);
    FlatMapOne(MainFingerprint(cfg), t);
  }

  lemma GuardTells(cfg: Config, s: Loop, done: seq<Turn>, t: Turn)
    requires GuardInv(cfg, s) && s.log.fps == FlatMap(MainFingerprint(cfg), done) && t.calls != [] && !t.interrupted
    ensures var (s', flow) := DeadLoopGuard(cfg, s, t);
            && Grows(s, s', if Repeats(cfg, done + [t]) then [FromUser(LOOP_REPEAT_NUDGE)] else [])
            && (flow.Break? <==> TripsGuard(cfg, done + [t]))
            && s'.acted == s.acted && s'.toolCalls == s.toolCalls && s'.nudges == s.nudges
            && s'.compactions == s.compactions
  {
    NothingMore(s);
    hide Fingerprint, TailRun, RunsWithin, FlatMap;
    FlatMapConcat(MainFingerprint(cfg), done, [t]);
    FlatMapOne(MainFingerprint(cfg), t);
    if cfg.repeatThreshold > 0 {
      var fps, fp := s.log.fps, Fingerprint(cfg.dump, t.calls);
      TailRunSnoc(fps, fp);
      TailRunWithin(fps, cfg.repeatThreshold);
    }
  }

  lemma NothingMore(s: Loop)
    ensures Grows(s, s, [])
  {
  }

  lemma AftermathTells(cfg: Config, s: Loop, done: seq<Turn>, t: Turn)
    requires t.calls != [] && !t.interrupted && s.toolCalls != []
    requires (s.acted <==> ReachedSomeone(done + [t])) && s.nudges == Nudges(done) && s.compactions <= 3
    ensures var s', nudge := Aftermath(cfg, s, t).0, if GetsNudged(done + [t]) then [FromUser(SILENT_TURN_NUDGE)] else [];
            && s'.log.full == s.log.full + nudge
            && s'.messages == if Fills(cfg, t) && !t.compactFails && s.compactions < 3
                              then Compact(cfg.env, s.messages + nudge, cfg.keepLastK, t.summary).messages
                              else s.messages + nudge
  {
    hide Compact, Nudges, ReachedSomeone;
    OneMore(done, t);
    NothingMore(s);
    assert (done + [t])[..|done|] == done;
  }

  /** What the beginning of a turn leaves for its body. */
  ghost predicate Begun(cfg: Config, s: Loop, s1: Loop, done: seq<Turn>, t: Turn) {
    && Grows(s, s1, Notice(t.notice)) && s1.log.sent == s.log.sent + [s.messages + Notice(t.notice)]
    && s1.compactions == Compactions(cfg, done) <= 3
    && s1.log.fps == FlatMap(MainFingerprint(cfg), done) && GuardInv(cfg, s1)
    && (s1.toolCalls != [] <==> CalledTools(done + [t]))
    && (s1.acted || Acts(t.calls) <==> ReachedSomeone(done + [t]))
    && s1.nudges == Nudges(done)
  }

  lemma TurnBegins(cfg: Config, s: Loop, done: seq<Turn>, t: Turn)
    requires Knows(cfg, s, done)
    ensures Begun(cfg, s, BeginTurn(Boundary(s, t), t), done, t)
  {
    hide Tracks, Acts, CalledTools, ReachedSomeone, Nudges, Compactions, TailRun, RunsWithin, FlatMap;
    BeginTracks(cfg, s, done, t);
  }

  lemma ToolTurnTells(cfg: Config, s: Loop, s1: Loop, done: seq<Turn>, t: Turn)
    requires Begun(cfg, s, s1, done, t) && t.calls != [] && !t.interrupted
    ensures var s' := ToolTurn(cfg, s1, t).0;
            && s'.log.full == s.log.full + Adds(cfg, done + [t])
            && s'.messages == MaybeCompact(cfg, s.messages + Adds(cfg, done + [t]), done + [t])
  {
    OneMore(done, t);
    SpeechIs(t);
    FeedbackIs(t);
    hide AssistantSays, ToolsSay, Aftermath, Acts, CalledTools, ReachedSomeone, Nudges, Speech, Feedback, FlatMap,
         GetsNudged, Repeats, TripsGuard, TailRun, RunsWithin, DeadLoopGuard, Notice, Compact, Compactions, Fills;
    var s2 := RunTools(s1, t);
    GuardTells(cfg, s2, done, t);
    var s3 := DeadLoopGuard(cfg, s2, t).0;
    AftermathTells(cfg, s3, done, t);
    assert (done + [t])[|done|] == t && (done + [t])[..|done|] == done;
    var notice, said, fed := Notice(t.notice), Speech(t), Feedback(t);
    var loud := if Repeats(cfg, done + [t]) then [FromUser(LOOP_REPEAT_NUDGE)] else [];
    var soft := if TripsGuard(cfg, done + [t]) || !GetsNudged(done + [t]) then [] else [FromUser(SILENT_TURN_NUDGE)];
    assert Grows(s1, s2, said + fed);
    RegroupSix(s.log.full, notice, said, fed, loud, soft);
    RegroupSix(s.messages, notice, said, fed, loud, soft);
  }

  lemma RegroupSix<T>(a: seq<T>, b: seq<T>, c: seq<T>, d: seq<T>, e: seq<T>, f: seq<T>)
    ensures a + b + (c + d) + e + f == a + (b + (c + d + e + f))
    ensures f == [] ==> a + b + (c + d) + e == a + (b + (c + d + e + f))
  {
    Regroup(b, c + d, e);
    Regroup(a, b, c + d + e);
    Regroup(b, c + d + e, f);
    Regroup(a, b + (c + d + e), f);
  }

  lemma RegroupFour<T>(a: seq<T>, b: seq<T>, c: seq<T>, d: seq<T>)
    ensures a + b + c + d == a + (b + (c + d))
    ensures a + b + c == a + (b + c)
    ensures a + (b + []) == a + b
  {
  }

  lemma OtherTurnTells(cfg: Config, s: Loop, s1: Loop, done: seq<Turn>, t: Turn)
    requires Begun(cfg, s, s1, done, t) && (t.interrupted || t.calls == [])
    ensures Grows(s, TurnBody(cfg, s1, t).0, Adds(cfg, done + [t])) && !Compacts(cfg, done + [t])
  {
    SpeechIs(t);
    FeedbackIs(t);
    NoCallsActNot(t.calls);
    hide AssistantSays, ToolsSay, Acts, CalledTools, ReachedSomeone, Nudges, Speech, Feedback, FlatMap, Repeats,
         TripsGuard, TailRun, RunsWithin, GuardInv, Compactions;
    assert (done + [t])[|done|] == t && (done + [t])[..|done|] == done;
    assert NoticeSays(t.lateNotice) == Notice(t.lateNotice);
    var notice, late, nudge := Notice(t.notice), Notice(t.lateNotice), [FromUser(SILENT_TURN_NUDGE)];
    RegroupFour(s.log.full, notice, Speech(t) + Feedback(t), late);
    RegroupFour(s.messages, notice, Speech(t) + Feedback(t), late);
    RegroupFour(s.log.full, notice, Speech(t), late);
    RegroupFour(s.messages, notice, Speech(t), late);
    RegroupFour(s.log.full, notice, Speech(t), nudge);
    RegroupFour(s.messages, notice, Speech(t), nudge);
  }

  lemma SendsOnce(cfg: Config, s: Loop, t: Turn)
    ensures TurnBody(cfg, s, t).0.log.sent == s.log.sent
  {
    hide MainFingerprint;
    BodyBooks(cfg, s, t);
  }

  lemma BeginsWith(cfg: Config, s: Loop, done: seq<Turn>, t: Turn)
    requires Knows(cfg, s, done)
    ensures BeginTurn(Boundary(s, t), t).log.sent == s.log.sent + [s.messages + Notice(t.notice)]
  {
  }

  lemma StepTells(cfg: Config, s: Loop, done: seq<Turn>, t: Turn)
    requires Knows(cfg, s, done) && TurnStep(cfg, s, t).1 != Break(Stopped)
    ensures var s' := TurnStep(cfg, s, t).0;
            && s'.log.full == s.log.full + Adds(cfg, done + [t])
            && s'.messages == MaybeCompact(cfg, s.messages + Adds(cfg, done + [t]), done + [t])
            && s'.log.sent == s.log.sent + [s.messages + Notice(t.notice)]
  {
    SendsOnce(cfg, BeginTurn(Boundary(s, t), t), t);
    hide Knows, Begun, ToolTurn, NoToolTurn, InterruptedTurn, BeginTurn, Adds, Compacts, Compact;
    BeginsWith(cfg, s, done, t);
    TurnBegins(cfg, s, done, t);
    var s1 := BeginTurn(Boundary(s, t), t);
    if t.interrupted || t.calls == [] {
      OtherTurnTells(cfg, s, s1, done, t);
    } else {
      ToolTurnTells(cfg, s, s1, done, t);
    }
  }

  // ------------------------------------------------------------------
  // Runs
  // ------------------------------------------------------------------

  lemma OneMoreTurn(cfg: Config, initial: seq<Message>, done: seq<Turn>, t: Turn)
    ensures Story(cfg, done + [t]) == Story(cfg, done) + Adds(cfg, done + [t])
    ensures Working(cfg, initial, done + [t])
         == MaybeCompact(cfg, Working(cfg, initial, done) + Adds(cfg, done + [t]), done + [t])
    ensures Sent(cfg, initial, done + [t]) == Sent(cfg, initial, done) + [Working(cfg, initial, done) + Notice(t.notice)]
  {
    assert (done + [t])[..|done|] == done && (done + [t])[|done|] == t;
    hide Adds, MaybeCompact;
  }

  /** The three records of a run are those told from its turns. */
  ghost predicate Written(cfg: Config, s: Loop, initial: seq<Message>, done: seq<Turn>) {
    && s.log.full == initial + Story(cfg, done)
    && s.messages == Working(cfg, initial, done)
    && s.log.sent == Sent(cfg, initial, done)
  }

  lemma StepWrites(cfg: Config, s: Loop, initial: seq<Message>, done: seq<Turn>, t: Turn)
    requires Knows(cfg, s, done) && Written(cfg, s, initial, done) && TurnStep(cfg, s, t).1 != Break(Stopped)
    ensures Written(cfg, TurnStep(cfg, s, t).0, initial, done + [t])
  {
    hide TurnStep, Knows, Adds, Story, Working, Sent, MaybeCompact, Notice;
    StepTells(cfg, s, done, t);
    OneMoreTurn(cfg, initial, done, t);
    Regroup(initial, Story(cfg, done), Adds(cfg, done + [t]));
  }

  lemma StoppedWritesNothing(cfg: Config, s: Loop, t: Turn)
    requires TurnStep(cfg, s, t).1 == Break(Stopped)
    ensures TurnStep(cfg, s, t).0.messages == s.messages && TurnStep(cfg, s, t).0.log == s.log
  {
    hide MainFingerprint;
    BodyBooks(cfg, BeginTurn(Boundary(s, t), t), t);
  }

  lemma {:induction false} RunTells(cfg: Config, s: Loop, initial: seq<Message>, done: seq<Turn>, turns: seq<Turn>)
    requires Knows(cfg, s, done) && Written(cfg, s, initial, done)
    ensures var r := Run(cfg, s, turns);
            r.turns <= |turns| && Written(cfg, r.state, initial, done + Executed(r, turns))
    decreases |turns|
  {
    hide TurnStep, Knows, Story, Working, Sent, FlatMap;
    if turns == [] {
      assert done + [] == done;
    } else {
      var t := turns[0];
      var (s', flow) := TurnStep(cfg, s, t);
      var r := Run(cfg, s, turns);
      StepBooks(cfg, s, t);
      if flow == Break(Stopped) {
        StoppedWritesNothing(cfg, s, t);
        assert Executed(r, turns) == [] && done + [] == done;
      } else {
        StepWrites(cfg, s, initial, done, t);
        if flow.Continue? {
          KnowsMore(cfg, s, done, t);
          RunTells(cfg, s', initial, done + [t], turns[1..]);
          var r' := Run(cfg, s', turns[1..]);
          assert done + Executed(r, turns) == done + [t] + Executed(r', turns[1..]);
        } else {
          assert Executed(r, turns) == [t];
        }
      }
    }
  }

  lemma KnowsAtStart(cfg: Config, s: Loop)
    requires s == Start(s.messages)
    ensures Knows(cfg, s, []) && Written(cfg, s, s.messages, [])
  {
  }

  /** The never-compacted history of every run is the history it started with and then, turn by
      turn, all that its executed turns brought: nothing is dropped, altered or reordered. The
      working history is the same with its compactions, and that is what the model was sent. */
  lemma HistoryIsStory(cfg: Config, s: Loop, turns: seq<Turn>)
    requires s == Start(s.messages)
    ensures var r := Run(cfg, s, turns);
            var done := Executed(r, turns);
            && r.state.log.full == s.messages + Story(cfg, done)
            && r.state.messages == Working(cfg, s.messages, done)
            && r.state.log.sent == Sent(cfg, s.messages, done)
  {
    hide Story, Working, Sent, Knows, Run;
    KnowsAtStart(cfg, s);
    RunTells(cfg, s, s.messages, [], turns);
    var r := Run(cfg, s, turns);
    assert [] + Executed(r, turns) == Executed(r, turns);
  }
}
