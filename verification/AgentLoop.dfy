/**
 The multi-turn agent loop (src/lyre/runtime/agent_loop.py, `AgentLoop.run`).

 One model turn, the tool handlers, the mail watcher, the cancel check, other tasks and the
 summary model are oracles: a run is driven by one `Turn` value per iteration.
 This module is the specification of the loop; AgentLoopCode.dfy holds the code.
 */
module AgentLoop {
  import opened Wrappers
  import opened Messages
  import opened Seqs
  import opened Compaction

  datatype StopReason = EndTurn | ToolUseStop | MaxTokens | CancelledStop | ErrorStop | NoReason

  datatype Status = Completed | SilentClose | NeedsContinuation | Cancelled

  datatype StopRequest = StopRequest(target: Status, reason: string)

  /** A tool call of the model together with what dispatching it returns. */
  datatype Call = Call(id: string, name: string, input: Obj,
                       result: string, isError: bool, view: seq<Block>)

  /** Everything the surroundings contribute to one iteration of the loop. */
  datatype Turn = Turn(
    cancel: Option<string>,               // cancel_check's answer; None also when there is no check
    stopAtBoundary: Option<StopRequest>,  // another task's request while that check is awaited
    notice: Option<string>,               // watcher signal set before the turn: its notice text
    text: string,
    thinking: seq<Block>,
    calls: seq<Call>,
    stopReason: StopReason,
    inputTokens: nat,                     // reported or estimated
    window: Option<nat>,                  // context window of the model used
    interrupted: bool,
    stopDuring: Option<StopRequest>,      // another task's request during the iteration
    lateNotice: Option<string>,           // watcher signal set at the mid-stream or post-turn check
    compactFails: bool,                   // compact_messages raises
    summary: string)                      // text of the summary model, "" when the call failed

  datatype Config = Config(
    env: Env,
    dump: (string, Json) -> string,       // json.dumps of one call for the fingerprint
    compactThreshold: real,
    keepLastK: int,
    repeatThreshold: int)

  const MAX_SILENT_TURN_NUDGES := 2
  const MAX_COMPACTIONS := 3
  const SILENT_TURN_NUDGE := "You gathered context"
  const LOOP_REPEAT_NUDGE := "You have called the SAME tool"

  const USER_FACING_TOOLS: set<string> := {
    "mailbox_send", "mailbox_react", "dispatch_task", "fan_in_open", "report_progress",
    "report_side_effect", "cancel_scheduled_mail", "archive_agent", "create_agent", "mark_read"
  }

  /** What the run has done, kept only to state properties of it. */
  datatype Log = Log(
    full: seq<Message>,              // every message ever appended: the never-compacted history
    sent: seq<seq<Message>>,         // the history sent to the model at each turn
    compacted: seq<seq<Message>>,    // the history handed to each compaction
    fps: seq<multiset<string>>,      // fingerprints of successive main-path tool turns
    nudges: nat)                     // silent-turn nudges injected

  datatype Loop = Loop(
    messages: seq<Message>,
    toolCalls: seq<Call>,
    finalReason: StopReason,
    stop: Option<StopRequest>,
    fp: Option<multiset<string>>,
    repeatCount: nat,
    repeatNudged: bool,
    acted: bool,                     // made_user_facing_action
    nudges: nat,                     // silent_turn_nudges_used
    compactions: nat,
    degraded: nat,
    log: Log)

  datatype Exit = Stopped | NoTools | DeadLoop | Thrash | Exhausted

  datatype Flow = Continue | Break(exit: Exit)

  function Start(initial: seq<Message>): Loop {
    Loop(initial, [], NoReason, None, None, 0, false, false, 0, 0, 0, Log(initial, [], [], [], 0))
  }

  // ------------------------------------------------------------------
  // What a turn says
  // ------------------------------------------------------------------

  /** First request wins. */
  function RequestStop(s: Loop, r: Option<StopRequest>): Loop {
    if s.stop.None? then s.(stop := r) else s
  }

  function Extend(s: Loop, ext: seq<Message>): Loop {
    s.(messages := s.messages + ext, log := s.log.(full := s.log.full + ext))
  }

  function CallBlock(): Call -> seq<Block> {
    (c: Call) => [ToolUse(c.id, c.name, c.input)]
  }

  /** The answer to one call: its result and the view blocks that ride along. */
  function AnswerBlocks(): Call -> seq<Block> {
    (c: Call) => [ToolResult(c.id, JStr(c.result), c.isError)] + c.view
  }

  function AssistantBlocks(t: Turn, calls: seq<Call>): seq<Block> {
    t.thinking + (if t.text != "" then [Text(t.text)] else []) + FlatMap(CallBlock(), calls)
  }

  function AssistantSays(t: Turn, calls: seq<Call>): seq<Message> {
    if AssistantBlocks(t, calls) == [] then [] else [Message(Assistant, AssistantBlocks(t, calls), false)]
  }

  function ToolsSay(calls: seq<Call>): seq<Message> {
    if calls == [] then [] else [Message(User, FlatMap(AnswerBlocks(), calls), false)]
  }

  function NoticeSays(notice: Option<string>): seq<Message> {
    if notice.Some? then [TextMessage(User, notice.value)] else []
  }

  /** Some call reaches a user-facing tool, whether or not it succeeds. */
  predicate Acts(calls: seq<Call>) {
    && calls != []
    && (Acts(calls[..|calls| - 1]) || calls[|calls| - 1].name in USER_FACING_TOOLS)
  }

  function RunTools(s: Loop, t: Turn): Loop {
    Extend(s, AssistantSays(t, t.calls) + ToolsSay(t.calls)).(acted := s.acted || Acts(t.calls))
  }

  // ------------------------------------------------------------------
  // The paths of one iteration
  // ------------------------------------------------------------------

  function Boundary(s: Loop, t: Turn): Loop {
    if s.stop.Some? then s
    else
      RequestStop(RequestStop(s, t.stopAtBoundary),
                  if t.cancel.Some? then Some(StopRequest(Cancelled, t.cancel.value)) else None)
  }

  /** The notice goes in, the history is sent, the turn's outcome is booked. */
  function BeginTurn(s: Loop, t: Turn): Loop {
    var s1 := Extend(s, NoticeSays(t.notice));
    RequestStop(
      s1.(toolCalls := s1.toolCalls + t.calls,
          finalReason := t.stopReason,
          log := s1.log.(sent := s1.log.sent + [s1.messages])),
      t.stopDuring)
  }

  function InterruptedTurn(s: Loop, t: Turn): Loop {
    Extend(RunTools(s, t), NoticeSays(t.lateNotice))
  }

  predicate WantsSilentNudge(s: Loop, t: Turn) {
    t.stopReason == EndTurn && s.toolCalls != [] && !s.acted && s.nudges < MAX_SILENT_TURN_NUDGES
  }

  function SilentNudge(s: Loop): Loop {
    var s1 := Extend(s, [TextMessage(User, SILENT_TURN_NUDGE)]);
    s1.(nudges := s.nudges + 1, log := s1.log.(nudges := s.log.nudges + 1))
  }

  function NoToolTurn(s: Loop, t: Turn): (Loop, Flow) {
    if t.lateNotice.Some? then (Extend(Extend(s, AssistantSays(t, [])), NoticeSays(t.lateNotice)), Continue)
    else if WantsSilentNudge(s, t) then (SilentNudge(Extend(s, AssistantSays(t, []))), Continue)
    else (s, Break(NoTools))
  }

  predicate IsTruncatedToolArgs(input: Obj) {
    |input| == 1 && "_raw" in input && input["_raw"].JStr?
  }

  function Print(dump: (string, Json) -> string, c: Call): string {
    dump(c.name, if IsTruncatedToolArgs(c.input) then JStr("<truncated-args>") else JObj(c.input))
  }

  function Fingerprint(dump: (string, Json) -> string, calls: seq<Call>): multiset<string> {
    multiset(seq(|calls|, i requires 0 <= i < |calls| => Print(dump, calls[i])))
  }

  /** The dead-loop guard: nudge at the threshold, stop at the next repetition. */
  function DeadLoopGuard(cfg: Config, s: Loop, t: Turn): (Loop, Flow) {
    if cfg.repeatThreshold <= 0 then (s, Continue)
    else
      var fp := Fingerprint(cfg.dump, t.calls);
      var s0 := s.(log := s.log.(fps := s.log.fps + [fp]));
      var s1 := if s0.fp == Some(fp) then s0.(repeatCount := s0.repeatCount + 1)
                else s0.(fp := Some(fp), repeatCount := 1, repeatNudged := false);
      if s1.repeatCount < cfg.repeatThreshold then (s1, Continue)
      else if !s1.repeatNudged then
        (Extend(s1, [TextMessage(User, LOOP_REPEAT_NUDGE)]).(repeatNudged := true), Continue)
      else
        (s1.(stop := Some(StopRequest(NeedsContinuation, "dead_loop"))), Break(DeadLoop))
  }

  predicate OverThreshold(cfg: Config, t: Turn) {
    && t.window.Some? && t.window.value != 0 && t.inputTokens != 0
    && t.inputTokens as real >= cfg.compactThreshold * t.window.value as real
  }

  /** The caller swaps the compacted history in. */
  function Swap(s: Loop, outcome: CompactionOutcome): Loop {
    s.(messages := outcome.messages, compactions := s.compactions + 1,
       degraded := s.degraded + (if outcome.degraded then 1 else 0),
       log := s.log.(compacted := s.log.compacted + [s.messages]))
  }

  function AutoCompact(cfg: Config, s: Loop, t: Turn): (Loop, Flow) {
    if !OverThreshold(cfg, t) then (s, Continue)
    else if s.compactions >= MAX_COMPACTIONS then
      (s.(finalReason := EndTurn, acted := false, nudges := MAX_SILENT_TURN_NUDGES), Break(Thrash))
    else if t.compactFails then (s, Continue)
    else
      (Swap(s, Compact(cfg.env, s.messages, cfg.keepLastK, t.summary)), Continue)
  }

  /** What follows the guard: the nudge beside the results, then compaction. */
  function Aftermath(cfg: Config, s: Loop, t: Turn): (Loop, Flow) {
    AutoCompact(cfg, if WantsSilentNudge(s, t) then SilentNudge(s) else s, t)
  }

  function ToolTurn(cfg: Config, s: Loop, t: Turn): (Loop, Flow) {
    var (s1, flow) := DeadLoopGuard(cfg, RunTools(s, t), t);
    if flow.Break? then (s1, flow) else Aftermath(cfg, s1, t)
  }

  /** What the loop does with the outcome of the turn. */
  function TurnBody(cfg: Config, s: Loop, t: Turn): (Loop, Flow) {
    if t.interrupted then (InterruptedTurn(s, t), Continue)
    else if t.calls == [] then NoToolTurn(s, t)
    else ToolTurn(cfg, s, t)
  }

  function TurnStep(cfg: Config, s: Loop, t: Turn): (Loop, Flow) {
    var s0 := Boundary(s, t);
    if s0.stop.Some? then (s0, Break(Stopped)) else TurnBody(cfg, BeginTurn(s0, t), t)
  }

  // ------------------------------------------------------------------
  // Runs and verdicts
  // ------------------------------------------------------------------

  datatype RunEnd = RunEnd(state: Loop, exit: Exit, turns: nat)

  /** The loop over all offered turns; `turns` counts the iterations entered. */
  function Run(cfg: Config, s: Loop, turns: seq<Turn>): RunEnd
    decreases |turns|
  {
    if turns == [] then RunEnd(s, Exhausted, 0)
    else
      var (s', flow) := TurnStep(cfg, s, turns[0]);
      match flow
      case Break(exit) => RunEnd(s', exit, 1)
      case Continue =>
        var rest := Run(cfg, s', turns[1..]);
        rest.(turns := rest.turns + 1)
  }

  predicate IsSilentClose(s: Loop, exit: Exit) {
    && s.finalReason == EndTurn
    && s.nudges >= MAX_SILENT_TURN_NUDGES
    && !s.acted
    && s.toolCalls != []
    && exit != Exhausted
    && s.stop.None?
  }

  datatype Verdict = Verdict(status: Status, silentClose: bool)

  /** `lateStop` is a request that another task raises while the fallback mail is sent. */
  function Finish(s: Loop, exit: Exit, lateStop: Option<StopRequest>): Verdict {
    var silent := IsSilentClose(s, exit);
    var stop := if silent then lateStop else s.stop;
    Verdict(
      if stop.Some? then stop.value.target
      else if exit == Exhausted then NeedsContinuation
      else if silent then SilentClose
      else if s.finalReason == EndTurn then Completed
      else NeedsContinuation,
      silent)
  }
}
