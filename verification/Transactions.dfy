/**
 Transactions on the one SQLite connection that all asyncio tasks share
 (src/lyre/persistence/sqlite_impl.py: `_commit`, `_commit_lock`, `transaction`).

 Every step below is what one task does between two awaits. The connection-global SQLite
 transaction is `pending`: statements of any task land there, a commit moves all of it to
 `durable`, a rollback drops all of it.
 */
module Transactions {
  import opened Wrappers
  import opened Seqs

  /** The effect of one mutator call, and the transaction block it was executed in. */
  datatype Write = Write(id: nat, block: Option<nat>)

  /** Where a task stands in `_commit` and `transaction`. */
  datatype Pc =
    | Body
    | AtCommit(write: nat)      // a stand-alone mutator's `_commit`, waiting for the lock
    | Committing(write: nat)    // holds the lock for that commit
    | AtTransaction             // outermost `transaction()`, waiting for the lock
    | Unlocking                 // commit or rollback done, lock still held

  /** `inTx` is the task's context variable `_IN_TRANSACTION`; `depth` counts the nested
      `transaction()` calls that joined block `block`. */
  datatype Task = Task(inTx: bool, block: nat, depth: nat, pc: Pc)

  datatype Outcome = Open | Committed | RolledBack | LostInCrash

  /** `executed` and `outcome` record, per block, the writes executed and the end. */
  datatype State = State(
    durable: seq<Write>,
    pending: seq<Write>,
    lock: Option<nat>,
    tasks: map<nat, Task>,
    executed: seq<seq<nat>>,
    outcome: seq<Outcome>)

  datatype Step =
    | Mutate(t: nat, id: nat)      // a DAO mutator executes its statements and reaches `_commit`
    | Enter(t: nat)                // `async with repos.transaction()`
    | GetLock(t: nat)
    | Commit(t: nat)               // the stand-alone commit
    | Leave(t: nat, ok: bool)      // end of a block: ok, or its body or its commit raised
    | Release(t: nat)
    | Abandon(t: nat)              // cancelled while waiting, or the stand-alone commit failed
    | Crash                        // the process dies

  const IDLE := Task(false, 0, 0, Body)

  const INITIAL := State([], [], None, map[], [], [])

  function TaskOf(s: State, t: nat): Task {
    if t in s.tasks then s.tasks[t] else IDLE
  }

  function SetTask(s: State, t: nat, k: Task): State {
    s.(tasks := s.tasks[t := k])
  }

  predicate Waiting(k: Task) {
    k.pc.AtCommit? || k.pc.AtTransaction?
  }

  predicate Enabled(s: State, step: Step) {
    match step
    case Mutate(t, _) => TaskOf(s, t).pc == Body
    case Enter(t) => TaskOf(s, t).pc == Body
    case GetLock(t) => s.lock == None && Waiting(TaskOf(s, t))
    case Commit(t) => TaskOf(s, t).pc.Committing?
    case Leave(t, _) => TaskOf(s, t).pc == Body && TaskOf(s, t).inTx
    case Release(t) => TaskOf(s, t).pc == Unlocking
    case Abandon(t) => Waiting(TaskOf(s, t)) || TaskOf(s, t).pc.Committing?
    case Crash => true
  }

  function CommitPending(s: State): State {
    s.(durable := s.durable + s.pending, pending := [])
  }

  function RollBackPending(s: State): State {
    s.(pending := [])
  }

  function Record(log: seq<seq<nat>>, b: nat, id: nat): seq<seq<nat>> {
    if b < |log| then log[b := log[b] + [id]] else log
  }

  /** Inside a block the mutator's own `_commit` is a no-op. */
  function DoMutate(s: State, t: nat, id: nat): State {
    var k := TaskOf(s, t);
    if k.inTx
    then s.(pending := s.pending + [Write(id, Some(k.block))], executed := Record(s.executed, k.block, id))
    else SetTask(s.(pending := s.pending + [Write(id, None)]), t, k.(pc := AtCommit(id)))
  }

  /** A nested call joins the outer block. */
  function DoEnter(s: State, t: nat): State {
    var k := TaskOf(s, t);
    SetTask(s, t, if k.inTx then k.(depth := k.depth + 1) else k.(pc := AtTransaction))
  }

  function DoGetLock(s: State, t: nat): State {
    var k := TaskOf(s, t);
    var s1 := s.(lock := Some(t));
    match k.pc
    case AtCommit(w) => SetTask(s1, t, k.(pc := Committing(w)))
    case _ =>
      SetTask(s1, t, Task(true, |s.executed|, 0, Body)).(
        executed := s.executed + [[]], outcome := s.outcome + [Open])
  }

  /** Only the outermost block commits or rolls back. */
  function DoLeave(s: State, t: nat, ok: bool): State {
    var k := TaskOf(s, t);
    if k.depth > 0 then SetTask(s, t, k.(depth := k.depth - 1))
    else
      var s1 := if ok then CommitPending(s) else RollBackPending(s);
      SetTask(s1, t, IDLE.(pc := Unlocking)).(
        outcome := if k.block < |s.outcome| then s.outcome[k.block := if ok then Committed else RolledBack]
                   else s.outcome)
  }

  function DoAbandon(s: State, t: nat): State {
    var k := TaskOf(s, t);
    var s1 := SetTask(s, t, k.(pc := Body));
    if k.pc.Committing? then s1.(lock := None) else s1
  }

  function DoCrash(s: State): State {
    s.(pending := [], lock := None, tasks := map[],
       outcome := seq(|s.outcome|, i requires 0 <= i < |s.outcome| =>
         if s.outcome[i] == Open then LostInCrash else s.outcome[i]))
  }

  function Next(s: State, step: Step): State {
    match step
    case Mutate(t, id) => DoMutate(s, t, id)
    case Enter(t) => DoEnter(s, t)
    case GetLock(t) => DoGetLock(s, t)
    case Commit(t) => SetTask(CommitPending(s), t, TaskOf(s, t).(pc := Unlocking))
    case Leave(t, ok) => DoLeave(s, t, ok)
    case Release(t) => SetTask(s, t, TaskOf(s, t).(pc := Body)).(lock := None)
    case Abandon(t) => DoAbandon(s, t)
    case Crash => DoCrash(s)
  }

  /** A schedule is legal when every step is enabled where it is taken. */
  predicate Legal(s: State, steps: seq<Step>)
    decreases |steps|
  {
    steps != [] ==> Enabled(s, steps[0]) && Legal(Next(s, steps[0]), steps[1..])
  }

  function Run(s: State, steps: seq<Step>): State
    decreases |steps|
  {
    if steps == [] then s else Run(Next(s, steps[0]), steps[1..])
  }

  // ------------------------------------------------------------------
  // The invariant
  // ------------------------------------------------------------------

  predicate HoldsLock(k: Task) {
    k.inTx || k.pc.Committing? || k.pc == Unlocking
  }

  /** Ids of block b's writes in a log, in order. */
  function WritesOf(log: seq<Write>, b: nat): seq<nat> {
    if log == [] then []
    else (if log[0].block == Some(b) then [log[0].id] else []) + WritesOf(log[1..], b)
  }

  lemma {:induction false} WritesOfConcat(x: seq<Write>, y: seq<Write>, b: nat)
    ensures WritesOf(x + y, b) == WritesOf(x, b) + WritesOf(y, b)
  {
    hide WritesOf;
    if x == [] {
      NoWrites(b);
      assert x + y == y;
    } else {
      TailConcat(x, y);
      FirstWrite(x, b);
      FirstWrite(x + y, b);
      WritesOfConcat(x[1..], y, b);
    }
  }

  lemma FirstWrite(log: seq<Write>, b: nat)
    requires log != []
    ensures WritesOf(log, b) == (if log[0].block == Some(b) then [log[0].id] else []) + WritesOf(log[1..], b)
  {
  }

  ghost predicate InOpenBlock(s: State, b: nat) {
    && s.lock.Some?
    && TaskOf(s, s.lock.value).inTx
    && TaskOf(s, s.lock.value).block == b
  }

  /** The lock is held by exactly the task that is inside a block or a commit. */
  ghost predicate LockInv(s: State) {
    && (forall t: nat :: HoldsLock(TaskOf(s, t)) <==> s.lock == Some(t))
    && (forall t: nat :: TaskOf(s, t).inTx ==> TaskOf(s, t).pc == Body)
  }

  /** All recorded writes of block b are durable once it committed, pending while it is
      open, and nowhere otherwise. */
  ghost predicate BlockInv(s: State, b: nat)
    requires |s.executed| == |s.outcome|
  {
    if b < |s.executed| then
      && WritesOf(s.durable, b) == (if s.outcome[b] == Committed then s.executed[b] else [])
      && WritesOf(s.pending, b) == (if s.outcome[b] == Open then s.executed[b] else [])
      && (s.outcome[b] == Open <==> InOpenBlock(s, b))
    else
      !InOpenBlock(s, b) && WritesOf(s.durable, b) == [] && WritesOf(s.pending, b) == []
  }

  ghost predicate Inv(s: State) {
    |s.executed| == |s.outcome| && LockInv(s) && forall b: nat :: BlockInv(s, b)
  }

  lemma LockStep(s: State, step: Step)
    requires LockInv(s) && Enabled(s, step)
    ensures LockInv(Next(s, step))
  {
  }

  lemma MutateStep(s: State, t: nat, id: nat, b: nat)
    requires Inv(s) && Enabled(s, Mutate(t, id))
    ensures BlockInv(DoMutate(s, t, id), b)
  {
    var k := TaskOf(s, t);
    assert BlockInv(s, b) && BlockInv(s, k.block);
    WritesOfConcat(s.pending, [Write(id, if k.inTx then Some(k.block) else None)], b);
  }

  lemma GetLockStep(s: State, t: nat, b: nat)
    requires Inv(s) && Enabled(s, GetLock(t))
    ensures BlockInv(DoGetLock(s, t), b)
  {
    assert BlockInv(s, b);
  }

  lemma NoWrites(b: nat)
    ensures WritesOf([], b) == []
  {
  }

  lemma LeaveStep(s: State, t: nat, ok: bool, b: nat)
    requires Inv(s) && Enabled(s, Leave(t, ok))
    ensures BlockInv(DoLeave(s, t, ok), b)
  {
    hide WritesOf;
    assert BlockInv(s, b) && BlockInv(s, TaskOf(s, t).block);
    NoWrites(b);
    WritesOfConcat(s.durable, s.pending, b);
  }

  lemma CommitStep(s: State, t: nat, b: nat)
    requires Inv(s) && Enabled(s, Commit(t))
    ensures BlockInv(Next(s, Commit(t)), b)
  {
    assert BlockInv(s, b);
    WritesOfConcat(s.durable, s.pending, b);
  }

  lemma OtherStep(s: State, step: Step, b: nat)
    requires Inv(s) && Enabled(s, step)
    requires step.Enter? || step.Release? || step.Abandon? || step.Crash?
    ensures BlockInv(Next(s, step), b)
  {
    assert BlockInv(s, b);
  }

  lemma BlockStep(s: State, step: Step, b: nat)
    requires Inv(s) && Enabled(s, step)
    ensures |Next(s, step).executed| == |Next(s, step).outcome|
    ensures BlockInv(Next(s, step), b)
  {
    match step
    case Mutate(t, id) => MutateStep(s, t, id, b);
    case GetLock(t) => GetLockStep(s, t, b);
    case Commit(t) => CommitStep(s, t, b);
    case Leave(t, ok) => LeaveStep(s, t, ok, b);
    case _ => OtherStep(s, step, b);
  }

  lemma StepKeepsInv(s: State, step: Step)
    requires Inv(s) && Enabled(s, step)
    ensures Inv(Next(s, step))
  {
    LockStep(s, step);
    forall b: nat
      ensures BlockInv(Next(s, step), b)
    {
      BlockStep(s, step, b);
    }
  }

  lemma {:induction false} RunKeepsInv(s: State, steps: seq<Step>)
    requires Inv(s) && Legal(s, steps)
    ensures Inv(Run(s, steps))
    decreases |steps|
  {
    if steps != [] {
      StepKeepsInv(s, steps[0]);
      RunKeepsInv(Next(s, steps[0]), steps[1..]);
    }
  }

  // ------------------------------------------------------------------
  // Atomicity
  // ------------------------------------------------------------------

  /** At every point of every schedule, kills included, the durable state holds all writes
      of each committed block, in order, and none of any other. */
  lemma BlocksAreAtomic(steps: seq<Step>, b: nat)
    requires Legal(INITIAL, steps)
    ensures var s := Run(INITIAL, steps);
            && |s.executed| == |s.outcome|
            && WritesOf(s.durable, b)
               == (if b < |s.executed| && s.outcome[b] == Committed then s.executed[b] else [])
  {
    assert Inv(INITIAL);
    RunKeepsInv(INITIAL, steps);
    assert BlockInv(Run(INITIAL, steps), b);
  }

  /** A block that raised leaves nothing and stays that way. */
  lemma {:induction false} OutcomeIsFinal(s: State, steps: seq<Step>, b: nat)
    requires Inv(s) && Legal(s, steps) && b < |s.outcome| && s.outcome[b] != Open
    ensures var s' := Run(s, steps);
            && b < |s'.outcome| == |s'.executed| && s'.outcome[b] == s.outcome[b] && s'.executed[b] == s.executed[b]
    decreases |steps|
  {
    if steps != [] {
      StepKeepsInv(s, steps[0]);
      OutcomeStep(s, steps[0], b);
      OutcomeIsFinal(Next(s, steps[0]), steps[1..], b);
    }
  }

  lemma OutcomeStep(s: State, step: Step, b: nat)
    requires Inv(s) && Enabled(s, step) && b < |s.outcome| && s.outcome[b] != Open
    ensures var s' := Next(s, step);
            b < |s'.outcome| == |s'.executed| && s'.outcome[b] == s.outcome[b] && s'.executed[b] == s.executed[b]
  {
    assert BlockInv(s, b);
    match step
    case Mutate(t, _) => assert BlockInv(s, TaskOf(s, t).block);
    case Leave(t, _) => assert BlockInv(s, TaskOf(s, t).block);
    case _ =>
  }

  // ------------------------------------------------------------------
  // Stand-alone writes
  // ------------------------------------------------------------------

  datatype Boundary = NoBoundary | CommitBoundary | RollbackBoundary(t: nat) | CrashBoundary

  /** What a step does to the connection's open transaction. */
  function BoundaryOf(s: State, step: Step): Boundary {
    match step
    case Commit(_) => CommitBoundary
    case Leave(t, ok) =>
      if TaskOf(s, t).depth > 0 then NoBoundary else if ok then CommitBoundary else RollbackBoundary(t)
    case Crash => CrashBoundary
    case _ => NoBoundary
  }

  /** The first commit, rollback or crash of a schedule. */
  function FirstBoundary(s: State, steps: seq<Step>): Boundary
    decreases |steps|
  {
    if steps == [] then NoBoundary
    else
      var b := BoundaryOf(s, steps[0]);
      if b == NoBoundary then FirstBoundary(Next(s, steps[0]), steps[1..]) else b
  }

  /** The schedule executes no further write under this id. */
  predicate NeverAgain(steps: seq<Step>, id: nat) {
    forall i :: 0 <= i < |steps| ==> !(steps[i].Mutate? && steps[i].id == id)
  }

  predicate Within(log: seq<Write>, id: nat) {
    exists i :: 0 <= i < |log| && log[i].id == id
  }

  lemma WithinConcat(x: seq<Write>, y: seq<Write>, id: nat)
    ensures Within(x + y, id) <==> Within(x, id) || Within(y, id)
  {
    if i :| 0 <= i < |x| && x[i].id == id { assert (x + y)[i].id == id; }
    if i :| 0 <= i < |y| && y[i].id == id { assert (x + y)[|x| + i].id == id; }
  }

  lemma PlacesStep(s: State, step: Step, id: nat)
    requires Enabled(s, step) && !(step.Mutate? && step.id == id)
    ensures var s' := Next(s, step);
            var kept := Within(s'.durable, id) <==> Within(s.durable, id);
            if BoundaryOf(s, step) == NoBoundary then (Within(s'.pending, id) <==> Within(s.pending, id)) && kept
            else
              && !Within(s'.pending, id)
              && (if BoundaryOf(s, step) == CommitBoundary
                  then Within(s'.durable, id) <==> Within(s.durable, id) || Within(s.pending, id)
                  else kept)
  {
    if step.Mutate? {
      var w := Next(s, step).pending[|s.pending|];
      WithinConcat(s.pending, [w], id);
    }
    WithinConcat(s.durable, s.pending, id);
  }

  /** Once out of the open transaction a write never returns to it, nor changes its fate. */
  lemma {:induction false} SettledStays(s: State, steps: seq<Step>, id: nat)
    requires Legal(s, steps) && NeverAgain(steps, id) && !Within(s.pending, id)
    ensures !Within(Run(s, steps).pending, id)
    ensures Within(Run(s, steps).durable, id) <==> Within(s.durable, id)
    decreases |steps|
  {
    if steps != [] {
      assert !(steps[0].Mutate? && steps[0].id == id);
      PlacesStep(s, steps[0], id);
      assert forall i :: 0 <= i < |steps[1..]| ==> steps[1..][i] == steps[i + 1];
      SettledStays(Next(s, steps[0]), steps[1..], id);
    }
  }

  /** The fate of an executed write is the first boundary after it: durable exactly when
      that is a commit (anyone's), still open when there is none, gone otherwise. */
  lemma {:induction false} FateIsFirstBoundary(s: State, steps: seq<Step>, id: nat)
    requires Legal(s, steps) && NeverAgain(steps, id)
    requires Within(s.pending, id) && !Within(s.durable, id)
    ensures Within(Run(s, steps).durable, id) <==> FirstBoundary(s, steps) == CommitBoundary
    ensures Within(Run(s, steps).pending, id) <==> FirstBoundary(s, steps) == NoBoundary
    decreases |steps|
  {
    if steps != [] {
      assert !(steps[0].Mutate? && steps[0].id == id);
      PlacesStep(s, steps[0], id);
      assert forall i :: 0 <= i < |steps[1..]| ==> steps[1..][i] == steps[i + 1];
      if BoundaryOf(s, steps[0]) == NoBoundary {
        FateIsFirstBoundary(Next(s, steps[0]), steps[1..], id);
      } else {
        SettledStays(Next(s, steps[0]), steps[1..], id);
      }
    }
  }

  // ------------------------------------------------------------------
  // The order of what is durable
  // ------------------------------------------------------------------

  function IdsOf(log: seq<Write>): seq<nat> {
    seq(|log|, i requires 0 <= i < |log| => log[i].id)
  }

  /** What is durable stays so, in its place: a commit adds behind it, nothing else touches it. */
  lemma DurableOnlyGrows(s: State, step: Step)
    ensures s.durable <= Next(s, step).durable
    ensures BoundaryOf(s, step) != CommitBoundary ==> Next(s, step).durable == s.durable
    ensures BoundaryOf(s, step) == CommitBoundary ==>
              IdsOf(Next(s, step).durable) == IdsOf(s.durable) + IdsOf(s.pending)
  {
  }

  /** What an executed write adds to the open transaction: itself, behind the others. */
  lemma PendingOnlyGrows(s: State, step: Step)
    ensures BoundaryOf(s, step) == NoBoundary ==>
              IdsOf(Next(s, step).pending) == IdsOf(s.pending) + if step.Mutate? then [step.id] else []
    ensures BoundaryOf(s, step) != NoBoundary ==> Next(s, step).pending == []
  {
  }

  /** The writes of a schedule whose first boundary is a commit, in the order of execution. */
  function Survivors(s: State, steps: seq<Step>): seq<nat>
    decreases |steps|
  {
    if steps == [] then []
    else
      (if steps[0].Mutate? && FirstBoundary(Next(s, steps[0]), steps[1..]) == CommitBoundary then [steps[0].id] else [])
      + Survivors(Next(s, steps[0]), steps[1..])
  }

  lemma {:induction false} DurableFrom(s: State, steps: seq<Step>)
    ensures IdsOf(Run(s, steps).durable)
         == IdsOf(s.durable)
            + (if FirstBoundary(s, steps) == CommitBoundary then IdsOf(s.pending) else [])
            + Survivors(s, steps)
    decreases |steps|
  {
    if steps != [] {
      var s' := Next(s, steps[0]);
      DurableOnlyGrows(s, steps[0]);
      PendingOnlyGrows(s, steps[0]);
      DurableFrom(s', steps[1..]);
      hide Next, IdsOf, BoundaryOf;
      NoIds();
    }
  }

  lemma NoIds()
    ensures IdsOf([]) == []
  {
  }

  /** Over every schedule the durable writes are exactly the surviving ones, and they stand in
      the order in which they were executed, across tasks and across commits. */
  lemma DurableInOrder(steps: seq<Step>)
    ensures IdsOf(Run(INITIAL, steps).durable) == Survivors(INITIAL, steps)
  {
    DurableFrom(INITIAL, steps);
    NoIds();
  }

  /** The mutator of task t has not returned: it waits for the lock, or commits. */
  predicate StillCommitting(s: State, t: nat, id: nat) {
    TaskOf(s, t).pc == AtCommit(id) || TaskOf(s, t).pc == Committing(id)
  }

  /** Before a mutator has returned from `_commit`, no block of its own can roll back, and
      it can only return through a commit. */
  lemma {:induction false} ReturnsAfterBoundary(s: State, steps: seq<Step>, t: nat, id: nat)
    requires Inv(s) && Legal(s, steps) && StillCommitting(s, t, id)
    requires Abandon(t) !in steps && Crash !in steps
    ensures FirstBoundary(s, steps) == NoBoundary ==> StillCommitting(Run(s, steps), t, id)
    ensures FirstBoundary(s, steps) != RollbackBoundary(t)
    decreases |steps|
  {
    if steps != [] {
      StepKeepsInv(s, steps[0]);
      if BoundaryOf(s, steps[0]) == NoBoundary {
        assert steps[0] != Abandon(t) && steps[0] != Crash;
        ReturnsAfterBoundary(Next(s, steps[0]), steps[1..], t, id);
      }
    }
  }

  /** A stand-alone write is durable when its mutator returns, unless the first commit or
      rollback after its execution was the rollback of a block of another task. */
  lemma StandAloneDurability(s: State, t: nat, id: nat, steps: seq<Step>)
    requires Inv(s) && Enabled(s, Mutate(t, id)) && !TaskOf(s, t).inTx
    requires !Within(s.pending, id) && !Within(s.durable, id) && NeverAgain(steps, id)
    requires Legal(Next(s, Mutate(t, id)), steps) && Abandon(t) !in steps && Crash !in steps
    requires !StillCommitting(Run(Next(s, Mutate(t, id)), steps), t, id)
    ensures var s1 := Next(s, Mutate(t, id));
            if Within(Run(s1, steps).durable, id) then FirstBoundary(s1, steps) == CommitBoundary
            else exists u: nat :: u != t && FirstBoundary(s1, steps) == RollbackBoundary(u)
  {
    var s1 := Next(s, Mutate(t, id));
    StepKeepsInv(s, Mutate(t, id));
    assert s1.pending[|s.pending|].id == id;
    FateIsFirstBoundary(s1, steps, id);
    ReturnsAfterBoundary(s1, steps, t, id);
    NoCrashNoCrashBoundary(s1, steps);
  }

  lemma {:induction false} NoCrashNoCrashBoundary(s: State, steps: seq<Step>)
    requires Crash !in steps
    ensures FirstBoundary(s, steps) != CrashBoundary
    decreases |steps|
  {
    if steps != [] {
      assert steps[0] != Crash;
      NoCrashNoCrashBoundary(Next(s, steps[0]), steps[1..]);
    }
  }

  /** Task t executes a write, u rolls its block back, and t's mutator commits and returns. */
  function AfterLostWrite(s: State, t: nat, u: nat, id: nat): State {
    Next(Next(Next(Next(Next(Next(s, Mutate(t, id)), Leave(u, false)), Release(u)), GetLock(t)), Commit(t)), Release(t))
  }

  /** That exception is real. Whenever a task is about to roll its block back, a write that
      another task executes before that is lost, and its mutator still runs to its return. */
  lemma OtherRollbackLosesWrite(s: State, t: nat, u: nat, id: nat)
    requires Inv(s) && TaskOf(s, u).inTx && TaskOf(s, u).depth == 0
    requires t != u && TaskOf(s, t).pc == Body && !Within(s.durable, id)
    ensures var s1 := Next(s, Mutate(t, id));
            var s2 := Next(s1, Leave(u, false));
            var s3 := Next(s2, Release(u));
            var s4 := Next(s3, GetLock(t));
            var s5 := Next(s4, Commit(t));
            && Enabled(s, Mutate(t, id)) && Enabled(s1, Leave(u, false)) && Enabled(s2, Release(u))
            && Enabled(s3, GetLock(t)) && Enabled(s4, Commit(t)) && Enabled(s5, Release(t))
            && Next(s5, Release(t)) == AfterLostWrite(s, t, u, id) && TaskOf(Next(s5, Release(t)), t).pc == Body
            && !Within(s5.durable, id) && !Within(s5.pending, id)
  {
    assert HoldsLock(TaskOf(s, u)) && HoldsLock(TaskOf(s, t)) ==> t == u;
    assert s.durable + [] == s.durable;
  }

  // ------------------------------------------------------------------
  // A delivery and its mark: two stand-alone writes of the dispatcher
  // ------------------------------------------------------------------

  /** The dispatcher executes the insert of a message, the insert returns, and it executes the
      mark of the row: from then on, whatever becomes of the mark, the message is delivered for
      good if and only if the first boundary after the insert was not another task's rollback. */
  lemma MarkedIsDeliveredIff(s: State, d: nat, insert: nat, between: seq<Step>, mark: nat, after: seq<Step>)
    requires Inv(s) && Enabled(s, Mutate(d, insert)) && !TaskOf(s, d).inTx && insert != mark
    requires !Within(s.pending, insert) && !Within(s.durable, insert)
    requires NeverAgain(between, insert) && NeverAgain(after, insert)
    requires var s1 := Next(s, Mutate(d, insert));
             var s2 := Run(s1, between);
             && Legal(s1, between) && Abandon(d) !in between && Crash !in between
             && !StillCommitting(s2, d, insert) && Enabled(s2, Mutate(d, mark))
             && Legal(Next(s2, Mutate(d, mark)), after)
    ensures var s1 := Next(s, Mutate(d, insert));
            var end := Run(Next(Run(s1, between), Mutate(d, mark)), after);
            && !Within(end.pending, insert)
            && (Within(end.durable, insert) <==>
                  !exists u: nat :: u != d && FirstBoundary(s1, between) == RollbackBoundary(u))
  {
    hide Inv, Enabled, Within, NeverAgain;
    var s1 := Next(s, Mutate(d, insert));
    var s2 := Run(s1, between);
    StandAloneDurability(s, d, insert, between);
    ExecutedIsPending(s, d, insert);
    FateIsFirstBoundary(s1, between, insert);
    ReturnedMeansBoundary(s, d, insert, between);
    PlacesStep(s2, Mutate(d, mark), insert);
    SettledStays(Next(s2, Mutate(d, mark)), after, insert);
  }

  /** Whenever a block of another task is about to roll back, a delivery can be lost and its row
      be marked durably all the same. */
  lemma MarkedButLost(s: State, d: nat, u: nat, insert: nat, mark: nat)
    requires Inv(s) && TaskOf(s, u).inTx && TaskOf(s, u).depth == 0
    requires d != u && TaskOf(s, d).pc == Body && !Within(s.durable, insert) && insert != mark
    ensures var lost := AfterLostWrite(s, d, u, insert);
            var s1 := Next(lost, Mutate(d, mark));
            var s2 := Next(s1, GetLock(d));
            var end := Next(s2, Commit(d));
            && Enabled(lost, Mutate(d, mark)) && Enabled(s1, GetLock(d)) && Enabled(s2, Commit(d))
            && Within(end.durable, mark) && !Within(end.durable, insert) && !Within(end.pending, insert)
  {
    OtherRollbackLosesWrite(s, d, u, insert);
    var lost := AfterLostWrite(s, d, u, insert);
    assert TaskOf(lost, d) == TaskOf(s, d).(pc := Body) && !TaskOf(s, d).inTx && lost.lock == None;
    var s1 := Next(lost, Mutate(d, mark));
    ExecutedIsPending(lost, d, mark);
    PlacesStep(lost, Mutate(d, mark), insert);
    var s2 := Next(s1, GetLock(d));
    WithinConcat(s2.durable, s2.pending, mark);
    WithinConcat(s2.durable, s2.pending, insert);
  }

  lemma ExecutedIsPending(s: State, t: nat, id: nat)
    ensures Within(Next(s, Mutate(t, id)).pending, id) && Next(s, Mutate(t, id)).durable == s.durable
  {
    assert Next(s, Mutate(t, id)).pending[|s.pending|].id == id;
  }

  lemma ReturnedMeansBoundary(s: State, t: nat, id: nat, steps: seq<Step>)
    requires Inv(s) && Enabled(s, Mutate(t, id)) && !TaskOf(s, t).inTx
    requires Legal(Next(s, Mutate(t, id)), steps) && Abandon(t) !in steps && Crash !in steps
    requires !StillCommitting(Run(Next(s, Mutate(t, id)), steps), t, id)
    ensures FirstBoundary(Next(s, Mutate(t, id)), steps) != NoBoundary
  {
    StepKeepsInv(s, Mutate(t, id));
    ReturnsAfterBoundary(Next(s, Mutate(t, id)), steps, t, id);
  }

  // ------------------------------------------------------------------
  // No deadlock
  // ------------------------------------------------------------------

  /** No lock holder ever waits for the lock; it always has a step to take, and when the
      lock is free every waiting task can take it. */
  lemma LockIsLive(s: State, t: nat)
    requires Inv(s)
    ensures s.lock == Some(t) ==>
              && !Waiting(TaskOf(s, t))
              && (Enabled(s, Leave(t, true)) || Enabled(s, Commit(t)) || Enabled(s, Release(t)))
    ensures s.lock == None && Waiting(TaskOf(s, t)) ==> Enabled(s, GetLock(t))
  {
    assert HoldsLock(TaskOf(s, t)) <==> s.lock == Some(t);
  }

  // ------------------------------------------------------------------
  // The connection as the code updates it
  // ------------------------------------------------------------------

  /** The shared connection with its lock. Each method is one uninterrupted stretch of the
      code, between two awaits. */
  class SharedConnection {
    var durable: seq<Write>
    var pending: seq<Write>
    var lock: Option<nat>
    var tasks: map<nat, Task>
    var executed: seq<seq<nat>>
    var outcome: seq<Outcome>

    ghost function View(): State
      reads this
    {
      State(durable, pending, lock, tasks, executed, outcome)
    }

    constructor ()
      ensures View() == INITIAL
    {
      durable, pending, lock, tasks := [], [], None, map[];
      executed, outcome := [], [];
    }

    function Standing(t: nat): Task
      reads this
    {
      if t in tasks then tasks[t] else IDLE
    }

    /** A mutator: its statements, then `_commit` up to the lock. */
    method ExecuteMutator(t: nat, id: nat)
      requires Enabled(View(), Mutate(t, id))
      modifies this
      ensures View() == Next(old(View()), Mutate(t, id))
    {
      var k := Standing(t);
      pending := pending + [Write(id, if k.inTx then Some(k.block) else None)];
      if k.inTx {
        executed := Record(executed, k.block, id);
      } else {
        tasks := tasks[t := k.(pc := AtCommit(id))];
      }
    }

    method EnterTransaction(t: nat)
      requires Enabled(View(), Enter(t))
      modifies this`tasks
      ensures View() == Next(old(View()), Enter(t))
    {
      var k := Standing(t);
      if k.inTx {
        tasks := tasks[t := k.(depth := k.depth + 1)];
      } else {
        tasks := tasks[t := k.(pc := AtTransaction)];
      }
    }

    method AcquireLock(t: nat)
      requires Enabled(View(), GetLock(t))
      modifies this
      ensures View() == Next(old(View()), GetLock(t))
    {
      var k := Standing(t);
      lock := Some(t);
      if k.pc.AtCommit? {
        tasks := tasks[t := k.(pc := Committing(k.pc.write))];
      } else {
        tasks := tasks[t := Task(true, |executed|, 0, Body)];
        executed, outcome := executed + [[]], outcome + [Open];
      }
    }

    method CommitStandAlone(t: nat)
      requires Enabled(View(), Commit(t))
      modifies this
      ensures View() == Next(old(View()), Commit(t))
      ensures durable == old(durable) + old(pending) && pending == []
    {
      durable, pending := durable + pending, [];
      tasks := tasks[t := Standing(t).(pc := Unlocking)];
    }

    /** The end of a `transaction()` block, normal or by an exception. */
    method LeaveTransaction(t: nat, ok: bool)
      requires Enabled(View(), Leave(t, ok))
      modifies this
      ensures View() == Next(old(View()), Leave(t, ok))
      ensures durable == old(durable) + if ok && old(Standing(t).depth) == 0 then old(pending) else []
    {
      var k := Standing(t);
      if k.depth > 0 {
        tasks := tasks[t := k.(depth := k.depth - 1)];
        return;
      }
      if ok {
        durable := durable + pending;
      }
      pending := [];
      tasks := tasks[t := IDLE.(pc := Unlocking)];
      if k.block < |outcome| {
        outcome := outcome[k.block := if ok then Committed else RolledBack];
      }
    }

    method ReleaseLock(t: nat)
      requires Enabled(View(), Release(t))
      modifies this
      ensures View() == Next(old(View()), Release(t))
    {
      lock := None;
      tasks := tasks[t := Standing(t).(pc := Body)];
    }
  }
}
