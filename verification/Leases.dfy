/**
 The task table (`SqliteTaskRepository` in src/lyre/persistence/sqlite_impl.py): every
 operation is one guarded `UPDATE tasks SET ... WHERE ...`, an atomic step on one row.
 Times are whole milliseconds, the resolution of the columns.
 */
module Leases {
  import opened Wrappers

  datatype Row = Row(
    holder: Option<string>, until: Option<int>, status: string, checkpoint: string,
    resumeReady: bool, cancelReason: Option<string>, recoveries: nat,
    updatedAt: int, checkpointAt: Option<int>, completedAt: Option<int>)

  type Table = map<string, Row>

  datatype Op =
    | Create
    | Claim(worker: string, seconds: nat)
    | Renew(worker: string, seconds: nat)
    | Release(worker: string)
    | WriteCheckpoint(worker: string, checkpoint: string)
    | SetStatus(status: string, fence: Option<string>)
    | Park
    | RequestResume
    | Resume
    | RequestCancel(reason: string)
    | CountRecovery

  /** One statement: what it does, to which task, when. */
  datatype Event = Event(task: string, op: Op, now: int)

  function NewTask(now: int): Row {
    Row(None, None, "pending", "", false, None, 0, now, None, None)
  }

  predicate Terminal(status: string) {
    status == "completed" || status == "failed" || status == "cancelled"
  }

  /** The WHERE clause, apart from the task's id. */
  predicate Where(r: Row, op: Op, now: int) {
    match op
    case Create => false
    case Claim(_, _) => r.until.None? || r.until.value < now
    case Renew(w, _) => r.holder == Some(w)
    case Release(w) => r.holder == Some(w)
    case WriteCheckpoint(w, _) => r.holder == Some(w)
    case SetStatus(_, fence) => fence.None? || r.holder == fence
    case Park => r.status == "pending" || r.status == "in_progress"
    case RequestResume => r.status == "needs_input"
    case Resume => r.status == "needs_input" && r.resumeReady
    case RequestCancel(_) => !Terminal(r.status)
    case CountRecovery => true
  }

  /** The SET clause. */
  function Set(r: Row, op: Op, now: int): Row {
    var r := r.(updatedAt := now);
    match op
    case Create => r
    case Claim(w, d) => r.(holder := Some(w), until := Some(now + 1000 * d), status := "in_progress")
    case Renew(_, d) => r.(until := Some(now + 1000 * d))
    case Release(_) => r.(holder := None, until := None)
    case WriteCheckpoint(_, c) => r.(checkpoint := c, checkpointAt := Some(now))
    case SetStatus(s, _) => r.(status := s, completedAt := if s == "completed" then Some(now) else r.completedAt)
    case Park => r.(status := "needs_input", resumeReady := false)
    case RequestResume => r.(resumeReady := true)
    case Resume => r.(status := "pending", resumeReady := false)
    case RequestCancel(reason) => r.(cancelReason := Some(reason))
    case CountRecovery => r.(recoveries := r.recoveries + 1)
  }

  /** Whether the statement changes a row, which is what the operation reports. */
  predicate Hits(t: Table, e: Event) {
    if e.op.Create? then e.task !in t else e.task in t && Where(t[e.task], e.op, e.now)
  }

  function Next(t: Table, e: Event): Table {
    if !Hits(t, e) then t
    else if e.op.Create? then t[e.task := NewTask(e.now)]
    else t[e.task := Set(t[e.task], e.op, e.now)]
  }

  function Run(t: Table, events: seq<Event>): Table
    decreases |events|
  {
    if events == [] then t else Run(Next(t, events[0]), events[1..])
  }

  /** Clocks never run backwards. */
  predicate Timed(events: seq<Event>, from: int)
    decreases |events|
  {
    events != [] ==> from <= events[0].now && Timed(events[1..], events[0].now)
  }

  function Clock(events: seq<Event>, from: int): int
    decreases |events|
  {
    if events == [] then from else Clock(events[1..], events[0].now)
  }

  // ------------------------------------------------------------------
  // Exclusivity
  // ------------------------------------------------------------------

  predicate IsClaimBy(e: Event, task: string, w: string) {
    e.task == task && e.op.Claim? && e.op.worker == w
  }

  /** Worker w gives the task up somewhere in the run. */
  predicate Released(t: Table, events: seq<Event>, task: string, w: string)
    decreases |events|
  {
    events != [] &&
    ((events[0] == Event(task, Release(w), events[0].now) && Hits(t, events[0]))
     || Released(Next(t, events[0]), events[1..], task, w))
  }

  /** When w's lease runs out, counting every renewal of w's that took effect. */
  function Deadline(t: Table, events: seq<Event>, task: string, w: string, until: int): int
    decreases |events|
  {
    if events == [] then until
    else
      var e := events[0];
      Deadline(Next(t, e), events[1..], task, w,
               if e.task == task && e.op.Renew? && e.op.worker == w && Hits(t, e)
               then e.now + 1000 * e.op.seconds else until)
  }

  /** w holds the lease until `until`, or its lease is over for good: released, or run out. */
  ghost predicate HeldOrOver(t: Table, task: string, w: string, until: int, released: bool, clock: int) {
    && task in t
    && ((t[task].holder == Some(w) && t[task].until == Some(until) && !released)
        || (t[task].holder != Some(w) && (released || until < clock)))
  }

  lemma {:induction false} LeaseLasts(t: Table, events: seq<Event>, task: string, w: string, until: int, released: bool, clock: int)
    requires HeldOrOver(t, task, w, until, released, clock) && Timed(events, clock)
    requires forall e <- events :: !IsClaimBy(e, task, w)
    ensures HeldOrOver(Run(t, events), task, w, Deadline(t, events, task, w, until),
                       released || Released(t, events, task, w), Clock(events, clock))
    decreases |events|
  {
    if events != [] {
      var e := events[0];
      assert e in events;
      var hit := Hits(t, e);
      var until' := if e.task == task && e.op.Renew? && e.op.worker == w && hit then e.now + 1000 * e.op.seconds else until;
      var released' := released || (e == Event(task, Release(w), e.now) && hit);
      assert HeldOrOver(Next(t, e), task, w, until', released', e.now);
      LeaseLasts(Next(t, e), events[1..], task, w, until', released', e.now);
    }
  }

  /** Two successful claims of one task: in between the first holder released it, or the
      first holder's last renewed deadline passed before the second claim. */
  lemma ClaimsAreSeparated(t: Table, first: Event, between: seq<Event>, second: Event)
    requires first.op.Claim? && second.op.Claim? && first.task == second.task
    requires Hits(t, first) && Hits(Run(Next(t, first), between), second)
    requires Timed(between, first.now) && Clock(between, first.now) <= second.now
    requires forall e <- between :: !IsClaimBy(e, first.task, first.op.worker)
    ensures
      || Released(Next(t, first), between, first.task, first.op.worker)
      || Deadline(Next(t, first), between, first.task, first.op.worker, first.now + 1000 * first.op.seconds) < second.now
  {
    LeaseLasts(Next(t, first), between, first.task, first.op.worker, first.now + 1000 * first.op.seconds, false, first.now);
  }

  /** Lease columns are set and cleared together. */
  predicate LeaseShape(r: Row) {
    r.holder.None? <==> r.until.None?
  }

  predicate NoClaimSucceeds(t: Table, events: seq<Event>, task: string)
    decreases |events|
  {
    events != [] ==>
      !(events[0].task == task && events[0].op.Claim? && Hits(t, events[0]))
      && NoClaimSucceeds(Next(t, events[0]), events[1..], task)
  }

  /** The holder at the start of the run has given the task up or let its deadline pass. */
  predicate LeaseGone(t: Table, before: seq<Event>, task: string, now: int)
    requires task in t
  {
    || t[task].until.None? || t[task].holder.None?
    || Released(t, before, task, t[task].holder.value)
    || Deadline(t, before, task, t[task].holder.value, t[task].until.value) < now
  }

  lemma {:induction false} UnclaimedStaysFree(t: Table, events: seq<Event>, task: string)
    requires task in t && t[task].until == None && t[task].holder == None
    requires NoClaimSucceeds(t, events, task)
    ensures task in Run(t, events) && Run(t, events)[task].until == None && Run(t, events)[task].holder == None
    decreases |events|
  {
    if events != [] {
      UnclaimedStaysFree(Next(t, events[0]), events[1..], task);
    }
  }

  lemma {:induction false} HeldOrFree(t: Table, events: seq<Event>, task: string, w: string, until: int)
    requires task in t && t[task].holder == Some(w) && t[task].until == Some(until)
    requires NoClaimSucceeds(t, events, task)
    ensures task in Run(t, events)
    ensures if Released(t, events, task, w) then Run(t, events)[task].until == None
            else Run(t, events)[task].until == Some(Deadline(t, events, task, w, until))
    decreases |events|
  {
    if events != [] {
      var e := events[0];
      if e == Event(task, Release(w), e.now) {
        UnclaimedStaysFree(Next(t, e), events[1..], task);
      } else {
        var until' := if e.task == task && e.op.Renew? && e.op.worker == w then e.now + 1000 * e.op.seconds else until;
        HeldOrFree(Next(t, e), events[1..], task, w, until');
      }
    }
  }

  /** The first claim to succeed does so exactly when the lease held before it is gone. */
  lemma ClaimSucceedsIffGone(t: Table, before: seq<Event>, claim: Event)
    requires claim.task in t && LeaseShape(t[claim.task]) && claim.op.Claim?
    requires NoClaimSucceeds(t, before, claim.task)
    ensures Hits(Run(t, before), claim) <==> LeaseGone(t, before, claim.task, claim.now)
  {
    var r := t[claim.task];
    if r.until.None? {
      UnclaimedStaysFree(t, before, claim.task);
    } else {
      HeldOrFree(t, before, claim.task, r.holder.value, r.until.value);
    }
  }

  /** While nobody else has claimed since, the converse of the separation holds too: the next
      claim succeeds exactly when the holder released the task or let its deadline pass. */
  lemma NextClaimSucceedsIff(t: Table, first: Event, between: seq<Event>, second: Event)
    requires first.op.Claim? && second.op.Claim? && first.task == second.task && Hits(t, first)
    requires NoClaimSucceeds(Next(t, first), between, first.task)
    ensures Hits(Run(Next(t, first), between), second) <==>
      || Released(Next(t, first), between, first.task, first.op.worker)
      || Deadline(Next(t, first), between, first.task, first.op.worker, first.now + 1000 * first.op.seconds) < second.now
  {
    ClaimSucceedsIffGone(Next(t, first), between, second);
  }

  // ------------------------------------------------------------------
  // Fencing
  // ------------------------------------------------------------------

  /** A renewal, release, checkpoint or fenced status write of w's on the task. */
  predicate FencedWrite(e: Event, task: string, w: string) {
    && e.task == task
    && match e.op
       case Renew(x, _) => x == w
       case Release(x) => x == w
       case WriteCheckpoint(x, _) => x == w
       case SetStatus(_, fence) => fence == Some(w)
       case _ => false
  }

  function WithoutWrites(events: seq<Event>, task: string, w: string): seq<Event>
    decreases |events|
  {
    if events == [] then []
    else (if FencedWrite(events[0], task, w) then [] else [events[0]]) + WithoutWrites(events[1..], task, w)
  }

  /** None of w's fenced writes on the task changes a row. */
  predicate AllMiss(t: Table, events: seq<Event>, task: string, w: string)
    decreases |events|
  {
    events != [] ==>
      (FencedWrite(events[0], task, w) ==> !Hits(t, events[0])) && AllMiss(Next(t, events[0]), events[1..], task, w)
  }

  lemma {:induction false} NonHolderIsFenced(t: Table, events: seq<Event>, task: string, w: string)
    requires task in t && t[task].holder != Some(w)
    requires forall e <- events :: !IsClaimBy(e, task, w)
    ensures AllMiss(t, events, task, w)
    ensures Run(t, events) == Run(t, WithoutWrites(events, task, w))
    decreases |events|
  {
    if events != [] {
      var e := events[0];
      assert e in events;
      var kept := WithoutWrites(events[1..], task, w);
      assert WithoutWrites(events, task, w) == if FencedWrite(e, task, w) then kept else [e] + kept;
      assert ([e] + kept)[1..] == kept;
      NonHolderIsFenced(Next(t, events[0]), events[1..], task, w);
    }
  }

  /** After another worker's successful claim, everything the superseded worker still tries
      misses, and the whole table ends as if it had tried nothing. */
  lemma SupersededIsFenced(t: Table, claim: Event, events: seq<Event>, stale: string)
    requires claim.op.Claim? && Hits(t, claim) && stale != claim.op.worker
    requires forall e <- events :: !IsClaimBy(e, claim.task, stale)
    ensures AllMiss(Next(t, claim), events, claim.task, stale)
    ensures Run(Next(t, claim), events) == Run(Next(t, claim), WithoutWrites(events, claim.task, stale))
  {
    NonHolderIsFenced(Next(t, claim), events, claim.task, stale);
  }

  /** The last checkpoint that w wrote on the task, or c. */
  function LastCheckpoint(events: seq<Event>, task: string, w: string, c: string): string
    decreases |events|
  {
    if events == [] then c
    else
      var e := events[0];
      LastCheckpoint(events[1..], task, w,
                     if e.task == task && e.op.WriteCheckpoint? && e.op.worker == w then e.op.checkpoint else c)
  }

  /** While w keeps its lease (it does not release it, and no claim succeeds), the checkpoint
      is the last one w wrote: no write of w's is lost, and nobody else's gets in. */
  lemma {:induction false} HolderOwnsCheckpoint(t: Table, events: seq<Event>, task: string, w: string)
    requires task in t && t[task].holder == Some(w)
    requires !Released(t, events, task, w)
    requires NoClaimSucceeds(t, events, task)
    ensures task in Run(t, events) && Run(t, events)[task].holder == Some(w)
    ensures Run(t, events)[task].checkpoint == LastCheckpoint(events, task, w, t[task].checkpoint)
    decreases |events|
  {
    if events != [] {
      HolderOwnsCheckpoint(Next(t, events[0]), events[1..], task, w);
    }
  }

  // ------------------------------------------------------------------
  // Terminal statuses
  // ------------------------------------------------------------------

  /** The task has this status throughout the run. */
  predicate StaysAt(t: Table, events: seq<Event>, task: string, status: string)
    decreases |events|
  {
    && task in t && t[task].status == status
    && (events != [] ==> StaysAt(Next(t, events[0]), events[1..], task, status))
  }

  /** A status write moves the task to another status. */
  predicate Overwritten(t: Table, events: seq<Event>, task: string, status: string)
    decreases |events|
  {
    events != [] &&
    ((events[0].task == task && events[0].op.SetStatus? && events[0].op.status != status && Hits(t, events[0]))
     || Overwritten(Next(t, events[0]), events[1..], task, status))
  }

  /** A terminal status is kept exactly while no claim of the task succeeds and no status
      write moves it; parking and resuming never touch a terminal task. */
  lemma {:induction false} TerminalStaysUnless(t: Table, events: seq<Event>, task: string, status: string)
    requires task in t && t[task].status == status && Terminal(status)
    ensures StaysAt(t, events, task, status) <==>
              NoClaimSucceeds(t, events, task) && !Overwritten(t, events, task, status)
    decreases |events|
  {
    if events != [] {
      var t' := Next(t, events[0]);
      if task in t' && t'[task].status == status {
        TerminalStaysUnless(t', events[1..], task, status);
      } else {
        LeavingTerminal(t, events[0], task, status);
      }
    }
  }

  /** What takes a task out of a terminal status. */
  lemma LeavingTerminal(t: Table, e: Event, task: string, status: string)
    requires task in t && t[task].status == status && Terminal(status)
    ensures task in Next(t, e)
    ensures Next(t, e)[task].status != status <==>
              e.task == task && Hits(t, e) && (e.op.Claim? || (e.op.SetStatus? && e.op.status != status))
  {
  }

  /** Every claim of the task in the run meets a lease that is still held. */
  ghost predicate ClaimsMeetLease(t: Table, events: seq<Event>, task: string)
    requires task in t
  {
    forall i: nat :: i < |events| && events[i].task == task && events[i].op.Claim? ==>
      !LeaseGone(t, events[..i], task, events[i].now)
  }

  lemma {:induction false} NoClaimSplit(t: Table, a: seq<Event>, b: seq<Event>, task: string)
    ensures NoClaimSucceeds(t, a + b, task) <==> NoClaimSucceeds(t, a, task) && NoClaimSucceeds(Run(t, a), b, task)
    decreases |a|
  {
    if a == [] {
      assert a + b == b;
    } else {
      assert (a + b)[1..] == a[1..] + b;
      NoClaimSplit(Next(t, a[0]), a[1..], b, task);
    }
  }

  lemma NoClaimOne(t: Table, e: Event, task: string)
    ensures NoClaimSucceeds(t, [e], task) <==> !(e.task == task && e.op.Claim? && Hits(t, e))
  {
    assert [e][1..] == [];
  }

  /** Up to event n: none succeeded exactly when all met a held lease. */
  lemma {:induction false} NoClaimUpTo(t: Table, events: seq<Event>, task: string, n: nat)
    requires task in t && LeaseShape(t[task]) && n <= |events|
    ensures NoClaimSucceeds(t, events[..n], task) <==>
              forall i: nat :: i < n && events[i].task == task && events[i].op.Claim? ==>
                !LeaseGone(t, events[..i], task, events[i].now)
    decreases n
  {
    if n == 0 {
      assert events[..0] == [];
    } else {
      var before, e := events[..n - 1], events[n - 1];
      NoClaimUpTo(t, events, task, n - 1);
      assert events[..n] == before + [e];
      NoClaimSplit(t, before, [e], task);
      NoClaimOne(Run(t, before), e, task);
      if NoClaimSucceeds(t, before, task) && e.task == task && e.op.Claim? {
        ClaimSucceedsIffGone(t, before, e);
      }
    }
  }

  /** The same in terms that are known beforehand: a terminal status is absorbing in a run
      exactly when every claim of the task comes while the lease is still held, neither
      released nor past its last renewed deadline, and no status write moves the task. */
  lemma TerminalStaysIff(t: Table, events: seq<Event>, task: string, status: string)
    requires task in t && LeaseShape(t[task]) && t[task].status == status && Terminal(status)
    ensures StaysAt(t, events, task, status) <==>
              ClaimsMeetLease(t, events, task) && !Overwritten(t, events, task, status)
  {
    assert events[..|events|] == events;
    NoClaimUpTo(t, events, task, |events|);
    TerminalStaysUnless(t, events, task, status);
  }

  /** Every table that a run reaches from the empty one sets the lease columns together. */
  lemma {:induction false} RunKeepsLeaseShape(t: Table, events: seq<Event>)
    requires forall id <- t :: LeaseShape(t[id])
    ensures forall id <- Run(t, events) :: LeaseShape(Run(t, events)[id])
    decreases |events|
  {
    if events != [] {
      RunKeepsLeaseShape(Next(t, events[0]), events[1..]);
    }
  }

  /** A terminal status is really lost: from every table, for every new task, workers, durations
      and times. One worker claims the task, finishes it behind its fence and releases it;
      another claims it, and it is in progress again. */
  lemma TerminalIsLost(t: Table, task: string, w: string, v: string, seconds: nat, status: string, now: int)
    requires task !in t && Terminal(status)
    ensures var finished := [Event(task, Create, now), Event(task, Claim(w, seconds), now),
                             Event(task, SetStatus(status, Some(w)), now), Event(task, Release(w), now)];
            var claim := Event(task, Claim(v, seconds), now);
            && task in Run(t, finished) && Run(t, finished)[task].status == status
            && Hits(Run(t, finished), claim)
            && Next(Run(t, finished), claim)[task].status == "in_progress" != status
  {
    hide Run;
    var t1 := Next(t, Event(task, Create, now));
    var t2 := Next(t1, Event(task, Claim(w, seconds), now));
    var t3 := Next(t2, Event(task, SetStatus(status, Some(w)), now));
    RunFour(t, Event(task, Create, now), Event(task, Claim(w, seconds), now),
            Event(task, SetStatus(status, Some(w)), now), Event(task, Release(w), now));
  }

  lemma RunFour(t: Table, a: Event, b: Event, c: Event, d: Event)
    ensures Run(t, [a, b, c, d]) == Next(Next(Next(Next(t, a), b), c), d)
  {
    hide Next;
    var t1, t2, t3 := Next(t, a), Next(Next(t, a), b), Next(Next(Next(t, a), b), c);
    assert [a, b, c, d][1..] == [b, c, d] && [b, c, d][1..] == [c, d] && [c, d][1..] == [d] && [d][1..] == [];
    assert Run(t, [a, b, c, d]) == Run(t1, [b, c, d]) && Run(t1, [b, c, d]) == Run(t2, [c, d]);
    assert Run(t2, [c, d]) == Run(t3, [d]) && Run(t3, [d]) == Run(Next(t3, d), []);
  }

  /** Two tables with the same tasks under the same leases. */
  ghost predicate SameLeases(t: Table, u: Table) {
    t.Keys == u.Keys && forall id <- t :: t[id].holder == u[id].holder && t[id].until == u[id].until
  }

  lemma {:induction false} RunsKeepSameLeases(t: Table, u: Table, events: seq<Event>)
    requires SameLeases(t, u)
    ensures SameLeases(Run(t, events), Run(u, events))
    decreases |events|
  {
    if events != [] {
      StepKeepsSameLeases(t, u, events[0]);
      RunsKeepSameLeases(Next(t, events[0]), Next(u, events[0]), events[1..]);
    }
  }

  lemma StepKeepsSameLeases(t: Table, u: Table, e: Event)
    requires SameLeases(t, u)
    ensures SameLeases(Next(t, e), Next(u, e))
  {
    if e.task in t {
      RowKeepsSameLease(t[e.task], u[e.task], e.op, e.now);
    }
    hide Set, Where;
  }

  function RowAfter(r: Row, op: Op, now: int): Row {
    if Where(r, op, now) then Set(r, op, now) else r
  }

  /** No statement's effect on the lease depends on more than the lease. */
  lemma RowKeepsSameLease(r: Row, q: Row, op: Op, now: int)
    requires r.holder == q.holder && r.until == q.until
    ensures RowAfter(r, op, now).holder == RowAfter(q, op, now).holder
    ensures RowAfter(r, op, now).until == RowAfter(q, op, now).until
  {
  }

  /** Claims never look at the status: give a task any other status, a terminal one included,
      and after any run a claim of it succeeds exactly as it would have. */
  lemma ClaimIgnoresStatus(t: Table, events: seq<Event>, claim: Event, status: string)
    requires claim.op.Claim? && claim.task in t
    ensures var u := t[claim.task := t[claim.task].(status := status)];
            Hits(Run(u, events), claim) <==> Hits(Run(t, events), claim)
  {
    var u := t[claim.task := t[claim.task].(status := status)];
    RunsKeepSameLeases(t, u, events);
  }

  // ------------------------------------------------------------------
  // The life of a task, apart from its lease
  // ------------------------------------------------------------------

  /** What the columns beside the lease tell. */
  datatype Life = Life(status: string, ready: bool, finishedAt: Option<int>, cancelReason: Option<string>, recoveries: nat)

  function LifeOf(r: Row): Life {
    Life(r.status, r.resumeReady, r.completedAt, r.cancelReason, r.recoveries)
  }

  /** How one statement on the task moves its life; `holds` says whether the lease lets it. A claim
      starts work; a live task can be parked; a parked one waits until a resume was requested and
      then goes back to pending; only a task not yet over can be cancelled. */
  function Lives(l: Life, op: Op, now: int, holds: bool): Life {
    match op
    case Claim(_, _) => if holds then l.(status := "in_progress") else l
    case SetStatus(status, _) =>
      if !holds then l
      else if status == "completed" then l.(status := status, finishedAt := Some(now)) else l.(status := status)
    case Park => if l.status in {"pending", "in_progress"} then l.(status := "needs_input", ready := false) else l
    case RequestResume => if l.status == "needs_input" then l.(ready := true) else l
    case Resume => if l.status == "needs_input" && l.ready then l.(status := "pending", ready := false) else l
    case RequestCancel(reason) =>
      if l.status in {"completed", "failed", "cancelled"} then l else l.(cancelReason := Some(reason))
    case CountRecovery => l.(recoveries := l.recoveries + 1)
    case _ => l
  }

  /** A claim meets no lease or one that is over; a fenced status write meets its holder's. */
  predicate LeaseLets(r: Row, op: Op, now: int) {
    match op
    case Claim(_, _) => r.until == None || r.until.value < now
    case SetStatus(_, fence) => fence == None || fence == r.holder
    case _ => true
  }

  /** The life of a task through a run. */
  function LifeAfter(t: Table, events: seq<Event>, task: string, l: Life): Life
    requires task in t
    decreases |events|
  {
    if events == [] then l
    else
      var e := events[0];
      KeepsTask(t, e, task);
      LifeAfter(Next(t, e), events[1..], task,
                if e.task == task then Lives(l, e.op, e.now, LeaseLets(t[task], e.op, e.now)) else l)
  }

  lemma KeepsTask(t: Table, e: Event, task: string)
    requires task in t
    ensures task in Next(t, e)
  {
  }

  lemma OneStatement(t: Table, e: Event, task: string)
    requires task in t
    ensures task in Next(t, e)
    ensures LifeOf(Next(t, e)[task])
         == if e.task == task then Lives(LifeOf(t[task]), e.op, e.now, LeaseLets(t[task], e.op, e.now)) else LifeOf(t[task])
  {
    OneRow(t[task], e.op, e.now);
    hide Where, Set, LifeOf, Lives, LeaseLets;
  }

  lemma OneRow(r: Row, op: Op, now: int)
    ensures LifeOf(RowAfter(r, op, now)) == Lives(LifeOf(r), op, now, LeaseLets(r, op, now))
  {
  }

  /** Over every run a task lives that life: a new one is pending, and its status, its readiness
      to resume, its completion, its cancel reason and its recoveries follow from the statements. */
  lemma {:induction false} TaskLives(t: Table, events: seq<Event>, task: string)
    requires task in t
    ensures task in Run(t, events) && LifeOf(Run(t, events)[task]) == LifeAfter(t, events, task, LifeOf(t[task]))
    decreases |events|
  {
    hide LifeOf, Lives, LeaseLets, Next;
    if events != [] {
      OneStatement(t, events[0], task);
      TaskLives(Next(t, events[0]), events[1..], task);
    }
  }

  /** The time of the last statement that changed the task's row. */
  function LastTouch(t: Table, events: seq<Event>, task: string, at: int): int
    decreases |events|
  {
    if events == [] then at
    else
      LastTouch(Next(t, events[0]), events[1..], task,
                if events[0].task == task && Next(t, events[0]) != t then events[0].now else at)
  }

  /** A row is stamped by every statement that changes it, and by no other. */
  lemma {:induction false} TaskIsStamped(t: Table, events: seq<Event>, task: string)
    requires task in t
    ensures task in Run(t, events) && Run(t, events)[task].updatedAt == LastTouch(t, events, task, t[task].updatedAt)
    decreases |events|
  {
    if events != [] {
      var t' := Next(t, events[0]);
      assert task in t' && t'[task].updatedAt == if events[0].task == task && t' != t then events[0].now else t[task].updatedAt;
      hide Next;
      TaskIsStamped(t', events[1..], task);
    }
  }

  lemma NewTaskLives(t: Table, task: string, now: int)
    requires task !in t
    ensures var t' := Next(t, Event(task, Create, now));
            && t' == t[task := t'[task]] && LifeOf(t'[task]) == Life("pending", false, None, None, 0)
            && t'[task].holder == None && t'[task].until == None && t'[task].checkpoint == ""
  {
  }

  // ------------------------------------------------------------------
  // Resuming
  // ------------------------------------------------------------------

  predicate Asked(t: Table, events: seq<Event>, task: string)
    decreases |events|
  {
    events != [] &&
    ((events[0].task == task && events[0].op.RequestResume? && Hits(t, events[0]))
     || Asked(Next(t, events[0]), events[1..], task))
  }

  lemma {:induction false} NotReadyUnlessAsked(t: Table, events: seq<Event>, task: string)
    requires task in t && !t[task].resumeReady && !Asked(t, events, task)
    ensures task in Run(t, events) && !Run(t, events)[task].resumeReady
    decreases |events|
  {
    if events != [] {
      NotReadyUnlessAsked(Next(t, events[0]), events[1..], task);
    }
  }

  /** Two processes cannot both resume a task: between two successful resumes somebody asked
      for a resume anew. */
  lemma ResumedOncePerRequest(t: Table, first: Event, between: seq<Event>, second: Event)
    requires first.op.Resume? && second.op.Resume? && first.task == second.task
    requires Hits(t, first) && Hits(Run(Next(t, first), between), second)
    ensures Asked(Next(t, first), between, first.task)
  {
    if !Asked(Next(t, first), between, first.task) {
      NotReadyUnlessAsked(Next(t, first), between, first.task);
    }
  }

  // ------------------------------------------------------------------
  // The repository object
  // ------------------------------------------------------------------

  class TaskRepository {
    var tasks: Table

    constructor ()
      ensures tasks == map[]
    {
      tasks := map[];
    }

    method CreateTask(id: string, now: int)
      requires id !in tasks   // the id is a new UUID
      modifies this
      ensures tasks == Next(old(tasks), Event(id, Create, now))
    {
      tasks := tasks[id := NewTask(now)];
    }

    method ClaimLease(id: string, worker: string, seconds: nat, now: int) returns (ok: bool)
      modifies this
      ensures tasks == Next(old(tasks), Event(id, Claim(worker, seconds), now))
      ensures ok == Hits(old(tasks), Event(id, Claim(worker, seconds), now))
    {
      ok := id in tasks && (tasks[id].until == None || tasks[id].until.value < now);
      if ok {
        tasks := tasks[id := tasks[id].(
          holder := Some(worker), until := Some(now + 1000 * seconds), status := "in_progress", updatedAt := now)];
      }
    }

    method RenewLease(id: string, worker: string, seconds: nat, now: int) returns (ok: bool)
      modifies this
      ensures tasks == Next(old(tasks), Event(id, Renew(worker, seconds), now))
      ensures ok == Hits(old(tasks), Event(id, Renew(worker, seconds), now))
    {
      ok := id in tasks && tasks[id].holder == Some(worker);
      if ok {
        tasks := tasks[id := tasks[id].(until := Some(now + 1000 * seconds), updatedAt := now)];
      }
    }

    method ReleaseLease(id: string, worker: string, now: int)
      modifies this
      ensures tasks == Next(old(tasks), Event(id, Release(worker), now))
    {
      if id in tasks && tasks[id].holder == Some(worker) {
        tasks := tasks[id := tasks[id].(holder := None, until := None, updatedAt := now)];
      }
    }

    method UpdateCheckpoint(id: string, checkpoint: string, worker: string, now: int)
      modifies this
      ensures tasks == Next(old(tasks), Event(id, WriteCheckpoint(worker, checkpoint), now))
    {
      if id in tasks && tasks[id].holder == Some(worker) {
        tasks := tasks[id := tasks[id].(checkpoint := checkpoint, updatedAt := now, checkpointAt := Some(now))];
      }
    }

    method UpdateStatus(id: string, status: string, fence: Option<string>, now: int) returns (ok: bool)
      modifies this
      ensures tasks == Next(old(tasks), Event(id, SetStatus(status, fence), now))
      ensures ok == Hits(old(tasks), Event(id, SetStatus(status, fence), now))
    {
      ok := id in tasks && (fence == None || tasks[id].holder == fence);
      if ok {
        var row := tasks[id].(status := status, updatedAt := now);
        if status == "completed" {
          row := row.(completedAt := Some(now));
        }
        tasks := tasks[id := row];
      }
    }

    method ParkTask(id: string, now: int) returns (ok: bool)
      modifies this
      ensures tasks == Next(old(tasks), Event(id, Park, now))
      ensures ok == Hits(old(tasks), Event(id, Park, now))
    {
      ok := id in tasks && tasks[id].status in ["pending", "in_progress"];
      if ok {
        tasks := tasks[id := tasks[id].(status := "needs_input", resumeReady := false, updatedAt := now)];
      }
    }

    method FlagResume(id: string, now: int) returns (ok: bool)
      modifies this
      ensures tasks == Next(old(tasks), Event(id, RequestResume, now))
      ensures ok == Hits(old(tasks), Event(id, RequestResume, now))
    {
      ok := id in tasks && tasks[id].status == "needs_input";
      if ok {
        tasks := tasks[id := tasks[id].(resumeReady := true, updatedAt := now)];
      }
    }

    method ResumeTask(id: string, now: int) returns (ok: bool)
      modifies this
      ensures tasks == Next(old(tasks), Event(id, Resume, now))
      ensures ok == Hits(old(tasks), Event(id, Resume, now))
    {
      ok := id in tasks && tasks[id].status == "needs_input" && tasks[id].resumeReady;
      if ok {
        tasks := tasks[id := tasks[id].(status := "pending", resumeReady := false, updatedAt := now)];
      }
    }
  }
}
