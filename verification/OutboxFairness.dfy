/**
 Rows that keep failing cannot starve a fresh one: a never-attempted row is attempted after
 as many completed ticks as it takes to cover the never-attempted rows ahead of it, however
 many rows fail and however many arrive later.
 */
module OutboxFairness {
  import opened Wrappers
  import opened Seqs
  import opened Outbox
  import opened OutboxDelivery

  ghost predicate InOrder(outbox: seq<Row>, ids: seq<nat>)
    requires InRange(outbox, ids)
  {
    forall j, k :: 0 <= j < k < |ids| ==> Before(outbox, ids[j], ids[k])
  }

  lemma {:induction false} InsertKeepsOrder(outbox: seq<Row>, i: nat, ids: seq<nat>)
    requires i < |outbox| && InRange(outbox, ids) && InOrder(outbox, ids) && i !in ids
    ensures InOrder(outbox, InsertSorted(outbox, i, ids))
  {
    if ids != [] && !Before(outbox, i, ids[0]) {
      InsertKeepsOrder(outbox, i, ids[1..]);
      var rest := InsertSorted(outbox, i, ids[1..]);
      forall k | 0 <= k < |rest|
        ensures Before(outbox, ids[0], rest[k])
      {
        assert rest[k] in rest;
      }
    }
  }

  lemma {:induction false} SortIsInOrder(outbox: seq<Row>, ids: seq<nat>)
    requires InRange(outbox, ids) && forall j, k :: 0 <= j < k < |ids| ==> ids[j] != ids[k]
    ensures InOrder(outbox, SortIds(outbox, ids))
  {
    if ids != [] {
      SortIsInOrder(outbox, ids[1..]);
      InsertKeepsOrder(outbox, ids[0], SortIds(outbox, ids[1..]));
    }
  }

  lemma {:induction false} UndispatchedIncreases(outbox: seq<Row>, n: nat)
    requires n <= |outbox|
    ensures forall j, k :: 0 <= j < k < |Undispatched(outbox, n)| ==> Undispatched(outbox, n)[j] < Undispatched(outbox, n)[k]
  {
    if n > 0 {
      UndispatchedIncreases(outbox, n - 1);
      var rest := Undispatched(outbox, n - 1);
      assert forall k :: 0 <= k < |rest| ==> rest[k] in rest;
    }
  }

  /** Dispatch order: fewer failures first, then the older row, then the smaller id. */
  predicate DueFirst(outbox: seq<Row>, i: nat, j: nat)
    requires i < |outbox| && j < |outbox|
  {
    if outbox[i].attempts != outbox[j].attempts then outbox[i].attempts < outbox[j].attempts
    else if outbox[i].createdAt != outbox[j].createdAt then outbox[i].createdAt < outbox[j].createdAt
    else i < j
  }

  lemma BeforeIsDueFirst(outbox: seq<Row>)
    ensures forall i: nat, j: nat :: i < |outbox| && j < |outbox| ==> (Before(outbox, i, j) <==> DueFirst(outbox, i, j))
  {
  }

  /** A batch is the first `limit` undispatched rows in dispatch order: a row left out waits
      behind a full batch of rows that all come before it. */
  lemma BatchIsFirst(outbox: seq<Row>, limit: nat, r: nat)
    requires r < |outbox| && !outbox[r].dispatched
    ensures var batch := DequeueBatch(outbox, limit);
            && (forall k, l :: 0 <= k < l < |batch| ==> DueFirst(outbox, batch[k], batch[l]))
            && (forall i <- batch :: !outbox[i].dispatched)
            && (r !in batch ==> |batch| == limit && forall i <- batch :: DueFirst(outbox, i, r))
  {
    hide Before, DueFirst, Undispatched, SortIds, InsertSorted;
    BeforeIsDueFirst(outbox);
    var ids := Undispatched(outbox, |outbox|);
    UndispatchedIncreases(outbox, |outbox|);
    SortIsInOrder(outbox, ids);
    var sorted := SortIds(outbox, ids);
    var batch := DequeueBatch(outbox, limit);
    forall i | i in batch
      ensures !outbox[i].dispatched
    {
      assert i in sorted;
    }
    forall k | 0 <= k < |batch|
      ensures sorted[k] in batch
    {
      assert batch[k] == sorted[k];
    }
    if r !in batch {
      assert r in sorted;
      var k :| 0 <= k < |sorted| && sorted[k] == r;
      assert k >= |batch|;
    }
  }

  predicate Fresh(outbox: seq<Row>, i: nat) {
    i < |outbox| && !outbox[i].dispatched && outbox[i].attempts == 0
  }

  /** The never-attempted rows that come before r. */
  function Ahead(outbox: seq<Row>, r: nat): set<nat>
    requires r < |outbox|
  {
    set i: nat | i < |outbox| && Fresh(outbox, i) && Before(outbox, i, r)
  }

  /** Ticks that both start and finish in the schedule. */
  function Completed(steps: seq<Step>, open: bool): nat
    decreases |steps|
  {
    if steps == [] then 0
    else match steps[0]
      case StartTick => Completed(steps[1..], true)
      case FinishTick => (if open then 1 else 0) + Completed(steps[1..], false)
      case Kill => Completed(steps[1..], false)
      case _ => Completed(steps[1..], open)
  }

  /** Clocks never run backwards, so a row is no younger than the rows after it. */
  ghost predicate Timely(s: Store) {
    forall r <- s.outbox :: r.createdAt <= s.clock
  }

  lemma StepKeepsTimely(cfg: Config, s: Store, step: Step)
    requires Timely(s) && Enabled(cfg, s, step)
    ensures Timely(Next(cfg, s, step))
  {
    if step.Enqueue? {
      EnqueueExtends(s.outbox, step.rows, step.now);
    }
  }

  lemma {:induction false} RunKeepsTimely(cfg: Config, s: Store, steps: seq<Step>)
    requires Timely(s) && Legal(cfg, s, steps)
    ensures Timely(Run(cfg, s, steps))
    decreases |steps|
  {
    if steps != [] {
      StepKeepsTimely(cfg, s, steps[0]);
      RunKeepsTimely(cfg, Next(cfg, s, steps[0]), steps[1..]);
    }
  }

  /** A step only takes rows out of the set ahead of r, and an attempted row stays so. */
  lemma StepShrinksAhead(cfg: Config, s: Store, step: Step, r: nat)
    requires Timely(s) && Enabled(cfg, s, step) && r < |s.outbox|
    ensures r < |Next(cfg, s, step).outbox|
    ensures Fresh(Next(cfg, s, step).outbox, r) ==> Fresh(s.outbox, r)
    ensures Fresh(Next(cfg, s, step).outbox, r) ==> Ahead(Next(cfg, s, step).outbox, r) <= Ahead(s.outbox, r)
    ensures (step.MarkDispatched? || step.MarkFailed?) ==>
              !Fresh(Next(cfg, s, step).outbox, s.tick.value.batch[0])
  {
    if step.Enqueue? {
      EnqueueExtends(s.outbox, step.rows, step.now);
    }
  }

  lemma {:induction false} AttemptedForGood(cfg: Config, s: Store, steps: seq<Step>, r: nat)
    requires Timely(s) && Legal(cfg, s, steps) && r < |s.outbox| && !Fresh(s.outbox, r)
    ensures r < |Run(cfg, s, steps).outbox| && !Fresh(Run(cfg, s, steps).outbox, r)
    decreases |steps|
  {
    if steps != [] {
      StepKeepsTimely(cfg, s, steps[0]);
      StepShrinksAhead(cfg, s, steps[0], r);
      AttemptedForGood(cfg, Next(cfg, s, steps[0]), steps[1..], r);
    }
  }

  function Members(ids: seq<nat>): set<nat> {
    set i | i in ids
  }

  /** Where the tick in flight leaves r: it will attempt r, or else a full batch of the rows
      ahead of r. `bound` bounds the rows ahead of r if the tick is killed. */
  ghost predicate OnTrack(cfg: Config, s: Store, r: nat, open: bool, bound: int)
    requires r < |s.outbox|
  {
    && |Ahead(s.outbox, r)| <= bound
    && (open ==>
          && s.tick.Some?
          && (r in s.tick.value.batch
              || |Ahead(s.outbox, r) - Members(s.tick.value.batch)| <= bound - cfg.batchLimit))
  }

  lemma StartOnTrack(cfg: Config, s: Store, r: nat, bound: int)
    requires Fresh(s.outbox, r) && Enabled(cfg, s, StartTick) && |Ahead(s.outbox, r)| <= bound
    ensures OnTrack(cfg, Next(cfg, s, StartTick), r, true, bound)
  {
    var batch := DequeueBatch(s.outbox, cfg.batchLimit);
    BatchIsFirst(s.outbox, cfg.batchLimit, r);
    if r !in batch {
      assert Members(batch) <= Ahead(s.outbox, r);
      assert forall j, k :: 0 <= j < k < |batch| ==> batch[j] != batch[k];
      DistinctMembers(batch);
    }
  }

  lemma {:induction false} DistinctMembers(ids: seq<nat>)
    requires forall j, k :: 0 <= j < k < |ids| ==> ids[j] != ids[k]
    ensures |Members(ids)| == |ids|
  {
    if ids != [] {
      DistinctMembers(ids[1..]);
      assert Members(ids) == {ids[0]} + Members(ids[1..]);
    }
  }

  lemma SmallerSet(a: set<nat>, b: set<nat>)
    requires a <= b
    ensures |a| <= |b|
  {
    assert b == a + (b - a);
  }

  lemma StepOnTrack(cfg: Config, s: Store, step: Step, r: nat, open: bool, bound: int)
    requires Timely(s) && Enabled(cfg, s, step) && !step.StartTick?
    requires Fresh(s.outbox, r) && OnTrack(cfg, s, r, open, bound)
    requires Fresh(Next(cfg, s, step).outbox, r)
    ensures !step.FinishTick? && !step.Kill? ==> OnTrack(cfg, Next(cfg, s, step), r, open, bound)
    ensures step.Kill? ==> OnTrack(cfg, Next(cfg, s, step), r, false, bound)
    ensures step.FinishTick? ==>
              OnTrack(cfg, Next(cfg, s, step), r, false, if open then bound - cfg.batchLimit else bound)
  {
    var s' := Next(cfg, s, step);
    var ahead, ahead' := Ahead(s.outbox, r), Ahead(s'.outbox, r);
    StepShrinksAhead(cfg, s, step, r);
    SmallerSet(ahead', ahead);
    if open {
      var batch := s.tick.value.batch;
      match step
      case FinishTick => assert ahead - Members(batch) == ahead;
      case Kill =>
      case MarkDispatched => MarkShrinks(batch, ahead, ahead');
      case MarkFailed => MarkShrinks(batch, ahead, ahead');
      case _ => SmallerSet(ahead' - Members(batch), ahead - Members(batch));
    }
  }

  lemma MarkShrinks(batch: seq<nat>, ahead: set<nat>, ahead': set<nat>)
    requires batch != [] && ahead' <= ahead && batch[0] !in ahead'
    ensures |ahead' - Members(batch[1..])| <= |ahead - Members(batch)|
  {
    SmallerSet(ahead' - Members(batch[1..]), ahead - Members(batch));
  }

  lemma OneTickLess(n: nat, limit: nat)
    ensures (n + 1) * limit == n * limit + limit
  {
  }

  lemma {:induction false} TicksReachRow(cfg: Config, s: Store, steps: seq<Step>, r: nat, open: bool, bound: int)
    requires Timely(s) && Legal(cfg, s, steps)
    requires Fresh(s.outbox, r) && OnTrack(cfg, s, r, open, bound)
    requires Completed(steps, open) * cfg.batchLimit > bound
    ensures r < |Run(cfg, s, steps).outbox| && !Fresh(Run(cfg, s, steps).outbox, r)
    decreases |steps|
  {
    hide Ahead, Members, Next, DequeueBatch, Enabled;
    if steps != [] {
      var s' := Next(cfg, s, steps[0]);
      StepKeepsTimely(cfg, s, steps[0]);
      StepShrinksAhead(cfg, s, steps[0], r);
      if !Fresh(s'.outbox, r) {
        AttemptedForGood(cfg, s', steps[1..], r);
      } else if steps[0].StartTick? {
        StartOnTrack(cfg, s, r, bound);
        TicksReachRow(cfg, s', steps[1..], r, true, bound);
      } else {
        StepOnTrack(cfg, s, steps[0], r, open, bound);
        if steps[0].FinishTick? {
          OneTickLess(Completed(steps[1..], false), cfg.batchLimit);
          TicksReachRow(cfg, s', steps[1..], r, false, if open then bound - cfg.batchLimit else bound);
        } else {
          TicksReachRow(cfg, s', steps[1..], r, open && !steps[0].Kill?, bound);
        }
      }
    }
  }

  /** With p never-attempted rows ahead of it, a never-attempted row has been attempted once
      the ticks that started and finished since cover p + 1 rows: ceil((p + 1) / limit) ticks. */
  lemma FreshRowIsReached(cfg: Config, before: seq<Step>, after: seq<Step>, r: nat)
    requires Legal(cfg, EMPTY, before) && Legal(cfg, Run(cfg, EMPTY, before), after)
    requires Fresh(Run(cfg, EMPTY, before).outbox, r)
    requires Completed(after, false) * cfg.batchLimit >= |Ahead(Run(cfg, EMPTY, before).outbox, r)| + 1
    ensures var s := Run(cfg, Run(cfg, EMPTY, before), after);
            r < |s.outbox| && (s.outbox[r].dispatched || s.outbox[r].attempts > 0)
  {
    var s := Run(cfg, EMPTY, before);
    RunKeepsTimely(cfg, EMPTY, before);
    TicksReachRow(cfg, s, after, r, false, |Ahead(s.outbox, r)|);
  }
}
