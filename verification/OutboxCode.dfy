/**
 The outbox and mailbox tables and the dispatcher's tick in the source's own form: methods
 that update rows in place. Every tick, whatever fails or kills it, is a legal run of the
 step machine of `Outbox`, so the laws about schedules are laws about this code.
 */
module OutboxCode {
  import opened Wrappers
  import opened Seqs
  import opened Outbox

  /** What goes wrong while one row is processed: nothing, an exception after some of its
      messages were inserted, or the death of the process at that point. */
  datatype Fault = NoFault | Raises(after: nat) | Dies(after: nat)

  function Min(a: nat, b: nat): nat {
    if a < b then a else b
  }

  /** How many of a row's messages get inserted. */
  function Reached(cfg: Config, r: NewRow, f: Fault): (n: nat)
    ensures n <= |MessagesOf(cfg, r)|
  {
    if f.NoFault? then |MessagesOf(cfg, r)| else Min(f.after, |MessagesOf(cfg, r)|)
  }

  function Delivers(n: nat): seq<Step> {
    seq(n, _ => Deliver)
  }

  /** The steps that processing one row takes. */
  function RowSteps(cfg: Config, r: NewRow, f: Fault): seq<Step> {
    Delivers(Reached(cfg, r, f))
    + [if f.Dies? then Kill else if f.Raises? || Poison(r) then MarkFailed else MarkDispatched]
  }

  /** The steps that the rest of a tick takes, given the fault that hits each row. */
  function BatchSteps(cfg: Config, outbox: seq<Row>, batch: seq<nat>, faults: nat -> Fault): seq<Step>
    requires InRange(outbox, batch)
  {
    if batch == [] then [FinishTick]
    else
      var row := RowSteps(cfg, outbox[batch[0]].item, faults(batch[0]));
      if faults(batch[0]).Dies? then row
      else row + BatchSteps(cfg, outbox, batch[1..], faults)
  }

  /** How many rows of the batch the tick marks dispatched. */
  function Dispatches(outbox: seq<Row>, batch: seq<nat>, faults: nat -> Fault): nat
    requires InRange(outbox, batch)
  {
    if batch == [] || faults(batch[0]).Dies? then 0
    else
      (if faults(batch[0]).NoFault? && !Poison(outbox[batch[0]].item) then 1 else 0)
      + Dispatches(outbox, batch[1..], faults)
  }

  lemma NoneLeft(cfg: Config, outbox: seq<Row>, faults: nat -> Fault)
    ensures BatchSteps(cfg, outbox, [], faults) == [FinishTick] && Dispatches(outbox, [], faults) == 0
  {
  }

  /** What the first row of a batch adds to a tick. */
  lemma OneLess(cfg: Config, outbox: seq<Row>, batch: seq<nat>, faults: nat -> Fault)
    requires InRange(outbox, batch) && batch != []
    ensures var item, fault := outbox[batch[0]].item, faults(batch[0]);
            && BatchSteps(cfg, outbox, batch, faults)
               == RowSteps(cfg, item, fault) + (if fault.Dies? then [] else BatchSteps(cfg, outbox, batch[1..], faults))
            && Dispatches(outbox, batch, faults)
               == if fault.Dies? then 0
                  else (if fault.NoFault? && !Poison(item) then 1 else 0) + Dispatches(outbox, batch[1..], faults)
  {
    hide RowSteps;
  }

  /** How many rows a schedule marks dispatched. */
  function Marks(steps: seq<Step>): nat {
    if steps == [] then 0 else (if steps[0] == MarkDispatched then 1 else 0) + Marks(steps[1..])
  }

  lemma {:induction false} MarksConcat(a: seq<Step>, b: seq<Step>)
    ensures Marks(a + b) == Marks(a) + Marks(b)
  {
    if a == [] {
      assert a + b == b;
    } else {
      TailConcat(a, b);
      MarksConcat(a[1..], b);
    }
  }

  lemma {:induction false} DeliversMarkNothing(n: nat)
    ensures Marks(Delivers(n)) == 0
    decreases n
  {
    if n > 0 {
      assert Delivers(n)[1..] == Delivers(n - 1);
      DeliversMarkNothing(n - 1);
    }
  }

  lemma {:induction false} DispatchesAreMarks(cfg: Config, outbox: seq<Row>, batch: seq<nat>, faults: nat -> Fault)
    requires InRange(outbox, batch)
    ensures Dispatches(outbox, batch, faults) == Marks(BatchSteps(cfg, outbox, batch, faults))
  {
    if batch != [] {
      var r, f := outbox[batch[0]].item, faults(batch[0]);
      var n := Reached(cfg, r, f);
      var last := if f.Dies? then Kill else if f.Raises? || Poison(r) then MarkFailed else MarkDispatched;
      DeliversMarkNothing(n);
      MarksConcat(Delivers(n), [last]);
      assert Marks([last]) == if last == MarkDispatched then 1 else 0 by { assert [last][1..] == []; }
      if !f.Dies? {
        DispatchesAreMarks(cfg, outbox, batch[1..], faults);
        MarksConcat(RowSteps(cfg, r, f), BatchSteps(cfg, outbox, batch[1..], faults));
      }
    }
  }

  predicate SameItems(a: seq<Row>, b: seq<Row>) {
    |a| == |b| && forall i :: 0 <= i < |a| ==> a[i].item == b[i].item
  }

  lemma SameItemsReflexive(a: seq<Row>)
    ensures SameItems(a, a)
  {
  }

  lemma SameItemsTransitive(a: seq<Row>, b: seq<Row>, c: seq<Row>)
    requires SameItems(a, b) && SameItems(b, c)
    ensures SameItems(a, c)
  {
  }

  lemma SameItemsAt(a: seq<Row>, b: seq<Row>, i: nat)
    requires SameItems(a, b) && i < |a|
    ensures i < |b| && a[i].item == b[i].item
  {
  }

  /** One more step at the end of a run. */
  lemma RunThenStep(cfg: Config, s: Store, steps: seq<Step>, step: Step)
    requires Legal(cfg, s, steps) && Enabled(cfg, Run(cfg, s, steps), step)
    ensures Legal(cfg, s, steps + [step])
    ensures Run(cfg, s, steps + [step]) == Next(cfg, Run(cfg, s, steps), step)
  {
    var s1 := Run(cfg, s, steps);
    assert Legal(cfg, s1, [step]) && Run(cfg, s1, [step]) == Next(cfg, s1, step) by {
      assert Legal(cfg, Next(cfg, s1, step), []);
      assert [step][1..] == [];
    }
    RunAppend(cfg, s, steps, [step]);
  }

  lemma TickStarts(cfg: Config, s: Store)
    requires s.tick == None
    ensures Legal(cfg, s, [StartTick])
    ensures Run(cfg, s, [StartTick]) == s.(tick := Some(Tick(DequeueBatch(s.outbox, cfg.batchLimit), 0)))
  {
    RunThenStep(cfg, s, [], StartTick);
    assert [] + [StartTick] == [StartTick];
  }

  lemma TickFinishes(cfg: Config, s: Store, steps: seq<Step>)
    requires Legal(cfg, s, steps)
    requires Run(cfg, s, steps).tick.Some? && Run(cfg, s, steps).tick.value.batch == []
    ensures Legal(cfg, s, steps + [FinishTick])
    ensures Run(cfg, s, steps + [FinishTick]) == Run(cfg, s, steps).(tick := None)
  {
    RunThenStep(cfg, s, steps, FinishTick);
  }

  class Database {
    const cfg: Config
    var outbox: seq<Row>
    var mailbox: seq<Entry>
    var clock: int

    constructor (cfg: Config)
      ensures this.cfg == cfg && State(None) == EMPTY
    {
      this.cfg := cfg;
      outbox, mailbox, clock := [], [], 0;
    }

    /** The tables together with the dispatcher's memory. */
    ghost function State(tick: Option<Tick>): Store
      reads this
    {
      Store(outbox, mailbox, clock, tick)
    }

    method HasOutboxRow(r: NewRow) returns (found: bool)
      ensures found == HasRow(outbox, r)
    {
      found := false;
      for i := 0 to |outbox|
        invariant !found
        invariant forall k :: 0 <= k < i ==> !(outbox[k].item.kind == r.kind && outbox[k].item.externalId == r.externalId)
      {
        if outbox[i].item.kind == r.kind && outbox[i].item.externalId == r.externalId {
          return true;
        }
      }
    }

    method Enqueue(rows: seq<NewRow>, now: int)
      requires now >= clock
      modifies this
      ensures State(None) == Next(cfg, old(State(None)), Step.Enqueue(rows, now))
    {
      clock := now;
      var i := 0;
      while i < |rows|
        invariant 0 <= i <= |rows|
        invariant EnqueueAll(outbox, rows[i..], now) == EnqueueAll(old(outbox), rows, now)
        invariant mailbox == old(mailbox) && clock == now
      {
        assert rows[i..][1..] == rows[i + 1..];
        var found := HasOutboxRow(rows[i]);
        if !found {
          outbox := outbox + [Row(rows[i], now, false, 0)];
        }
        i := i + 1;
      }
    }

    /** The new row's id, or -1 when the key is taken and the row there stays as it was. */
    method InsertMessage(mail: Mail, direct: bool) returns (id: int)
      modifies this
      ensures mailbox == InsertMail(old(mailbox), Entry(mail, direct))
      ensures outbox == old(outbox) && clock == old(clock)
      ensures if HasKey(old(mailbox), mail) then id == -1 else id == |old(mailbox)| + 1
    {
      for i := 0 to |mailbox|
        invariant State(None) == old(State(None))
        invariant forall k :: 0 <= k < i ==> !SameKey(mailbox[k].mail, mail)
      {
        if SameKey(mailbox[i].mail, mail) {
          return -1;
        }
      }
      mailbox := mailbox + [Entry(mail, direct)];
      return |mailbox|;
    }

    /** Keeps `sorted` in dispatch order while the ids up to `i` are put in. */
    method Dequeue() returns (batch: seq<nat>)
      ensures batch == DequeueBatch(outbox, cfg.batchLimit)
    {
      var ids := Undispatched(outbox, |outbox|);
      var sorted: seq<nat> := [];
      var i := |ids|;
      while i > 0
        invariant 0 <= i <= |ids|
        invariant sorted == SortIds(outbox, ids[i..])
      {
        i := i - 1;
        assert ids[i..][1..] == ids[i + 1..];
        sorted := InsertSorted(outbox, ids[i], sorted);
      }
      assert ids[0..] == ids;
      return if |sorted| <= cfg.batchLimit then sorted else sorted[..cfg.batchLimit];
    }

    method SetDispatched(id: nat)
      requires id < |outbox|
      modifies this
      ensures outbox == old(outbox)[id := old(outbox)[id].(dispatched := true)]
      ensures mailbox == old(mailbox) && clock == old(clock)
    {
      outbox := outbox[id := outbox[id].(dispatched := true)];
    }

    method SetFailed(id: nat)
      requires id < |outbox|
      modifies this
      ensures outbox == old(outbox)[id := old(outbox)[id].(attempts := old(outbox)[id].attempts + 1)]
      ensures mailbox == old(mailbox) && clock == old(clock)
    {
      outbox := outbox[id := outbox[id].(attempts := outbox[id].attempts + 1)];
    }

    /** Inserts the row's messages up to the fault. */
    method DispatchOne(ghost batch: seq<nat>, row: NewRow, fault: Fault)
      requires batch != [] && batch[0] < |outbox| && outbox[batch[0]].item == row
      modifies this
      ensures outbox == old(outbox) && clock == old(clock)
      ensures Legal(cfg, old(State(Some(Tick(batch, 0)))), Delivers(Reached(cfg, row, fault)))
      ensures State(Some(Tick(batch, Reached(cfg, row, fault))))
           == Run(cfg, old(State(Some(Tick(batch, 0)))), Delivers(Reached(cfg, row, fault)))
    {
      var messages := MessagesOf(cfg, row);
      var n := Reached(cfg, row, fault);
      ghost var s0 := State(Some(Tick(batch, 0)));
      var i := 0;
      while i < n
        invariant 0 <= i <= n
        invariant outbox == old(outbox) && clock == old(clock)
        invariant Legal(cfg, s0, Delivers(i)) && State(Some(Tick(batch, i))) == Run(cfg, s0, Delivers(i))
      {
        ghost var s := State(Some(Tick(batch, i)));
        RunThenStep(cfg, s0, Delivers(i), Deliver);
        assert Delivers(i + 1) == Delivers(i) + [Deliver];
        var id := InsertMessage(messages[i], false);
        i := i + 1;
      }
    }

    /** One row of the batch: deliver, then mark; false when the process died. */
    method ProcessRow(ghost batch: seq<nat>, id: nat, fault: Fault) returns (alive: bool, dispatched: bool)
      requires batch != [] && batch[0] == id && id < |outbox|
      modifies this
      ensures SameItems(old(outbox), outbox)
      ensures alive == !fault.Dies?
      ensures dispatched == (fault.NoFault? && !Poison(old(outbox)[id].item))
      ensures Legal(cfg, old(State(Some(Tick(batch, 0)))), RowSteps(cfg, old(outbox)[id].item, fault))
      ensures State(if alive then Some(Tick(batch[1..], 0)) else None)
           == Run(cfg, old(State(Some(Tick(batch, 0)))), RowSteps(cfg, old(outbox)[id].item, fault))
    {
      var row := outbox[id].item;
      ghost var s0 := State(Some(Tick(batch, 0)));
      ghost var n := Reached(cfg, row, fault);
      DispatchOne(batch, row, fault);
      ghost var s := State(Some(Tick(batch, n)));
      if fault.Dies? {
        RunThenStep(cfg, s0, Delivers(n), Kill);
        return false, false;
      }
      if fault.Raises? || Poison(row) {
        RunThenStep(cfg, s0, Delivers(n), MarkFailed);
        SetFailed(id);
        return true, false;
      }
      RunThenStep(cfg, s0, Delivers(n), MarkDispatched);
      SetDispatched(id);
      return true, true;
    }

    /** One tick of the dispatcher: the batch in order, each row delivered before it is marked,
        a failure charged to its own row only. */
    method RunTick(faults: nat -> Fault) returns (dispatched: nat)
      modifies this
      ensures var batch := DequeueBatch(old(outbox), cfg.batchLimit);
              var steps := [StartTick] + BatchSteps(cfg, old(outbox), batch, faults);
              && Legal(cfg, old(State(None)), steps)
              && State(None) == Run(cfg, old(State(None)), steps)
              && dispatched == Marks(BatchSteps(cfg, old(outbox), batch, faults))
    {
      hide Marks, Next, Enabled, RowSteps, MessagesOf, DequeueBatch, Legal, Run, SameItems, BatchSteps, Dispatches;
      DispatchesAreMarks(cfg, outbox, DequeueBatch(outbox, cfg.batchLimit), faults);
      NoneLeft(cfg, outbox, faults);
      ghost var s0 := State(None);
      var batch := Dequeue();
      ghost var done := [StartTick];
      ghost var all := [StartTick] + BatchSteps(cfg, outbox, batch, faults);
      TickStarts(cfg, s0);
      SameItemsReflexive(outbox);
      dispatched := 0;
      var i := 0;
      while i < |batch|
        invariant 0 <= i <= |batch| && SameItems(old(outbox), outbox)
        invariant Legal(cfg, s0, done) && State(Some(Tick(batch[i..], 0))) == Run(cfg, s0, done)
        invariant InRange(old(outbox), batch[i..])
        invariant all == done + BatchSteps(cfg, old(outbox), batch[i..], faults)
        invariant Dispatches(old(outbox), batch, faults) == dispatched + Dispatches(old(outbox), batch[i..], faults)
      {
        assert batch[i..][1..] == batch[i + 1..];
        OneLess(cfg, old(outbox), batch[i..], faults);
        SameItemsAt(old(outbox), outbox, batch[i]);
        ghost var before := outbox;
        ghost var s := State(Some(Tick(batch[i..], 0)));
        ghost var row := RowSteps(cfg, outbox[batch[i]].item, faults(batch[i]));
        var alive, ok := ProcessRow(batch[i..], batch[i], faults(batch[i]));
        SameItemsTransitive(old(outbox), before, outbox);
        RunAppend(cfg, s0, done, row);
        if !alive {
          assert all == done + row;
          return;
        }
        assert all == (done + row) + BatchSteps(cfg, old(outbox), batch[i + 1..], faults);
        done := done + row;
        dispatched := dispatched + if ok then 1 else 0;
        i := i + 1;
      }
      TickFinishes(cfg, s0, done);
    }
  }
}
