/**
 Exactly-once delivery across kills: what every schedule of enqueues, ticks, failures and
 kills keeps true of the outbox and the mailboxes.
 */
module OutboxDelivery {
  import opened Wrappers
  import opened Seqs
  import opened Outbox

  ghost predicate Delivered(cfg: Config, s: Store, r: NewRow, n: nat) {
    forall k :: 0 <= k < n && k < |MessagesOf(cfg, r)| ==> HasKey(s.mailbox, MessagesOf(cfg, r)[k])
  }

  /** Rows marked dispatched have a mailbox row for every key they address; so has the part
      of the current row that the tick in flight already inserted. */
  ghost predicate DispatchedDelivered(cfg: Config, s: Store) {
    && (forall i :: 0 <= i < |s.outbox| && s.outbox[i].dispatched ==>
          Delivered(cfg, s, s.outbox[i].item, |MessagesOf(cfg, s.outbox[i].item)|))
    && (InRow(s) ==> Delivered(cfg, s, Current(s).item, s.tick.value.inserted))
    && (forall i :: 0 <= i < |s.outbox| && s.outbox[i].dispatched ==> !Poison(s.outbox[i].item))
  }

  ghost predicate KeysUnique(s: Store) {
    forall i, j :: 0 <= i < j < |s.mailbox| ==> !SameKey(s.mailbox[i].mail, s.mailbox[j].mail)
  }

  ghost predicate Addressed(cfg: Config, outbox: seq<Row>, m: Mail) {
    exists i :: 0 <= i < |outbox| && m in MessagesOf(cfg, outbox[i].item)
  }

  /** Every row the dispatcher made is, word for word, a message of an enqueued row. */
  ghost predicate Traced(cfg: Config, s: Store) {
    forall e <- s.mailbox :: e.direct || Addressed(cfg, s.outbox, e.mail)
  }

  ghost predicate RowsUnique(s: Store) {
    forall i, j :: 0 <= i < j < |s.outbox| ==>
      !(s.outbox[i].item.kind == s.outbox[j].item.kind && s.outbox[i].item.externalId == s.outbox[j].item.externalId)
  }

  ghost predicate Inv(cfg: Config, s: Store) {
    (s.tick.Some? ==> InRange(s.outbox, s.tick.value.batch)) && DispatchedDelivered(cfg, s) && KeysUnique(s) && Traced(cfg, s) && RowsUnique(s)
  }

  lemma InsertKeepsKeys(mailbox: seq<Entry>, e: Entry, m: Mail)
    ensures HasKey(mailbox, m) ==> HasKey(InsertMail(mailbox, e), m)
    ensures HasKey(InsertMail(mailbox, e), e.mail)
  {
    var out := InsertMail(mailbox, e);
    if i :| 0 <= i < |mailbox| && SameKey(mailbox[i].mail, m) { assert SameKey(out[i].mail, m); }
    if !HasKey(mailbox, e.mail) { assert SameKey(out[|mailbox|].mail, e.mail); }
  }

  lemma InsertKeepsDelivered(cfg: Config, s: Store, e: Entry, r: NewRow, n: nat)
    requires Delivered(cfg, s, r, n)
    ensures Delivered(cfg, s.(mailbox := InsertMail(s.mailbox, e)), r, n)
  {
    forall k | 0 <= k < n && k < |MessagesOf(cfg, r)|
      ensures HasKey(InsertMail(s.mailbox, e), MessagesOf(cfg, r)[k])
    {
      InsertKeepsKeys(s.mailbox, e, MessagesOf(cfg, r)[k]);
    }
  }

  /** Inserting a message that is direct or addressed keeps the invariant. */
  lemma InsertKeepsInv(cfg: Config, s: Store, e: Entry)
    requires Inv(cfg, s) && (e.direct || Addressed(cfg, s.outbox, e.mail))
    ensures Inv(cfg, s.(mailbox := InsertMail(s.mailbox, e)))
  {
    var s' := s.(mailbox := InsertMail(s.mailbox, e));
    forall i | 0 <= i < |s.outbox| && s.outbox[i].dispatched
      ensures Delivered(cfg, s', s.outbox[i].item, |MessagesOf(cfg, s.outbox[i].item)|)
    {
      InsertKeepsDelivered(cfg, s, e, s.outbox[i].item, |MessagesOf(cfg, s.outbox[i].item)|);
    }
    if InRow(s) {
      InsertKeepsDelivered(cfg, s, e, Current(s).item, s.tick.value.inserted);
    }
  }

  lemma DeliverKeepsInv(cfg: Config, s: Store)
    requires Inv(cfg, s) && Enabled(cfg, s, Deliver)
    ensures Inv(cfg, Next(cfg, s, Deliver))
  {
    var k := s.tick.value.inserted;
    var m := MessagesOf(cfg, Current(s).item)[k];
    assert Addressed(cfg, s.outbox, m);
    hide MessagesOf, HasKey, InsertMail, Inv;
    InsertKeepsInv(cfg, s, Entry(m, false));
    InsertKeepsKeys(s.mailbox, Entry(m, false), m);
    InsertedOneMore(cfg, s.(mailbox := InsertMail(s.mailbox, Entry(m, false))));
  }

  /** Once the next message of the current row has its key in a mailbox, it counts as inserted. */
  lemma InsertedOneMore(cfg: Config, s: Store)
    requires Inv(cfg, s) && Enabled(cfg, s, Deliver)
    requires HasKey(s.mailbox, MessagesOf(cfg, Current(s).item)[s.tick.value.inserted])
    ensures Inv(cfg, s.(tick := Some(s.tick.value.(inserted := s.tick.value.inserted + 1))))
  {
    hide MessagesOf, HasKey, Poison;
    var s' := s.(tick := Some(s.tick.value.(inserted := s.tick.value.inserted + 1)));
    forall i | 0 <= i < |s.outbox| && s.outbox[i].dispatched
      ensures Delivered(cfg, s', s.outbox[i].item, |MessagesOf(cfg, s.outbox[i].item)|)
    {
      assert Delivered(cfg, s, s.outbox[i].item, |MessagesOf(cfg, s.outbox[i].item)|);
    }
    assert Current(s') == Current(s) && Delivered(cfg, s, Current(s).item, s.tick.value.inserted);
  }

  /** Enqueued rows extend the outbox; the rows already there are untouched. */
  lemma {:induction false} EnqueueExtends(outbox: seq<Row>, rows: seq<NewRow>, now: int)
    ensures outbox <= EnqueueAll(outbox, rows, now)
    ensures forall i :: |outbox| <= i < |EnqueueAll(outbox, rows, now)| ==>
              var r := EnqueueAll(outbox, rows, now)[i];
              !r.dispatched && r.attempts == 0 && r.createdAt == now
    decreases |rows|
  {
    if rows != [] {
      EnqueueExtends(EnqueueOne(outbox, rows[0], now), rows[1..], now);
    }
  }

  lemma {:induction false} EnqueueKeepsUnique(s: Store, rows: seq<NewRow>, now: int)
    requires RowsUnique(s)
    ensures RowsUnique(s.(outbox := EnqueueAll(s.outbox, rows, now)))
    decreases |rows|
  {
    if rows != [] {
      var s1 := s.(outbox := EnqueueOne(s.outbox, rows[0], now));
      assert RowsUnique(s1);
      EnqueueKeepsUnique(s1, rows[1..], now);
    }
  }

  lemma EnqueueKeepsInv(cfg: Config, s: Store, rows: seq<NewRow>, now: int)
    requires Inv(cfg, s) && Enabled(cfg, s, Enqueue(rows, now))
    ensures Inv(cfg, Next(cfg, s, Enqueue(rows, now)))
  {
    var s' := Next(cfg, s, Enqueue(rows, now));
    EnqueueExtends(s.outbox, rows, now);
    EnqueueKeepsUnique(s, rows, now);
    forall i | 0 <= i < |s'.outbox| && s'.outbox[i].dispatched
      ensures Delivered(cfg, s', s'.outbox[i].item, |MessagesOf(cfg, s'.outbox[i].item)|) && !Poison(s'.outbox[i].item)
    {
      assert s'.outbox[i] == s.outbox[i];
      assert Delivered(cfg, s, s.outbox[i].item, |MessagesOf(cfg, s.outbox[i].item)|);
    }
    forall e <- s'.mailbox
      ensures e.direct || Addressed(cfg, s'.outbox, e.mail)
    {
      if !e.direct {
        var i :| 0 <= i < |s.outbox| && e.mail in MessagesOf(cfg, s.outbox[i].item);
        assert s'.outbox[i] == s.outbox[i];
      }
    }
  }

  lemma MarkKeepsInv(cfg: Config, s: Store, step: Step)
    requires step.MarkDispatched? || step.MarkFailed?
    requires Inv(cfg, s) && Enabled(cfg, s, step)
    ensures Inv(cfg, Next(cfg, s, step))
  {
    var s' := Next(cfg, s, step);
    assert forall i :: 0 <= i < |s.outbox| ==> s'.outbox[i].item == s.outbox[i].item;
    forall e <- s'.mailbox
      ensures e.direct || Addressed(cfg, s'.outbox, e.mail)
    {
      if !e.direct {
        var i :| 0 <= i < |s.outbox| && e.mail in MessagesOf(cfg, s.outbox[i].item);
        assert e.mail in MessagesOf(cfg, s'.outbox[i].item);
      }
    }
    forall i | 0 <= i < |s'.outbox| && s'.outbox[i].dispatched
      ensures Delivered(cfg, s', s'.outbox[i].item, |MessagesOf(cfg, s'.outbox[i].item)|) && !Poison(s'.outbox[i].item)
    {
      if s.outbox[i].dispatched {
        assert Delivered(cfg, s, s.outbox[i].item, |MessagesOf(cfg, s.outbox[i].item)|);
      } else {
        assert Delivered(cfg, s, Current(s).item, s.tick.value.inserted);
      }
    }
  }

  lemma StepKeepsInv(cfg: Config, s: Store, step: Step)
    requires Inv(cfg, s) && Enabled(cfg, s, step)
    ensures Inv(cfg, Next(cfg, s, step))
  {
    match step
    case Enqueue(rows, now) => EnqueueKeepsInv(cfg, s, rows, now);
    case Direct(mail) => InsertKeepsInv(cfg, s, Entry(mail, true));
    case Deliver => DeliverKeepsInv(cfg, s);
    case MarkDispatched => MarkKeepsInv(cfg, s, step);
    case MarkFailed => MarkKeepsInv(cfg, s, step);
    case _ =>
      var s' := Next(cfg, s, step);
      forall i | 0 <= i < |s'.outbox| && s'.outbox[i].dispatched
        ensures Delivered(cfg, s', s'.outbox[i].item, |MessagesOf(cfg, s'.outbox[i].item)|)
      {
        assert Delivered(cfg, s, s.outbox[i].item, |MessagesOf(cfg, s.outbox[i].item)|);
      }
  }

  lemma {:induction false} RunKeepsInv(cfg: Config, s: Store, steps: seq<Step>)
    requires Inv(cfg, s) && Legal(cfg, s, steps)
    ensures Inv(cfg, Run(cfg, s, steps))
    decreases |steps|
  {
    if steps != [] {
      StepKeepsInv(cfg, s, steps[0]);
      RunKeepsInv(cfg, Next(cfg, s, steps[0]), steps[1..]);
    }
  }

  /** Over any schedule: a dispatched row has a mailbox row for every key it addresses and
      was not a poison row, no key has two rows, and every row the dispatcher made is a message
      of an enqueued row. */
  lemma DeliveryAcrossKills(cfg: Config, steps: seq<Step>)
    requires Legal(cfg, EMPTY, steps)
    ensures var s := Run(cfg, EMPTY, steps);
            && (forall i :: 0 <= i < |s.outbox| && s.outbox[i].dispatched ==>
                  !Poison(s.outbox[i].item) && forall m <- MessagesOf(cfg, s.outbox[i].item) :: HasKey(s.mailbox, m))
            && KeysUnique(s)
            && Traced(cfg, s)
  {
    RunKeepsInv(cfg, EMPTY, steps);
    var s := Run(cfg, EMPTY, steps);
    forall i, m | 0 <= i < |s.outbox| && s.outbox[i].dispatched && m in MessagesOf(cfg, s.outbox[i].item)
      ensures HasKey(s.mailbox, m)
    {
      assert Delivered(cfg, s, s.outbox[i].item, |MessagesOf(cfg, s.outbox[i].item)|);
    }
  }

  // ------------------------------------------------------------------
  // What a row records
  // ------------------------------------------------------------------

  /** How often a schedule fails row i. */
  function Failures(cfg: Config, s: Store, steps: seq<Step>, i: nat): nat
    requires Legal(cfg, s, steps)
    decreases |steps|
  {
    if steps == [] then 0
    else
      (if steps[0] == MarkFailed && s.tick.value.batch[0] == i then 1 else 0)
      + Failures(cfg, Next(cfg, s, steps[0]), steps[1..], i)
  }

  /** The schedule marks row i dispatched. */
  predicate Marked(cfg: Config, s: Store, steps: seq<Step>, i: nat)
    requires Legal(cfg, s, steps)
    decreases |steps|
  {
    steps != [] &&
    ((steps[0] == MarkDispatched && s.tick.value.batch[0] == i) || Marked(cfg, Next(cfg, s, steps[0]), steps[1..], i))
  }

  lemma RowStep(cfg: Config, s: Store, step: Step, i: nat)
    requires Enabled(cfg, s, step) && i < |s.outbox|
    ensures var s' := Next(cfg, s, step);
            && i < |s'.outbox| && s'.outbox[i].item == s.outbox[i].item && s'.outbox[i].createdAt == s.outbox[i].createdAt
            && s'.outbox[i].attempts == s.outbox[i].attempts + (if step == MarkFailed && s.tick.value.batch[0] == i then 1 else 0)
            && (s'.outbox[i].dispatched <==> s.outbox[i].dispatched || (step == MarkDispatched && s.tick.value.batch[0] == i))
  {
    if step.Enqueue? { EnqueueExtends(s.outbox, step.rows, step.now); }
  }

  /** Over any schedule a row counts its failures one by one and is dispatched exactly once it was
      marked; what it asks for never changes. */
  lemma {:induction false} RowRecords(cfg: Config, s: Store, steps: seq<Step>, i: nat)
    requires Legal(cfg, s, steps) && i < |s.outbox|
    ensures var s' := Run(cfg, s, steps);
            && i < |s'.outbox| && s'.outbox[i].item == s.outbox[i].item
            && s'.outbox[i].attempts == s.outbox[i].attempts + Failures(cfg, s, steps, i)
            && (s'.outbox[i].dispatched <==> s.outbox[i].dispatched || Marked(cfg, s, steps, i))
    decreases |steps|
  {
    hide Next, Enabled;
    if steps != [] {
      RowStep(cfg, s, steps[0], i);
      RowRecords(cfg, Next(cfg, s, steps[0]), steps[1..], i);
    }
  }

  // ------------------------------------------------------------------
  // What mail a row becomes
  // ------------------------------------------------------------------

  /** The mail that a row asks for, field by field: one for a mailbox_send row that names a
      recipient, one per subscriber for a tier-1 row. */
  predicate AsksFor(cfg: Config, r: NewRow, m: Mail) {
    var p := r.payload;
    && m.taskId == (if p.taskId == "" then r.taskId else p.taskId)
    && match r.kind
       case MailboxSend =>
         && m.recipient == p.recipient != ""
         && m.externalId == (if p.externalId == "" then r.externalId else p.externalId)
         && m.sender == (if p.sender == "" then "system" else p.sender)
         && m.urgency == p.urgency && m.title == p.title && m.body == p.body
       case Tier1Notification =>
         && m.recipient in cfg.subscribers
         && m.externalId == r.externalId + ":" + m.recipient
         && m.sender == (if p.persona == "" then "system" else p.persona)
         && m.urgency == "normal" && m.title == "" && m.body == p.tier1Body
       case ChannelRow => false
  }

  lemma AsksForIff(cfg: Config, r: NewRow, m: Mail)
    ensures m in MessagesOf(cfg, r) <==> AsksFor(cfg, r, m)
  {
    if r.kind.Tier1Notification? {
      if AsksFor(cfg, r, m) {
        var i :| 0 <= i < |cfg.subscribers| && cfg.subscribers[i] == m.recipient;
        assert MessagesOf(cfg, r)[i] == m;
      }
    }
  }

  /** No other row and no other sender uses a key of row i. */
  ghost predicate KeysApart(cfg: Config, s: Store, i: nat)
    requires i < |s.outbox|
  {
    forall m: Mail :: AsksFor(cfg, s.outbox[i].item, m) ==>
      && (forall e <- s.mailbox :: e.direct ==> !SameKey(e.mail, m))
      && (forall j: nat, n: Mail :: j < |s.outbox| && j != i && AsksFor(cfg, s.outbox[j].item, n) ==> !SameKey(n, m))
  }

  /** Over any schedule: a dispatched row whose keys are its own has every mail that it asks for
      in the mailboxes, exactly once and field by field; and the dispatcher delivers nothing that
      no row asks for. */
  lemma DispatchedMailIsRight(cfg: Config, steps: seq<Step>)
    requires Legal(cfg, EMPTY, steps)
    ensures var s := Run(cfg, EMPTY, steps);
            && (forall i: nat, m: Mail ::
                  i < |s.outbox| && s.outbox[i].dispatched && KeysApart(cfg, s, i) && AsksFor(cfg, s.outbox[i].item, m) ==>
                    multiset(s.mailbox)[Entry(m, false)] == 1)
            && (forall r <- s.outbox :: r.item.kind.MailboxSend? && r.item.payload.recipient == "" ==> !r.dispatched)
            && (forall e <- s.mailbox :: !e.direct ==>
                  exists i: nat :: i < |s.outbox| && AsksFor(cfg, s.outbox[i].item, e.mail))
  {
    RunKeepsInv(cfg, EMPTY, steps);
    var s := Run(cfg, EMPTY, steps);
    hide MessagesOf, AsksFor, Run, Legal;
    forall i: nat, m: Mail | i < |s.outbox| && s.outbox[i].dispatched && KeysApart(cfg, s, i) && AsksFor(cfg, s.outbox[i].item, m)
      ensures multiset(s.mailbox)[Entry(m, false)] == 1
    {
      DeliveredOnce(cfg, s, i, m);
    }
    forall e <- s.mailbox | !e.direct
      ensures exists i: nat :: i < |s.outbox| && AsksFor(cfg, s.outbox[i].item, e.mail)
    {
      var j := AskingRow(cfg, s, e);
    }
  }

  lemma AskingRow(cfg: Config, s: Store, e: Entry) returns (j: nat)
    requires Traced(cfg, s) && e in s.mailbox && !e.direct
    ensures j < |s.outbox| && AsksFor(cfg, s.outbox[j].item, e.mail)
  {
    j :| 0 <= j < |s.outbox| && e.mail in MessagesOf(cfg, s.outbox[j].item);
    AsksForIff(cfg, s.outbox[j].item, e.mail);
  }

  /** A row asks for one mail per key. */
  lemma OneMailPerKey(cfg: Config, r: NewRow, m: Mail, n: Mail)
    requires AsksFor(cfg, r, m) && AsksFor(cfg, r, n) && SameKey(m, n)
    ensures m == n
  {
  }

  lemma DeliveredOnce(cfg: Config, s: Store, i: nat, m: Mail)
    requires Inv(cfg, s) && i < |s.outbox| && s.outbox[i].dispatched
    requires KeysApart(cfg, s, i) && AsksFor(cfg, s.outbox[i].item, m)
    ensures multiset(s.mailbox)[Entry(m, false)] == 1
  {
    hide MessagesOf, AsksFor;
    var item := s.outbox[i].item;
    AsksForIff(cfg, item, m);
    assert Delivered(cfg, s, item, |MessagesOf(cfg, item)|);
    var k :| 0 <= k < |MessagesOf(cfg, item)| && MessagesOf(cfg, item)[k] == m;
    assert HasKey(s.mailbox, MessagesOf(cfg, item)[k]);
    var l :| 0 <= l < |s.mailbox| && SameKey(s.mailbox[l].mail, m);
    var e := s.mailbox[l];
    assert e in s.mailbox && !e.direct;
    var j := AskingRow(cfg, s, e);
    OneMailPerKey(cfg, item, e.mail, m);
    assert e == Entry(m, false);
    assert forall x, y :: 0 <= x < y < |s.mailbox| ==> s.mailbox[x] != s.mailbox[y];
    OnlyOnce(s.mailbox, e);
  }

  // ------------------------------------------------------------------
  // A drained outbox: the mail is that of a run without failures, up to order
  // ------------------------------------------------------------------

  function Items(outbox: seq<Row>): (r: seq<NewRow>)
    ensures |r| == |outbox|
  {
    seq(|outbox|, i requires 0 <= i < |outbox| => outbox[i].item)
  }

  /** Every message the enqueued rows ask for, each time it is asked for. */
  function Wanted(cfg: Config, s: Store): seq<Mail> {
    FlatMap(r => MessagesOf(cfg, r), Items(s.outbox))
  }

  /** What the dispatcher put into mailboxes. */
  function Dispatched(mailbox: seq<Entry>): seq<Mail> {
    FlatMap((e: Entry) => if e.direct then [] else [e.mail], mailbox)
  }

  /** Nobody else uses a key of ms, and ms uses no key twice. */
  ghost predicate KeysDistinct(ms: seq<Mail>, mailbox: seq<Entry>) {
    && (forall i, j :: 0 <= i < j < |ms| ==> !SameKey(ms[i], ms[j]))
    && (forall e <- mailbox :: e.direct ==> forall m <- ms :: !SameKey(e.mail, m))
  }

  ghost predicate Drained(cfg: Config, s: Store) {
    forall r <- s.outbox :: MessagesOf(cfg, r.item) != [] ==> r.dispatched
  }

  lemma {:induction false} DispatchedMember(mailbox: seq<Entry>, m: Mail)
    ensures m in Dispatched(mailbox) <==> exists e :: e in mailbox && !e.direct && e.mail == m
  {
    if mailbox != [] {
      DispatchedMember(mailbox[1..], m);
      assert mailbox == [mailbox[0]] + mailbox[1..];
      if e :| e in mailbox && !e.direct && e.mail == m {
        assert e == mailbox[0] || e in mailbox[1..];
      }
    }
  }

  lemma {:induction false} DispatchedOnce(mailbox: seq<Entry>)
    requires forall i, j :: 0 <= i < j < |mailbox| ==> !SameKey(mailbox[i].mail, mailbox[j].mail)
    ensures forall i, j :: 0 <= i < j < |Dispatched(mailbox)| ==> Dispatched(mailbox)[i] != Dispatched(mailbox)[j]
  {
    if mailbox != [] {
      DispatchedOnce(mailbox[1..]);
      var d := Dispatched(mailbox[1..]);
      forall j | 0 <= j < |d|
        ensures !SameKey(d[j], mailbox[0].mail)
      {
        DispatchedMember(mailbox[1..], d[j]);
      }
    }
  }

  lemma {:induction false} WantedMember(cfg: Config, rows: seq<NewRow>, k: nat, m: Mail)
    requires k < |rows| && m in MessagesOf(cfg, rows[k])
    ensures m in FlatMap(r => MessagesOf(cfg, r), rows)
  {
    if k > 0 {
      WantedMember(cfg, rows[1..], k - 1, m);
    }
  }

  lemma DeliveredWasWanted(cfg: Config, s: Store, m: Mail)
    requires Traced(cfg, s) && m in Dispatched(s.mailbox)
    ensures m in Wanted(cfg, s)
  {
    DispatchedMember(s.mailbox, m);
    var i :| 0 <= i < |s.outbox| && m in MessagesOf(cfg, s.outbox[i].item);
    WantedMember(cfg, Items(s.outbox), i, m);
  }

  /** The entry that holds a wanted message's key is that very message. */
  lemma HeldIsWanted(cfg: Config, s: Store, m: Mail)
    requires Traced(cfg, s) && KeysDistinct(Wanted(cfg, s), s.mailbox)
    requires m in Wanted(cfg, s) && HasKey(s.mailbox, m)
    ensures m in Dispatched(s.mailbox)
  {
    hide MessagesOf, FlatMap;
    var j :| 0 <= j < |s.mailbox| && SameKey(s.mailbox[j].mail, m);
    var e := s.mailbox[j];
    assert e in s.mailbox && !e.direct;
    assert Addressed(cfg, s.outbox, e.mail);
    var i :| 0 <= i < |s.outbox| && e.mail in MessagesOf(cfg, s.outbox[i].item);
    WantedMember(cfg, Items(s.outbox), i, e.mail);
    assert e.mail in Wanted(cfg, s);
    assert e.mail == m;
    DispatchedMember(s.mailbox, m);
  }

  lemma WantedIsHeld(cfg: Config, s: Store, m: Mail)
    requires DispatchedDelivered(cfg, s) && Drained(cfg, s) && m in Wanted(cfg, s)
    ensures HasKey(s.mailbox, m)
  {
    hide HasKey;
    var items := Items(s.outbox);
    var r := FlatMapMember(r => MessagesOf(cfg, r), items, m);
    var i :| 0 <= i < |items| && items[i] == r;
    assert s.outbox[i] in s.outbox && s.outbox[i].item == r && m in MessagesOf(cfg, r);
    assert Delivered(cfg, s, r, |MessagesOf(cfg, r)|);
  }

  /** A drained outbox has delivered exactly the messages it was asked for: none lost, none
      doubled, none altered, whatever failed or was killed on the way. */
  lemma DrainedMail(cfg: Config, steps: seq<Step>)
    requires Legal(cfg, EMPTY, steps)
    requires Drained(cfg, Run(cfg, EMPTY, steps))
    requires KeysDistinct(Wanted(cfg, Run(cfg, EMPTY, steps)), Run(cfg, EMPTY, steps).mailbox)
    ensures multiset(Dispatched(Run(cfg, EMPTY, steps).mailbox)) == multiset(Wanted(cfg, Run(cfg, EMPTY, steps)))
  {
    RunKeepsInv(cfg, EMPTY, steps);
    var s := Run(cfg, EMPTY, steps);
    forall m | m in Wanted(cfg, s)
      ensures m in Dispatched(s.mailbox)
    {
      WantedIsHeld(cfg, s, m);
      HeldIsWanted(cfg, s, m);
    }
    forall m | m in Dispatched(s.mailbox)
      ensures m in Wanted(cfg, s)
    {
      DeliveredWasWanted(cfg, s, m);
    }
    DispatchedOnce(s.mailbox);
    SameMembers(Dispatched(s.mailbox), Wanted(cfg, s));
  }

  /** What the steps enqueue, call by call. */
  function Enqueued(steps: seq<Step>): seq<seq<NewRow>>
    decreases |steps|
  {
    if steps == [] then []
    else (if steps[0].Enqueue? then [steps[0].rows] else []) + Enqueued(steps[1..])
  }

  function HasItem(items: seq<NewRow>, r: NewRow): bool {
    exists i :: 0 <= i < |items| && items[i].kind == r.kind && items[i].externalId == r.externalId
  }

  function AddItems(items: seq<NewRow>, rows: seq<NewRow>): seq<NewRow>
    decreases |rows|
  {
    if rows == [] then items
    else AddItems(if HasItem(items, rows[0]) then items else items + [rows[0]], rows[1..])
  }

  function AddAll(items: seq<NewRow>, calls: seq<seq<NewRow>>): seq<NewRow>
    decreases |calls|
  {
    if calls == [] then items else AddAll(AddItems(items, calls[0]), calls[1..])
  }

  lemma {:induction false} EnqueueAddsItems(outbox: seq<Row>, rows: seq<NewRow>, now: int)
    ensures Items(EnqueueAll(outbox, rows, now)) == AddItems(Items(outbox), rows)
    decreases |rows|
  {
    if rows != [] {
      var items := Items(outbox);
      assert HasRow(outbox, rows[0]) == HasItem(items, rows[0]) by {
        if i :| 0 <= i < |outbox| && outbox[i].item.kind == rows[0].kind && outbox[i].item.externalId == rows[0].externalId {
          assert items[i].kind == rows[0].kind && items[i].externalId == rows[0].externalId;
        }
      }
      assert Items(EnqueueOne(outbox, rows[0], now)) == if HasItem(items, rows[0]) then items else items + [rows[0]];
      EnqueueAddsItems(EnqueueOne(outbox, rows[0], now), rows[1..], now);
    }
  }

  /** Which rows the outbox holds is decided by the enqueue calls alone. */
  lemma {:induction false} OutboxFollowsCalls(cfg: Config, s: Store, steps: seq<Step>)
    requires Legal(cfg, s, steps)
    ensures Items(Run(cfg, s, steps).outbox) == AddAll(Items(s.outbox), Enqueued(steps))
    decreases |steps|
  {
    if steps != [] {
      var s' := Next(cfg, s, steps[0]);
      if steps[0].Enqueue? {
        EnqueueAddsItems(s.outbox, steps[0].rows, steps[0].now);
        assert Enqueued(steps)[1..] == Enqueued(steps[1..]);
      } else {
        assert Items(s'.outbox) == Items(s.outbox);
        assert Enqueued(steps) == Enqueued(steps[1..]);
      }
      OutboxFollowsCalls(cfg, s', steps[1..]);
    }
  }

  /** Two drained schedules that enqueue the same rows deliver the same mail up to order,
      however they differ in ticks, failures and kills. */
  lemma KillsDoNotShow(cfg: Config, a: seq<Step>, b: seq<Step>)
    requires Legal(cfg, EMPTY, a) && Legal(cfg, EMPTY, b) && Enqueued(a) == Enqueued(b)
    requires Drained(cfg, Run(cfg, EMPTY, a)) && Drained(cfg, Run(cfg, EMPTY, b))
    requires KeysDistinct(Wanted(cfg, Run(cfg, EMPTY, a)), Run(cfg, EMPTY, a).mailbox + Run(cfg, EMPTY, b).mailbox)
    ensures multiset(Dispatched(Run(cfg, EMPTY, a).mailbox)) == multiset(Dispatched(Run(cfg, EMPTY, b).mailbox))
  {
    OutboxFollowsCalls(cfg, EMPTY, a);
    OutboxFollowsCalls(cfg, EMPTY, b);
    DrainedMail(cfg, a);
    DrainedMail(cfg, b);
  }
}
