/**
 The durable outbox, the mailbox it feeds, and the dispatcher between them
 (src/lyre/outbox/dispatcher.py; `SqliteOutboxRepository` and `insert_message` in
 src/lyre/persistence/sqlite_impl.py), as a machine of atomic steps over a durable store.

 A kill may come between any two steps. It destroys the dispatcher's memory and nothing else.
 A row's id is its position in `outbox`: ids are handed out in order and rows are never deleted.
 */
module Outbox {
  import opened Wrappers
  import opened Seqs

  datatype Kind = MailboxSend | Tier1Notification | ChannelRow

  /** The payload fields that delivery reads; "" stands for an absent field. */
  datatype Payload = Payload(
    recipient: string, externalId: string, sender: string, urgency: string, title: string,
    body: string, taskId: string, persona: string, tier1Body: string)

  /** What a caller enqueues. */
  datatype NewRow = NewRow(kind: Kind, externalId: string, taskId: string, payload: Payload)

  datatype Row = Row(item: NewRow, createdAt: int, dispatched: bool, attempts: nat)

  datatype Mail = Mail(recipient: string, externalId: string, sender: string, urgency: string,
                       title: string, body: string, taskId: string)

  /** A mailbox row; `direct` rows come from other callers of `insert_message`. */
  datatype Entry = Entry(mail: Mail, direct: bool)

  /** The tick in flight: rows still to process, and how many messages of the first of
      them have been inserted. */
  datatype Tick = Tick(batch: seq<nat>, inserted: nat)

  datatype Store = Store(outbox: seq<Row>, mailbox: seq<Entry>, clock: int, tick: Option<Tick>)

  datatype Config = Config(subscribers: seq<string>, batchLimit: nat)

  function Or(a: string, b: string): string {
    if a != "" then a else b
  }

  /** The messages that dispatching a row must put into mailboxes. */
  function MessagesOf(cfg: Config, r: NewRow): seq<Mail> {
    match r.kind
    case MailboxSend =>
      if r.payload.recipient == "" then []
      else [Mail(r.payload.recipient, Or(r.payload.externalId, r.externalId), Or(r.payload.sender, "system"),
                 r.payload.urgency, r.payload.title, r.payload.body, Or(r.payload.taskId, r.taskId))]
    case Tier1Notification =>
      seq(|cfg.subscribers|, i requires 0 <= i < |cfg.subscribers| => Tier1Mail(cfg.subscribers[i], r))
    case ChannelRow => []
  }

  function Tier1Mail(subscriber: string, r: NewRow): Mail {
    Mail(subscriber, r.externalId + ":" + subscriber, Or(r.payload.persona, "system"), "normal", "",
         r.payload.tier1Body, Or(r.payload.taskId, r.taskId))
  }

  /** A row that raises on every attempt, before it delivers anything. */
  predicate Poison(r: NewRow) {
    r.kind.MailboxSend? && r.payload.recipient == ""
  }

  // ------------------------------------------------------------------
  // The mailbox: at most one row per (recipient, external id)
  // ------------------------------------------------------------------

  predicate SameKey(a: Mail, b: Mail) {
    a.recipient == b.recipient && a.externalId == b.externalId
  }

  predicate HasKey(mailbox: seq<Entry>, m: Mail) {
    exists i :: 0 <= i < |mailbox| && SameKey(mailbox[i].mail, m)
  }

  /** `INSERT ... ON CONFLICT (recipient, external_id) DO NOTHING`. */
  function InsertMail(mailbox: seq<Entry>, e: Entry): seq<Entry> {
    if HasKey(mailbox, e.mail) then mailbox else mailbox + [e]
  }

  // ------------------------------------------------------------------
  // The outbox: at most one row per (kind, external id)
  // ------------------------------------------------------------------

  predicate HasRow(outbox: seq<Row>, r: NewRow) {
    exists i :: 0 <= i < |outbox| && outbox[i].item.kind == r.kind && outbox[i].item.externalId == r.externalId
  }

  function EnqueueOne(outbox: seq<Row>, r: NewRow, now: int): seq<Row> {
    if HasRow(outbox, r) then outbox else outbox + [Row(r, now, false, 0)]
  }

  function EnqueueAll(outbox: seq<Row>, rows: seq<NewRow>, now: int): seq<Row>
    decreases |rows|
  {
    if rows == [] then outbox else EnqueueAll(EnqueueOne(outbox, rows[0], now), rows[1..], now)
  }

  // ------------------------------------------------------------------
  // Which rows a tick takes: ORDER BY dispatch_attempts, created_at, id LIMIT n
  // ------------------------------------------------------------------

  predicate Before(outbox: seq<Row>, i: nat, j: nat)
    requires i < |outbox| && j < |outbox|
  {
    var a, b := outbox[i], outbox[j];
    a.attempts < b.attempts
    || (a.attempts == b.attempts && (a.createdAt < b.createdAt || (a.createdAt == b.createdAt && i < j)))
  }

  predicate InRange(outbox: seq<Row>, ids: seq<nat>) {
    forall k :: 0 <= k < |ids| ==> ids[k] < |outbox|
  }

  /** Ids below n that are not dispatched, in id order. */
  function Undispatched(outbox: seq<Row>, n: nat): (ids: seq<nat>)
    requires n <= |outbox|
    ensures InRange(outbox, ids)
    ensures forall i: nat :: i in ids <==> i < n && !outbox[i].dispatched
  {
    if n == 0 then []
    else if outbox[n - 1].dispatched then Undispatched(outbox, n - 1)
    else Undispatched(outbox, n - 1) + [n - 1]
  }

  function InsertSorted(outbox: seq<Row>, i: nat, ids: seq<nat>): (r: seq<nat>)
    requires i < |outbox| && InRange(outbox, ids)
    ensures forall j: nat :: j in r <==> j == i || j in ids
    ensures InRange(outbox, r)
  {
    if ids == [] || Before(outbox, i, ids[0]) then [i] + ids
    else [ids[0]] + InsertSorted(outbox, i, ids[1..])
  }

  function SortIds(outbox: seq<Row>, ids: seq<nat>): (r: seq<nat>)
    requires InRange(outbox, ids)
    ensures forall j: nat :: j in r <==> j in ids
    ensures InRange(outbox, r)
  {
    if ids == [] then [] else InsertSorted(outbox, ids[0], SortIds(outbox, ids[1..]))
  }

  function DequeueBatch(outbox: seq<Row>, limit: nat): (batch: seq<nat>)
    ensures InRange(outbox, batch)
  {
    var sorted := SortIds(outbox, Undispatched(outbox, |outbox|));
    if |sorted| <= limit then sorted else sorted[..limit]
  }

  // ------------------------------------------------------------------
  // Steps
  // ------------------------------------------------------------------

  datatype Step =
    | Enqueue(rows: seq<NewRow>, now: int)
    | Direct(mail: Mail)         // another caller of insert_message
    | StartTick
    | Deliver                    // insert the next message of the current row
    | MarkDispatched
    | MarkFailed                 // the current row raised: attempts + 1, go on
    | FinishTick
    | Kill                       // process death, or mark_failed itself raised: the tick is gone

  predicate InRow(s: Store) {
    s.tick.Some? && s.tick.value.batch != [] && s.tick.value.batch[0] < |s.outbox|
  }

  function Current(s: Store): Row
    requires InRow(s)
  {
    s.outbox[s.tick.value.batch[0]]
  }

  predicate Enabled(cfg: Config, s: Store, step: Step) {
    match step
    case Enqueue(_, now) => now >= s.clock
    case Direct(_) => true
    case StartTick => s.tick == None
    case Deliver => InRow(s) && s.tick.value.inserted < |MessagesOf(cfg, Current(s).item)|
    case MarkDispatched =>
      InRow(s) && !Poison(Current(s).item) && s.tick.value.inserted == |MessagesOf(cfg, Current(s).item)|
    case MarkFailed => InRow(s)
    case FinishTick => s.tick.Some? && s.tick.value.batch == []
    case Kill => true
  }

  function NextRow(s: Store): Store
    requires InRow(s)
  {
    s.(tick := Some(Tick(s.tick.value.batch[1..], 0)))
  }

  function Next(cfg: Config, s: Store, step: Step): Store
    requires Enabled(cfg, s, step)
  {
    match step
    case Enqueue(rows, now) => s.(outbox := EnqueueAll(s.outbox, rows, now), clock := now)
    case Direct(mail) => s.(mailbox := InsertMail(s.mailbox, Entry(mail, true)))
    case StartTick => s.(tick := Some(Tick(DequeueBatch(s.outbox, cfg.batchLimit), 0)))
    case Deliver =>
      var k := s.tick.value.inserted;
      s.(mailbox := InsertMail(s.mailbox, Entry(MessagesOf(cfg, Current(s).item)[k], false)),
         tick := Some(s.tick.value.(inserted := k + 1)))
    case MarkDispatched =>
      NextRow(s).(outbox := s.outbox[s.tick.value.batch[0] := Current(s).(dispatched := true)])
    case MarkFailed =>
      NextRow(s).(outbox := s.outbox[s.tick.value.batch[0] := Current(s).(attempts := Current(s).attempts + 1)])
    case FinishTick => s.(tick := None)
    case Kill => s.(tick := None)
  }

  predicate Legal(cfg: Config, s: Store, steps: seq<Step>)
    decreases |steps|
  {
    steps != [] ==> Enabled(cfg, s, steps[0]) && Legal(cfg, Next(cfg, s, steps[0]), steps[1..])
  }

  function Run(cfg: Config, s: Store, steps: seq<Step>): Store
    requires Legal(cfg, s, steps)
    decreases |steps|
  {
    if steps == [] then s else Run(cfg, Next(cfg, s, steps[0]), steps[1..])
  }

  const EMPTY := Store([], [], 0, None)

  lemma {:induction false} RunAppend(cfg: Config, s: Store, a: seq<Step>, b: seq<Step>)
    requires Legal(cfg, s, a) && Legal(cfg, Run(cfg, s, a), b)
    ensures Legal(cfg, s, a + b) && Run(cfg, s, a + b) == Run(cfg, Run(cfg, s, a), b)
    decreases |a|
  {
    if a == [] {
      assert a + b == b;
    } else {
      assert (a + b)[1..] == a[1..] + b;
      RunAppend(cfg, Next(cfg, s, a[0]), a[1..], b);
    }
  }
}
