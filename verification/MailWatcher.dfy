/**
 The in-flight mail watcher (src/lyre/runtime/mail_watcher.py). One round of its poll loop is
 three steps (take the cursor, read the mailbox, filter) and the agent loop may acknowledge
 between any two of them. `limit` is the 100 of the read query
 (`read_messages` in src/lyre/persistence/sqlite_impl.py).
 */
module MailWatcher {
  import opened Wrappers
  import opened Seqs

  datatype Mail = Mail(id: int, urgency: string)

  function Rank(urgency: string): nat {
    if urgency == "low" then 1 else if urgency == "normal" then 2
    else if urgency == "high" then 3 else if urgency == "blocker" then 4 else 0
  }

  /** Where the poll loop is: between rounds, holding the cursor, or holding what it read. */
  datatype Phase = Idle | Began(since: int) | Fetched(msgs: seq<Mail>)

  datatype World = World(
    mailbox: seq<Mail>,     // one recipient's rows, in id order
    baseline: int, pending: seq<Mail>, signal: bool, phase: Phase,
    returned: seq<Mail>)    // everything acknowledged so far

  datatype Config = Config(floor: nat, limit: nat)

  predicate Increasing(ms: seq<Mail>) {
    forall i, j :: 0 <= i < j < |ms| ==> ms[i].id < ms[j].id
  }

  /** `id > since`, in id order. */
  function Since(mailbox: seq<Mail>, since: int): (ms: seq<Mail>)
    ensures forall m :: m in ms <==> m in mailbox && m.id > since
  {
    if mailbox == [] then []
    else if mailbox[0].id > since then [mailbox[0]] + Since(mailbox[1..], since)
    else Since(mailbox[1..], since)
  }

  function Take(ms: seq<Mail>, n: nat): seq<Mail> {
    if |ms| <= n then ms else ms[..n]
  }

  function ReadMessages(mailbox: seq<Mail>, since: int, limit: nat): seq<Mail> {
    Take(Since(mailbox, since), limit)
  }

  predicate Surfaces(cfg: Config, m: Mail, baseline: int) {
    m.id > baseline && Rank(m.urgency) >= cfg.floor
  }

  function Filter(cfg: Config, ms: seq<Mail>, baseline: int): (r: seq<Mail>)
    ensures forall m :: m in r <==> m in ms && Surfaces(cfg, m, baseline)
  {
    if ms == [] then []
    else (if Surfaces(cfg, ms[0], baseline) then [ms[0]] else []) + Filter(cfg, ms[1..], baseline)
  }

  lemma NothingFiltered(cfg: Config, baseline: int)
    ensures Filter(cfg, [], baseline) == []
  {
  }

  lemma FilterFirst(cfg: Config, ms: seq<Mail>, baseline: int)
    requires ms != []
    ensures Filter(cfg, ms, baseline) == (if Surfaces(cfg, ms[0], baseline) then [ms[0]] else []) + Filter(cfg, ms[1..], baseline)
  {
  }

  /** The cursor after these messages have been shown. */
  function Advance(baseline: int, ms: seq<Mail>): (b: int)
    ensures b >= baseline && forall m <- ms :: m.id <= b
    ensures b == baseline || exists m :: m in ms && m.id == b
    decreases |ms|
  {
    if ms == [] then baseline
    else Advance(if ms[0].id > baseline then ms[0].id else baseline, ms[1..])
  }

  datatype Step =
    | Insert(m: Mail)
    | Begin
    | Fetch
    | Sift
    | Drop               // the read raised; the round is over
    | Acknowledge

  /** Ids are handed out in order: a new message's id is above every id before it, the one
      the cursor names included. */
  predicate Enabled(w: World, step: Step) {
    match step
    case Insert(m) => w.baseline < m.id && forall x <- w.mailbox :: x.id < m.id
    case Begin => w.phase.Idle?
    case Fetch => w.phase.Began?
    case Sift => w.phase.Fetched?
    case Drop => !w.phase.Idle?
    case Acknowledge => true
  }

  function Next(cfg: Config, w: World, step: Step): World
    requires Enabled(w, step)
  {
    match step
    case Insert(m) => w.(mailbox := w.mailbox + [m])
    case Begin => w.(phase := Began(w.baseline))
    case Fetch => w.(phase := Fetched(ReadMessages(w.mailbox, w.phase.since, cfg.limit)))
    case Sift =>
      var found := Filter(cfg, w.phase.msgs, w.baseline);
      if found == [] then w.(phase := Idle) else w.(phase := Idle, pending := found, signal := true)
    case Drop => w.(phase := Idle)
    case Acknowledge =>
      w.(baseline := Advance(w.baseline, w.pending), pending := [], signal := false, returned := w.returned + w.pending)
  }

  predicate Legal(cfg: Config, w: World, steps: seq<Step>)
    decreases |steps|
  {
    steps != [] ==> Enabled(w, steps[0]) && Legal(cfg, Next(cfg, w, steps[0]), steps[1..])
  }

  function Run(cfg: Config, w: World, steps: seq<Step>): World
    requires Legal(cfg, w, steps)
    decreases |steps|
  {
    if steps == [] then w else Run(cfg, Next(cfg, w, steps[0]), steps[1..])
  }

  // ------------------------------------------------------------------
  // Nothing twice, nothing skipped
  // ------------------------------------------------------------------

  /** ms holds every message of the mailbox that surfaces, from just past `from` up to its last. */
  ghost predicate NoGap(cfg: Config, mailbox: seq<Mail>, from: int, ms: seq<Mail>) {
    forall x <- mailbox, y <- ms :: Surfaces(cfg, x, from) && x.id <= y.id ==> x in ms
  }

  ghost predicate Segment(cfg: Config, mailbox: seq<Mail>, from: int, ms: seq<Mail>) {
    Increasing(ms) && (forall m <- ms :: m in mailbox) && NoGap(cfg, mailbox, from, ms)
  }

  ghost predicate Inv(cfg: Config, w: World, start: int) {
    && Increasing(w.mailbox) && Increasing(w.returned)
    && w.signal == (w.pending != [])
    && start <= w.baseline
    && (w.phase.Began? ==> w.phase.since <= w.baseline)
    && (w.phase.Fetched? ==> Segment(cfg, w.mailbox, w.baseline, w.phase.msgs))
    && (forall m <- w.pending :: Surfaces(cfg, m, w.baseline))
    && Segment(cfg, w.mailbox, w.baseline, w.pending)
    && (forall m <- w.returned :: m in w.mailbox && Surfaces(cfg, m, start) && m.id <= w.baseline)
    && (forall m <- w.mailbox :: Surfaces(cfg, m, start) && m.id <= w.baseline ==> m in w.returned)
  }

  lemma {:induction false} SinceIncreasing(mailbox: seq<Mail>, since: int)
    requires Increasing(mailbox)
    ensures Increasing(Since(mailbox, since))
  {
    if mailbox != [] {
      SinceIncreasing(mailbox[1..], since);
      var rest := Since(mailbox[1..], since);
      assert forall j :: 0 <= j < |rest| ==> rest[j] in mailbox[1..];
    }
  }

  lemma {:induction false} FilterIncreasing(cfg: Config, ms: seq<Mail>, baseline: int)
    requires Increasing(ms)
    ensures Increasing(Filter(cfg, ms, baseline))
  {
    if ms != [] {
      FilterIncreasing(cfg, ms[1..], baseline);
      var rest := Filter(cfg, ms[1..], baseline);
      assert forall j :: 0 <= j < |rest| ==> rest[j] in ms[1..];
    }
  }

  /** The query's limit cuts the newest messages off, never one in between. */
  lemma ReadHasNoGap(cfg: Config, mailbox: seq<Mail>, since: int, from: int)
    requires Increasing(mailbox) && since <= from
    ensures Segment(cfg, mailbox, from, ReadMessages(mailbox, since, cfg.limit))
  {
    SinceIncreasing(mailbox, since);
    var all := Since(mailbox, since);
    var ms := Take(all, cfg.limit);
    forall x, y | x in mailbox && y in ms && Surfaces(cfg, x, from) && x.id <= y.id
      ensures x in ms
    {
      assert x in all;
      var i :| 0 <= i < |all| && all[i] == x;
      var j :| 0 <= j < |ms| && ms[j] == y;
      assert i <= j;
      assert ms[i] == x;
    }
    assert forall m <- ms :: m in all;
  }

  lemma AcknowledgeKeepsInv(cfg: Config, w: World, start: int)
    requires Inv(cfg, w, start)
    ensures Inv(cfg, Next(cfg, w, Acknowledge), start)
  {
    var w' := Next(cfg, w, Acknowledge);
    forall m | m in w.mailbox && Surfaces(cfg, m, start) && m.id <= w'.baseline
      ensures m in w'.returned
    {
      if m.id > w.baseline {
        assert Surfaces(cfg, m, w.baseline);
      }
    }
    forall m | m in w'.returned
      ensures m in w'.mailbox && Surfaces(cfg, m, start) && m.id <= w'.baseline
    {
      assert m in w.returned || m in w.pending;
    }
    forall i, j | 0 <= i < j < |w'.returned|
      ensures w'.returned[i].id < w'.returned[j].id
    {
      if j >= |w.returned| {
        assert w'.returned[j] in w.pending;
        if i < |w.returned| {
          assert w'.returned[i] in w.returned;
        }
      }
    }
  }

  lemma InsertKeepsSegment(cfg: Config, mailbox: seq<Mail>, m: Mail, from: int, ms: seq<Mail>)
    requires Segment(cfg, mailbox, from, ms) && forall x <- mailbox :: x.id < m.id
    ensures Segment(cfg, mailbox + [m], from, ms)
  {
  }

  lemma InsertKeepsInv(cfg: Config, w: World, m: Mail, start: int)
    requires Inv(cfg, w, start) && Enabled(w, Insert(m))
    ensures Inv(cfg, Next(cfg, w, Insert(m)), start)
  {
    InsertKeepsSegment(cfg, w.mailbox, m, w.baseline, w.pending);
    if w.phase.Fetched? {
      InsertKeepsSegment(cfg, w.mailbox, m, w.baseline, w.phase.msgs);
    }
    hide Segment;
    assert forall i :: 0 <= i < |w.mailbox| ==> w.mailbox[i] in w.mailbox;
  }

  lemma SiftKeepsSegment(cfg: Config, mailbox: seq<Mail>, from: int, ms: seq<Mail>)
    requires Segment(cfg, mailbox, from, ms)
    ensures Segment(cfg, mailbox, from, Filter(cfg, ms, from))
  {
    FilterIncreasing(cfg, ms, from);
  }

  lemma StepKeepsInv(cfg: Config, w: World, step: Step, start: int)
    requires Inv(cfg, w, start) && Enabled(w, step)
    ensures Inv(cfg, Next(cfg, w, step), start)
  {
    hide Segment, Increasing;
    match step
    case Insert(m) => InsertKeepsInv(cfg, w, m, start);
    case Fetch => ReadHasNoGap(cfg, w.mailbox, w.phase.since, w.baseline);
    case Sift => SiftKeepsSegment(cfg, w.mailbox, w.baseline, w.phase.msgs);
    case Acknowledge => AcknowledgeKeepsInv(cfg, w, start);
    case _ =>
  }

  lemma {:induction false} RunKeepsInv(cfg: Config, w: World, steps: seq<Step>, start: int)
    requires Inv(cfg, w, start) && Legal(cfg, w, steps)
    ensures Inv(cfg, Run(cfg, w, steps), start)
    decreases |steps|
  {
    if steps != [] {
      StepKeepsInv(cfg, w, steps[0], start);
      RunKeepsInv(cfg, Next(cfg, w, steps[0]), steps[1..], start);
    }
  }

  predicate Fresh(w: World) {
    w.pending == [] && !w.signal && w.phase.Idle? && w.returned == [] && Increasing(w.mailbox)
  }

  /** Over any run: the ids returned strictly increase, and the messages returned are exactly
      those at or above the floor with an id past the first baseline and up to the current one. */
  lemma NothingTwiceNothingSkipped(cfg: Config, w: World, steps: seq<Step>)
    requires Fresh(w) && Legal(cfg, w, steps)
    ensures var w' := Run(cfg, w, steps);
            && Increasing(w'.returned)
            && (forall m :: m in w'.returned <==> m in w'.mailbox && Surfaces(cfg, m, w.baseline) && m.id <= w'.baseline)
            && w'.signal == (w'.pending != [])
  {
    RunKeepsInv(cfg, w, steps, w.baseline);
  }

  // ------------------------------------------------------------------
  // What an undisturbed round surfaces
  // ------------------------------------------------------------------

  const ROUND := [Begin, Fetch, Sift]

  lemma RoundRuns(cfg: Config, w: World)
    requires w.phase.Idle?
    ensures Legal(cfg, w, ROUND)
    ensures var found := Filter(cfg, ReadMessages(w.mailbox, w.baseline, cfg.limit), w.baseline);
            Run(cfg, w, ROUND) == if found == [] then w else w.(pending := found, signal := true)
  {
    assert ROUND[1..] == [Fetch, Sift] && [Fetch, Sift][1..] == [Sift] && [Sift][1..] == [];
    var w1 := Next(cfg, w, Begin);
    var w2 := Next(cfg, w1, Fetch);
    var w3 := Next(cfg, w2, Sift);
    assert Legal(cfg, w3, []) && Legal(cfg, w2, [Sift]) && Legal(cfg, w1, [Fetch, Sift]);
    assert Run(cfg, w2, [Sift]) == w3 && Run(cfg, w1, [Fetch, Sift]) == w3;
  }

  /** A message is pending after an undisturbed round exactly when it surfaces and fewer than
      `limit` messages, of any urgency, lie between the cursor and it; unless the round finds
      nothing at all, which leaves pending as it was. */
  lemma RoundSurfacesIff(cfg: Config, w: World, k: nat)
    requires w.phase.Idle? && w.pending == [] && Increasing(w.mailbox)
    requires k < |Since(w.mailbox, w.baseline)|
    ensures Legal(cfg, w, ROUND)
    ensures var m := Since(w.mailbox, w.baseline)[k];
            m in Run(cfg, w, ROUND).pending <==> Rank(m.urgency) >= cfg.floor && k < cfg.limit
  {
    RoundRuns(cfg, w);
    SinceIncreasing(w.mailbox, w.baseline);
    var all := Since(w.mailbox, w.baseline);
    assert all[k] in all;
    var ms := Take(all, cfg.limit);
    if k < cfg.limit {
      assert ms[k] == all[k];
    } else {
      assert forall j :: 0 <= j < |ms| ==> ms[j].id < all[k].id;
    }
  }

  /** The urgencies, least urgent first; an unknown one is below them all. */
  function Urgencies(): seq<string> {
    ["low", "normal", "high", "blocker"]
  }

  /** In that order, `urgency` stands at the floor or after it. */
  predicate AtOrAbove(urgency: string, floor: string) {
    exists i, j :: 0 <= i <= j < |Urgencies()| && Urgencies()[i] == floor && Urgencies()[j] == urgency
  }

  /** A round surfaces by urgency: exactly the messages at or above the floor, among the first
      `limit` past the cursor. */
  lemma RoundSurfacesUrgent(cfg: Config, floor: string, w: World, k: nat)
    requires w.phase.Idle? && w.pending == [] && Increasing(w.mailbox)
    requires k < |Since(w.mailbox, w.baseline)| && floor in Urgencies() && cfg.floor == Rank(floor)
    ensures var m := Since(w.mailbox, w.baseline)[k];
            m in Run(cfg, w, ROUND).pending <==> AtOrAbove(m.urgency, floor) && k < cfg.limit
  {
    hide Run, Since;
    RoundSurfacesIff(cfg, w, k);
    RankIsPlace(Since(w.mailbox, w.baseline)[k].urgency, floor);
  }

  lemma RankIsPlace(urgency: string, floor: string)
    requires floor in Urgencies()
    ensures Rank(urgency) >= Rank(floor) <==> AtOrAbove(urgency, floor)
  {
    var us := Urgencies();
    assert us[0] == "low" && us[1] == "normal" && us[2] == "high" && us[3] == "blocker";
    assert forall i :: 0 <= i < 4 ==> Rank(us[i]) == i + 1;
    var i :| 0 <= i < |us| && us[i] == floor;
    if Rank(urgency) >= Rank(floor) {
      assert us[Rank(urgency) - 1] == urgency;
    }
  }

  /** Below-floor mail filling the query's limit just past the cursor. */
  predicate Blocked(cfg: Config, mailbox: seq<Mail>, baseline: int) {
    var ms := ReadMessages(mailbox, baseline, cfg.limit);
    |ms| == cfg.limit && forall m <- ms :: Rank(m.urgency) < cfg.floor
  }

  lemma {:induction false} SinceAppend(mailbox: seq<Mail>, m: Mail, since: int)
    ensures Since(mailbox + [m], since) == Since(mailbox, since) + if m.id > since then [m] else []
  {
    if mailbox == [] {
      assert mailbox + [m] == [m];
    } else {
      assert (mailbox + [m])[1..] == mailbox[1..] + [m];
      SinceAppend(mailbox[1..], m, since);
    }
  }

  ghost predicate Starved(cfg: Config, w: World, baseline: int) {
    && w.baseline == baseline && w.pending == []
    && Blocked(cfg, w.mailbox, baseline)
    && (w.phase.Began? ==> w.phase.since == baseline)
    && (w.phase.Fetched? ==> forall m <- w.phase.msgs :: Rank(m.urgency) < cfg.floor)
  }

  lemma BlockedAppend(cfg: Config, mailbox: seq<Mail>, m: Mail, baseline: int)
    requires Blocked(cfg, mailbox, baseline)
    ensures Blocked(cfg, mailbox + [m], baseline)
  {
    SinceAppend(mailbox, m, baseline);
    hide Since;
    var all := Since(mailbox, baseline);
    assert Take(all, cfg.limit) == all[..cfg.limit];
    assert (all + [m])[..cfg.limit] == all[..cfg.limit];
  }

  lemma BelowFloorFiltersOut(cfg: Config, ms: seq<Mail>, baseline: int)
    requires forall m <- ms :: Rank(m.urgency) < cfg.floor
    ensures Filter(cfg, ms, baseline) == []
  {
    var found := Filter(cfg, ms, baseline);
    assert forall k :: 0 <= k < |found| ==> found[k] in found;
  }

  lemma StarvedStep(cfg: Config, w: World, step: Step)
    requires Starved(cfg, w, w.baseline) && Enabled(w, step)
    ensures Starved(cfg, Next(cfg, w, step), Next(cfg, w, step).baseline)
    ensures Next(cfg, w, step).returned == w.returned
  {
    hide Blocked, Rank;
    match step {
      case Insert(m) => BlockedAppend(cfg, w.mailbox, m, w.baseline);
      case Fetch => BlockedRead(cfg, w.mailbox, w.baseline);
      case Acknowledge => assert w.returned + [] == w.returned;
      case Sift => BelowFloorFiltersOut(cfg, w.phase.msgs, w.baseline);
      case _ =>
    }
  }

  lemma BlockedRead(cfg: Config, mailbox: seq<Mail>, baseline: int)
    requires Blocked(cfg, mailbox, baseline)
    ensures forall m <- ReadMessages(mailbox, baseline, cfg.limit) :: Rank(m.urgency) < cfg.floor
  {
  }

  /** From then on the watcher returns nothing, whatever arrives and however often it polls:
      it reads the same messages again each time. */
  lemma {:induction false} BlockedForever(cfg: Config, w: World, steps: seq<Step>)
    requires Starved(cfg, w, w.baseline) && Legal(cfg, w, steps)
    ensures Run(cfg, w, steps).returned == w.returned && Run(cfg, w, steps).pending == []
    decreases |steps|
  {
    if steps != [] {
      var w' := Next(cfg, w, steps[0]);
      StarvedStep(cfg, w, steps[0]);
      hide Next, Starved, Enabled;
      BlockedForever(cfg, w', steps[1..]);
    }
  }

  // ------------------------------------------------------------------
  // The object
  // ------------------------------------------------------------------

  class Watcher {
    const cfg: Config
    var pending: seq<Mail>
    var signal: bool
    var shownBaseline: int

    constructor (baseline: int, cfg: Config)
      ensures this.cfg == cfg && pending == [] && !signal && shownBaseline == baseline
    {
      this.cfg := cfg;
      pending, signal, shownBaseline := [], false, baseline;
    }

    /** Returns what is pending and moves the cursor past all of it. */
    method AcknowledgeMail() returns (msgs: seq<Mail>)
      modifies this
      ensures msgs == old(pending) && pending == [] && !signal
      ensures shownBaseline == Advance(old(shownBaseline), old(pending))
    {
      msgs := pending;
      var i := 0;
      while i < |msgs|
        invariant 0 <= i <= |msgs| && msgs == old(pending)
        invariant Advance(shownBaseline, msgs[i..]) == Advance(old(shownBaseline), msgs)
      {
        assert msgs[i..][1..] == msgs[i + 1..];
        if msgs[i].id > shownBaseline {
          shownBaseline := msgs[i].id;
        }
        i := i + 1;
      }
      pending, signal := [], false;
    }

    /** The end of a poll round: `msgs` were read earlier, perhaps with an older cursor. */
    method SiftMessages(msgs: seq<Mail>)
      modifies this
      ensures var found := Filter(cfg, msgs, shownBaseline);
              if found == [] then pending == old(pending) && signal == old(signal) else pending == found && signal
      ensures shownBaseline == old(shownBaseline)
    {
      hide Filter;
      var found: seq<Mail> := [];
      assert msgs[0..] == msgs;
      NothingFiltered(cfg, shownBaseline);
      for i := 0 to |msgs|
        invariant pending == old(pending) && signal == old(signal) && shownBaseline == old(shownBaseline)
        invariant Filter(cfg, msgs, shownBaseline) == found + Filter(cfg, msgs[i..], shownBaseline)
      {
        assert msgs[i..][1..] == msgs[i + 1..];
        ghost var rest := Filter(cfg, msgs[i + 1..], shownBaseline);
        FilterFirst(cfg, msgs[i..], shownBaseline);
        assert [] + rest == rest;
        if msgs[i].id > shownBaseline && Rank(msgs[i].urgency) >= cfg.floor {
          Regroup(found, [msgs[i]], rest);
          found := found + [msgs[i]];
        }
      }
      if found != [] {
        pending := found;
        signal := true;
      }
    }
  }
}
