/**
 The live transcript card (`LiveTranscriptFolder` in src/lyre/dashboard/activity.py): folds
 transcript rows into activity events as they arrive, joining streamed deltas into runs.
 Rendering of tool and note cards is left to the caller: such a row carries its card.
 */
module LiveFold {
  import opened Wrappers
  import opened Seqs

  datatype RunKind = Said | Thinking

  datatype Row =
    | Delta(kind: RunKind, text: string, at: string)
    | ToolOrNote(card: string, at: string)
    | Lifecycle                     // turn_end and the rest: ends a run, makes no event

  datatype Event =
    | RunEvent(kind: RunKind, text: string, at: string, streaming: bool)
    | CardEvent(card: string, at: string)

  datatype Config = Config(startedAt: string, maxEvents: Option<nat>, maxOpen: int, isSpace: char -> bool)

  const ELLIPSIS: char := '\U{2026}'

  // ------------------------------------------------------------------
  // Strings
  // ------------------------------------------------------------------

  /** s[-n:] as a Python slice: for n = 0 it is all of s, for negative n it drops -n characters. */
  function LastChars(s: string, n: int): string {
    if n > 0 then (if n >= |s| then s else s[|s| - n..])
    else if -n >= |s| then [] else s[-n..]
  }

  function Clip(maxOpen: int, s: string): string {
    if |s| <= maxOpen then s else [ELLIPSIS] + LastChars(s, maxOpen)
  }

  function StripLeft(isSpace: char -> bool, s: string): string {
    if s != [] && isSpace(s[0]) then StripLeft(isSpace, s[1..]) else s
  }

  function StripRight(isSpace: char -> bool, s: string): string {
    if s != [] && isSpace(s[|s| - 1]) then StripRight(isSpace, s[..|s| - 1]) else s
  }

  function Strip(isSpace: char -> bool, s: string): string {
    StripRight(isSpace, StripLeft(isSpace, s))
  }

  function Or(a: string, b: string): string {
    if a != "" then a else b
  }

  /** What a deque with this maxlen keeps. */
  function Newest<T>(cap: Option<nat>, s: seq<T>): seq<T> {
    if cap.None? || |s| <= cap.value then s else s[|s| - cap.value..]
  }

  // ------------------------------------------------------------------
  // The folder, row by row
  // ------------------------------------------------------------------

  datatype Folder = Folder(events: seq<Event>, text: string, textAt: Option<string>, think: string, thinkAt: Option<string>)

  const EMPTY := Folder([], "", None, "", None)

  function RunEvents(cfg: Config, kind: RunKind, buf: string, at: string, streaming: bool): seq<Event> {
    var full := Strip(cfg.isSpace, buf);
    if full == "" then [] else [RunEvent(kind, full, Or(at, cfg.startedAt), streaming)]
  }

  function AtOf(at: Option<string>): string {
    if at.None? then "" else at.value
  }

  function FlushText(cfg: Config, f: Folder): Folder {
    f.(events := Newest(cfg.maxEvents, f.events + RunEvents(cfg, Said, f.text, AtOf(f.textAt), false)), text := "", textAt := None)
  }

  function FlushThink(cfg: Config, f: Folder): Folder {
    f.(events := Newest(cfg.maxEvents, f.events + RunEvents(cfg, Thinking, f.think, AtOf(f.thinkAt), false)), think := "", thinkAt := None)
  }

  function IngestRow(cfg: Config, f: Folder, row: Row): Folder {
    match row
    case Delta(Said, text, at) =>
      var g := FlushThink(cfg, f);
      g.(text := Clip(cfg.maxOpen, g.text + text), textAt := if g.text == "" then Some(at) else g.textAt)
    case Delta(Thinking, text, at) =>
      var g := FlushText(cfg, f);
      g.(think := Clip(cfg.maxOpen, g.think + text), thinkAt := if g.think == "" then Some(at) else g.thinkAt)
    case ToolOrNote(card, at) =>
      var g := FlushThink(cfg, FlushText(cfg, f));
      g.(events := Newest(cfg.maxEvents, g.events + [CardEvent(card, at)]))
    case Lifecycle => FlushThink(cfg, FlushText(cfg, f))
  }

  function Ingest(cfg: Config, f: Folder, rows: seq<Row>): Folder
    decreases |rows|
  {
    if rows == [] then f else Ingest(cfg, IngestRow(cfg, f, rows[0]), rows[1..])
  }

  function IngestCalls(cfg: Config, f: Folder, calls: seq<seq<Row>>): Folder
    decreases |calls|
  {
    if calls == [] then f else IngestCalls(cfg, Ingest(cfg, f, calls[0]), calls[1..])
  }

  function Snapshot(cfg: Config, f: Folder, streaming: bool): seq<Event> {
    f.events + RunEvents(cfg, Said, f.text, AtOf(f.textAt), streaming)
    + RunEvents(cfg, Thinking, f.think, AtOf(f.thinkAt), streaming)
  }

  // ------------------------------------------------------------------
  // Batch grouping of the whole stream, the reference
  // ------------------------------------------------------------------

  /** How many rows at the front are deltas of this kind. */
  function RunLength(rows: seq<Row>, kind: RunKind): (n: nat)
    ensures n <= |rows|
    ensures rows != [] && rows[0].Delta? && rows[0].kind == kind ==> n > 0
  {
    if rows == [] || !rows[0].Delta? || rows[0].kind != kind then 0 else 1 + RunLength(rows[1..], kind)
  }

  function Texts(run: seq<Row>): string {
    FlatMap((r: Row) => if r.Delta? then r.text else "", run)
  }

  /** When a run began: the time of its first delta that carries text. */
  function Began(run: seq<Row>): string {
    if run == [] then ""
    else if run[0].Delta? && (run[0].text != "" || |run| == 1) then run[0].at
    else Began(run[1..])
  }

  /** A whole run, clipped once. */
  function WholeRun(cfg: Config, run: seq<Row>, streaming: bool): seq<Event> {
    if run == [] || !run[0].Delta? then []
    else RunEvents(cfg, run[0].kind, Clip(cfg.maxOpen, Texts(run)), Began(run), streaming)
  }

  /** The events of the stream's maximal same-kind runs and of its cards, leaving out the run
      the stream ends in. */
  function Grouped(cfg: Config, rows: seq<Row>): seq<Event>
    decreases |rows|
  {
    if rows == [] then []
    else match rows[0]
      case Delta(kind, _, _) =>
        var n := RunLength(rows, kind);
        if n == |rows| then [] else WholeRun(cfg, rows[..n], false) + Grouped(cfg, rows[n..])
      case ToolOrNote(card, at) => [CardEvent(card, at)] + Grouped(cfg, rows[1..])
      case Lifecycle => Grouped(cfg, rows[1..])
  }

  /** The run that the stream ends in, [] when its last row is not a delta. */
  function OpenRun(rows: seq<Row>): seq<Row>
    decreases |rows|
  {
    if rows == [] then []
    else match rows[0]
      case Delta(kind, _, _) =>
        var n := RunLength(rows, kind);
        if n == |rows| then rows else OpenRun(rows[n..])
      case _ => OpenRun(rows[1..])
  }

  // ------------------------------------------------------------------
  // What an event of a run tells
  // ------------------------------------------------------------------

  /** `t` is what is left of `s` without the white space around it. */
  ghost predicate IsTrimmed(isSpace: char -> bool, s: string, t: string) {
    exists i, j :: 0 <= i <= j <= |s| && IsMiddle(isSpace, s, i, j) && t == s[i..j]
  }

  /** All around s[i..j] is white space, and nothing at its ends. */
  ghost predicate IsMiddle(isSpace: char -> bool, s: string, i: int, j: int)
    requires 0 <= i <= j <= |s|
  {
    && (forall k :: 0 <= k < i || j <= k < |s| ==> isSpace(s[k]))
    && (i < j ==> !isSpace(s[i]) && !isSpace(s[j - 1]))
  }

  lemma {:induction false} StripRightIs(isSpace: char -> bool, s: string) returns (j: int)
    ensures 0 <= j <= |s| && StripRight(isSpace, s) == s[..j]
    ensures (forall k :: j <= k < |s| ==> isSpace(s[k])) && (0 < j ==> !isSpace(s[j - 1]))
  {
    if s != [] && isSpace(s[|s| - 1]) {
      j := StripRightIs(isSpace, s[..|s| - 1]);
      assert s[..|s| - 1][..j] == s[..j] && forall k :: 0 <= k < |s| - 1 ==> s[..|s| - 1][k] == s[k];
    } else {
      j := |s|;
    }
  }

  lemma {:induction false} StripLeftIs(isSpace: char -> bool, s: string) returns (i: int)
    ensures 0 <= i <= |s| && StripLeft(isSpace, s) == s[i..]
    ensures (forall k :: 0 <= k < i ==> isSpace(s[k])) && (i < |s| ==> !isSpace(s[i]))
  {
    if s != [] && isSpace(s[0]) {
      i := StripLeftIs(isSpace, s[1..]);
      assert forall k :: 0 < k < i + 1 ==> s[k] == s[1..][k - 1];
      i := i + 1;
    } else {
      i := 0;
    }
  }

  lemma StripIs(isSpace: char -> bool, s: string)
    ensures IsTrimmed(isSpace, s, Strip(isSpace, s))
    ensures Strip(isSpace, s) == "" <==> forall k :: 0 <= k < |s| ==> isSpace(s[k])
  {
    hide StripLeft, StripRight;
    var i := StripLeftIs(isSpace, s);
    var j := StripRightIs(isSpace, s[i..]);
    assert forall k :: i <= k < |s| ==> s[k] == s[i..][k - i];
    assert s[i..][..j] == s[i..i + j];
    assert IsMiddle(isSpace, s, i, i + j);
  }

  /** The newest events are all of them, or the last so many. */
  lemma NewestIs<T>(cap: Option<nat>, s: seq<T>)
    ensures cap == None || |s| <= cap.value ==> Newest(cap, s) == s
    ensures cap.Some? && |s| > cap.value ==>
              |Newest(cap, s)| == cap.value && forall k :: 0 <= k < cap.value ==> Newest(cap, s)[k] == s[|s| - cap.value + k]
  {
  }

  /** A clipped text is the text itself when it is short enough, and else a mark and its last
      maxOpen characters. */
  lemma ClipTells(maxOpen: int, s: string)
    requires maxOpen > 0
    ensures |s| <= maxOpen ==> Clip(maxOpen, s) == s
    ensures |s| > maxOpen ==>
              var c := Clip(maxOpen, s);
              |c| == maxOpen + 1 && c[0] == '\U{2026}' && forall k :: 1 <= k <= maxOpen ==> c[k] == s[|s| - 1 - maxOpen + k]
  {
  }

  /** The event of a run: its kind, its clipped text without the white space around it, the time
      it began or else the start of the wakeup; a blank run makes no event. */
  lemma WholeRunTells(cfg: Config, run: seq<Row>, streaming: bool)
    requires run != [] && run[0].Delta?
    ensures var text, out := Clip(cfg.maxOpen, Texts(run)), WholeRun(cfg, run, streaming);
            if forall k :: 0 <= k < |text| ==> cfg.isSpace(text[k]) then out == []
            else
              && |out| == 1 && out[0].RunEvent? && out[0].kind == run[0].kind && out[0].streaming == streaming
              && IsTrimmed(cfg.isSpace, text, out[0].text)
              && out[0].at == if Began(run) != "" then Began(run) else cfg.startedAt
  {
    hide Clip, Texts, Began, Strip;
    StripIs(cfg.isSpace, Clip(cfg.maxOpen, Texts(run)));
  }

  // ------------------------------------------------------------------
  // Clipping a growing buffer
  // ------------------------------------------------------------------

  lemma LastOfConcat(p: string, q: string, n: int)
    requires 0 < n <= |q|
    ensures LastChars(p + q, n) == LastChars(q, n)
  {
    assert (p + q)[|p + q| - n..] == q[|q| - n..];
  }

  lemma ClipTwice(maxOpen: int, x: string, y: string)
    requires maxOpen > 0
    ensures Clip(maxOpen, Clip(maxOpen, x) + y) == Clip(maxOpen, x + y)
    ensures Clip(maxOpen, x) == "" <==> x == ""
  {
    if |x| > maxOpen {
      var cut, kept := x[..|x| - maxOpen], x[|x| - maxOpen..];
      assert x == cut + kept;
      Regroup(cut, kept, y);
      Regroup([ELLIPSIS], kept, y);
      LastOfConcat(cut, kept + y, maxOpen);
      LastOfConcat([ELLIPSIS], kept + y, maxOpen);
    }
  }

  function Repeat(c: char, n: nat): (s: string)
    ensures |s| == n && forall k :: 0 <= k < n ==> s[k] == c
  {
    if n == 0 then [] else [c] + Repeat(c, n - 1)
  }

  /** With no room at all a clipped buffer keeps everything, or drops from the wrong end. */
  lemma ClipTwiceFails(maxOpen: int) returns (x: string, y: string)
    requires maxOpen <= 0
    ensures Clip(maxOpen, Clip(maxOpen, x) + y) != Clip(maxOpen, x + y)
  {
    if maxOpen == 0 {
      x, y := "a", "";
      assert Clip(maxOpen, x) == [ELLIPSIS] + x;
    } else {
      x, y := "", Repeat('a', -maxOpen);
      assert Clip(maxOpen, x) == [ELLIPSIS];
      assert x + y == y;
      assert |Clip(maxOpen, [ELLIPSIS] + y)| == 2;
    }
  }

  /** Clipping piece by piece equals clipping once exactly when some characters are kept. */
  lemma ClipFoldsIff(maxOpen: int)
    ensures (forall x, y :: Clip(maxOpen, Clip(maxOpen, x) + y) == Clip(maxOpen, x + y)) <==> maxOpen > 0
  {
    if maxOpen > 0 {
      forall x, y
        ensures Clip(maxOpen, Clip(maxOpen, x) + y) == Clip(maxOpen, x + y)
      {
        ClipTwice(maxOpen, x, y);
      }
    } else {
      var x, y := ClipTwiceFails(maxOpen);
    }
  }

  lemma NewestTwice<T>(cap: Option<nat>, a: seq<T>, b: seq<T>)
    ensures Newest(cap, Newest(cap, a) + b) == Newest(cap, a + b)
  {
  }

  // ------------------------------------------------------------------
  // Folding refines batch grouping
  // ------------------------------------------------------------------

  lemma {:induction false} RunLengthAppend(rows: seq<Row>, x: Row, kind: RunKind)
    ensures RunLength(rows + [x], kind) ==
            if RunLength(rows, kind) < |rows| then RunLength(rows, kind)
            else if x.Delta? && x.kind == kind then |rows| + 1 else |rows|
  {
    if rows == [] {
      assert rows + [x] == [x];
    } else {
      assert (rows + [x])[1..] == rows[1..] + [x];
      RunLengthAppend(rows[1..], x, kind);
    }
  }

  predicate Continues(run: seq<Row>, x: Row) {
    run != [] && run[0].Delta? && x.Delta? && run[0].kind == x.kind
  }

  /** The events that one more row settles: the open run if the row ends it, then its card. */
  function Settled(cfg: Config, run: seq<Row>, x: Row): seq<Event> {
    (if Continues(run, x) then [] else WholeRun(cfg, run, false))
    + (if x.ToolOrNote? then [CardEvent(x.card, x.at)] else [])
  }

  function Reopened(run: seq<Row>, x: Row): seq<Row> {
    if Continues(run, x) then run + [x] else if x.Delta? then [x] else []
  }

  lemma SettledIs(cfg: Config, run: seq<Row>, x: Row)
    ensures var whole := WholeRun(cfg, run, false);
            Settled(cfg, run, x) == if Continues(run, x) then [] else if x.ToolOrNote? then whole + [CardEvent(x.card, x.at)] else whole
  {
    hide WholeRun;
    assert WholeRun(cfg, run, false) + [] == WholeRun(cfg, run, false);
  }

  /** One more row at the end of the stream either extends the open run or closes it. */
  lemma {:induction false} GroupAppend(cfg: Config, rows: seq<Row>, x: Row)
    ensures OpenRun(rows + [x]) == Reopened(OpenRun(rows), x)
    ensures Grouped(cfg, rows + [x]) == Grouped(cfg, rows) + Settled(cfg, OpenRun(rows), x)
    decreases |rows|
  {
    var all := rows + [x];
    if rows == [] {
      assert all == [x];
      SingleRow(cfg, x);
      SettledIs(cfg, [], x);
    } else if rows[0].Delta? {
      var n := RunLength(rows, rows[0].kind);
      RunLengthAppend(rows, x, rows[0].kind);
      hide WholeRun, RunLength, Settled, Reopened;
      if n < |rows| {
        var run, rest := rows[..n], rows[n..];
        assert all[..n] == run && all[n..] == rest + [x];
        GroupAppend(cfg, rest, x);
        Regroup(WholeRun(cfg, run, false), Grouped(cfg, rest), Settled(cfg, OpenRun(rest), x));
      } else {
        assert all[..n] == rows && all[n..] == [x];
        OneRunAppend(cfg, rows, x, n);
      }
    } else {
      assert all[1..] == rows[1..] + [x];
      GroupAppend(cfg, rows[1..], x);
      hide WholeRun, Settled, Reopened;
      if rows[0].ToolOrNote? {
        Regroup([CardEvent(rows[0].card, rows[0].at)], Grouped(cfg, rows[1..]), Settled(cfg, OpenRun(rows[1..]), x));
      }
    }
  }

  lemma OneRunAppend(cfg: Config, rows: seq<Row>, x: Row, n: nat)
    requires rows != [] && rows[0].Delta? && n == |rows| == RunLength(rows, rows[0].kind)
    ensures OpenRun(rows + [x]) == Reopened(OpenRun(rows), x)
    ensures Grouped(cfg, rows + [x]) == Grouped(cfg, rows) + Settled(cfg, OpenRun(rows), x)
  {
    var all := rows + [x];
    RunLengthAppend(rows, x, rows[0].kind);
    SingleRow(cfg, x);
    SettledIs(cfg, rows, x);
    hide WholeRun, RunLength, Settled;
    assert OpenRun(rows) == rows && Grouped(cfg, rows) == [];
    assert all[..n] == rows && all[n..] == [x];
    assert [] + Settled(cfg, rows, x) == Settled(cfg, rows, x);
    var whole := WholeRun(cfg, rows, false);
    assert whole + [] == whole;
  }

  lemma SingleRow(cfg: Config, x: Row)
    ensures OpenRun([x]) == if x.Delta? then [x] else []
    ensures Grouped(cfg, [x]) == if x.ToolOrNote? then [CardEvent(x.card, x.at)] else []
    ensures WholeRun(cfg, [], false) == []
  {
    if !x.Delta? {
      assert [x][1..] == [];
    }
  }

  predicate OneKind(run: seq<Row>) {
    run != [] ==> run[0].Delta? && forall k :: 0 <= k < |run| ==> run[k].Delta? && run[k].kind == run[0].kind
  }

  lemma {:induction false} TextsAppend(run: seq<Row>, x: Row)
    requires OneKind(run) && x.Delta?
    ensures Texts(run + [x]) == Texts(run) + x.text
    ensures Began(run + [x]) == if Texts(run) == "" then x.at else Began(run)
  {
    if run == [] {
      assert run + [x] == [x];
    } else {
      assert (run + [x])[1..] == run[1..] + [x];
      TextsAppend(run[1..], x);
    }
  }

  /** A buffer and its time stamp stand for this run; [] for no run. */
  ghost predicate Holds(cfg: Config, buf: string, at: Option<string>, run: seq<Row>) {
    buf == Clip(cfg.maxOpen, Texts(run)) && (buf != "" ==> AtOf(at) == Began(run))
  }

  /** The folder stands for the stream so far: its events are the newest of the closed groups,
      one buffer holds the open run and the other is empty. */
  ghost predicate Rep(cfg: Config, f: Folder, rows: seq<Row>) {
    var run := OpenRun(rows);
    && f.events == Newest(cfg.maxEvents, Grouped(cfg, rows))
    && OneKind(run)
    && Holds(cfg, f.text, f.textAt, if run != [] && run[0].kind == Said then run else [])
    && Holds(cfg, f.think, f.thinkAt, if run != [] && run[0].kind == Thinking then run else [])
  }

  lemma NoRunIsEmpty(cfg: Config, buf: string, at: Option<string>)
    requires cfg.maxOpen > 0
    ensures Holds(cfg, buf, at, []) <==> buf == ""
    ensures forall streaming, kind :: RunEvents(cfg, kind, "", AtOf(at), streaming) == []
  {
    ClipTwice(cfg.maxOpen, "", "");
  }

  lemma HeldRunEvents(cfg: Config, buf: string, at: Option<string>, run: seq<Row>, kind: RunKind, streaming: bool)
    requires cfg.maxOpen > 0 && OneKind(run) && (run != [] ==> run[0].kind == kind) && Holds(cfg, buf, at, run)
    ensures RunEvents(cfg, kind, buf, AtOf(at), streaming) == WholeRun(cfg, run, streaming)
  {
    if run == [] {
      NoRunIsEmpty(cfg, buf, at);
    }
    assert buf == "" ==> RunEvents(cfg, kind, buf, AtOf(at), streaming) == [] && WholeRun(cfg, run, streaming) == [];
  }

  /** One delta more into the buffer that holds its run, or that is empty. */
  lemma HoldsAppend(cfg: Config, buf: string, at: Option<string>, run: seq<Row>, x: Row)
    requires cfg.maxOpen > 0 && x.Delta? && OneKind(run) && Holds(cfg, buf, at, run)
    ensures Holds(cfg, Clip(cfg.maxOpen, buf + x.text), if buf == "" then Some(x.at) else at, run + [x])
  {
    TextsAppend(run, x);
    ClipTwice(cfg.maxOpen, Texts(run), x.text);
    hide Texts, Began, Clip;
  }

  lemma RunOf(run: seq<Row>, x: Row)
    requires OneKind(run) && x.Delta?
    ensures OneKind(if Continues(run, x) then run + [x] else [x])
    ensures !Continues(run, x) ==> [] + [x] == [x]
  {
  }

  /** What flushing both buffers appends is the open run, whole. */
  lemma FlushIsWholeRun(cfg: Config, f: Folder, rows: seq<Row>)
    requires cfg.maxOpen > 0 && Rep(cfg, f, rows)
    ensures RunEvents(cfg, Said, f.text, AtOf(f.textAt), false)
            == if OpenRun(rows) != [] && OpenRun(rows)[0].kind == Said then WholeRun(cfg, OpenRun(rows), false) else []
    ensures RunEvents(cfg, Thinking, f.think, AtOf(f.thinkAt), false)
            == if OpenRun(rows) != [] && OpenRun(rows)[0].kind == Thinking then WholeRun(cfg, OpenRun(rows), false) else []
    ensures !(OpenRun(rows) != [] && OpenRun(rows)[0].kind == Said) ==> f.text == ""
    ensures !(OpenRun(rows) != [] && OpenRun(rows)[0].kind == Thinking) ==> f.think == ""
  {
    hide RunEvents, OpenRun, Grouped;
    var run := OpenRun(rows);
    HeldRunEvents(cfg, f.text, f.textAt, if run != [] && run[0].kind == Said then run else [], Said, false);
    HeldRunEvents(cfg, f.think, f.thinkAt, if run != [] && run[0].kind == Thinking then run else [], Thinking, false);
    NoRunIsEmpty(cfg, f.text, f.textAt);
    NoRunIsEmpty(cfg, f.think, f.thinkAt);
    assert WholeRun(cfg, [], false) == [];
  }

  lemma TextKeepsRep(cfg: Config, f: Folder, rows: seq<Row>, x: Row)
    requires cfg.maxOpen > 0 && Rep(cfg, f, rows) && x.Delta? && x.kind == Said
    ensures Rep(cfg, IngestRow(cfg, f, x), rows + [x])
  {
    SingleRow(cfg, x);
    hide RunEvents, OpenRun, Grouped, WholeRun, Holds, Clip, Newest;
    var run, g := OpenRun(rows), Grouped(cfg, rows);
    GroupAppend(cfg, rows, x);
    FlushIsWholeRun(cfg, f, rows);
    NoRunIsEmpty(cfg, "", None);
    var whole := WholeRun(cfg, run, false);
    SettledIs(cfg, run, x);
    hide Settled;
    assert g + [] == g;
    NewestTwice(cfg.maxEvents, g, []);
    NewestTwice(cfg.maxEvents, g, whole);
    RunOf(run, x);
    HoldsAppend(cfg, f.text, f.textAt, if Continues(run, x) then run else [], x);
  }

  lemma ThinkKeepsRep(cfg: Config, f: Folder, rows: seq<Row>, x: Row)
    requires cfg.maxOpen > 0 && Rep(cfg, f, rows) && x.Delta? && x.kind == Thinking
    ensures Rep(cfg, IngestRow(cfg, f, x), rows + [x])
  {
    SingleRow(cfg, x);
    hide RunEvents, OpenRun, Grouped, WholeRun, Holds, Clip, Newest;
    var run, g := OpenRun(rows), Grouped(cfg, rows);
    GroupAppend(cfg, rows, x);
    FlushIsWholeRun(cfg, f, rows);
    NoRunIsEmpty(cfg, "", None);
    var whole := WholeRun(cfg, run, false);
    SettledIs(cfg, run, x);
    hide Settled;
    assert g + [] == g;
    NewestTwice(cfg.maxEvents, g, []);
    NewestTwice(cfg.maxEvents, g, whole);
    RunOf(run, x);
    HoldsAppend(cfg, f.think, f.thinkAt, if Continues(run, x) then run else [], x);
  }

  lemma BreakKeepsRep(cfg: Config, f: Folder, rows: seq<Row>, x: Row)
    requires cfg.maxOpen > 0 && Rep(cfg, f, rows) && !x.Delta?
    ensures Rep(cfg, IngestRow(cfg, f, x), rows + [x])
  {
    SingleRow(cfg, x);
    hide RunEvents, OpenRun, Grouped, WholeRun, Holds, Clip, Newest;
    var g, whole := Grouped(cfg, rows), WholeRun(cfg, OpenRun(rows), false);
    var cap := cfg.maxEvents;
    GroupAppend(cfg, rows, x);
    FlushIsWholeRun(cfg, f, rows);
    NoRunIsEmpty(cfg, "", None);
    SettledIs(cfg, OpenRun(rows), x);
    hide Settled;
    assert g + [] == g && (g + whole) + [] == g + whole;
    NewestTwice(cap, g, []);
    NewestTwice(cap, g, whole);
    NewestTwice(cap, g + whole, []);
    if x.ToolOrNote? {
      Regroup(g, whole, [CardEvent(x.card, x.at)]);
      NewestTwice(cap, g + whole, [CardEvent(x.card, x.at)]);
    }
  }

  lemma RowKeepsRep(cfg: Config, f: Folder, rows: seq<Row>, x: Row)
    requires cfg.maxOpen > 0 && Rep(cfg, f, rows)
    ensures Rep(cfg, IngestRow(cfg, f, x), rows + [x])
  {
    hide Rep, IngestRow;
    if !x.Delta? {
      BreakKeepsRep(cfg, f, rows, x);
    } else if x.kind == Said {
      TextKeepsRep(cfg, f, rows, x);
    } else {
      ThinkKeepsRep(cfg, f, rows, x);
    }
  }

  lemma {:induction false} IngestKeepsRep(cfg: Config, f: Folder, before: seq<Row>, rows: seq<Row>)
    requires cfg.maxOpen > 0 && Rep(cfg, f, before)
    ensures Rep(cfg, Ingest(cfg, f, rows), before + rows)
    decreases |rows|
  {
    hide Rep, IngestRow;
    if rows == [] {
      assert before + rows == before;
    } else {
      RowKeepsRep(cfg, f, before, rows[0]);
      assert before + rows == (before + [rows[0]]) + rows[1..];
      IngestKeepsRep(cfg, IngestRow(cfg, f, rows[0]), before + [rows[0]], rows[1..]);
    }
  }

  function Stream(calls: seq<seq<Row>>): seq<Row> {
    FlatMap((c: seq<Row>) => c, calls)
  }

  lemma {:induction false} CallsKeepRep(cfg: Config, f: Folder, before: seq<Row>, calls: seq<seq<Row>>)
    requires cfg.maxOpen > 0 && Rep(cfg, f, before)
    ensures Rep(cfg, IngestCalls(cfg, f, calls), before + Stream(calls))
    decreases |calls|
  {
    hide Rep, Ingest;
    if calls == [] {
      assert before + Stream(calls) == before;
    } else {
      IngestKeepsRep(cfg, f, before, calls[0]);
      assert before + Stream(calls) == (before + calls[0]) + Stream(calls[1..]);
      CallsKeepRep(cfg, Ingest(cfg, f, calls[0]), before + calls[0], calls[1..]);
    }
  }

  /** However a stream of rows is split into calls, the stored events are the newest of those
      that grouping the whole stream gives, each run clipped once; a snapshot adds the open
      run and nothing else, and at most one of the two buffers is in use. */
  lemma FoldRefinesGrouping(cfg: Config, calls: seq<seq<Row>>, streaming: bool)
    requires cfg.maxOpen > 0
    ensures var f := IngestCalls(cfg, EMPTY, calls);
            var rows := Stream(calls);
            && f.events == Newest(cfg.maxEvents, Grouped(cfg, rows))
            && Snapshot(cfg, f, streaming) == f.events + WholeRun(cfg, OpenRun(rows), streaming)
            && (f.text == "" || f.think == "")
  {
    var f := IngestCalls(cfg, EMPTY, calls);
    var rows := Stream(calls);
    NoRunIsEmpty(cfg, "", None);
    CallsKeepRep(cfg, EMPTY, [], calls);
    assert [] + rows == rows;
    hide Rep, Stream, IngestCalls;
    SnapshotOfRep(cfg, f, rows, streaming);
  }

  lemma SnapshotOfRep(cfg: Config, f: Folder, rows: seq<Row>, streaming: bool)
    requires cfg.maxOpen > 0 && Rep(cfg, f, rows)
    ensures f.events == Newest(cfg.maxEvents, Grouped(cfg, rows))
    ensures Snapshot(cfg, f, streaming) == f.events + WholeRun(cfg, OpenRun(rows), streaming)
    ensures f.text == "" || f.think == ""
  {
    hide OpenRun, Grouped, Clip, Newest, RunEvents;
    FlushIsWholeRun(cfg, f, rows);
    var run := OpenRun(rows);
    HeldRunEvents(cfg, f.text, f.textAt, if run != [] && run[0].kind == Said then run else [], Said, streaming);
    HeldRunEvents(cfg, f.think, f.thinkAt, if run != [] && run[0].kind == Thinking then run else [], Thinking, streaming);
    NoWholeRun(cfg, streaming);
    hide WholeRun, Holds;
    var whole := WholeRun(cfg, run, streaming);
    assert f.events + [] + whole == f.events + whole && f.events + whole + [] == f.events + whole;
  }

  lemma NoWholeRun(cfg: Config, streaming: bool)
    ensures WholeRun(cfg, [], streaming) == []
  {
  }

  // ------------------------------------------------------------------
  // The object
  // ------------------------------------------------------------------

  class LiveTranscriptFolder {
    const cfg: Config
    var events: seq<Event>
    var textBuf: string
    var textFirstAt: Option<string>
    var thinkBuf: string
    var thinkFirstAt: Option<string>

    constructor (cfg: Config)
      ensures this.cfg == cfg && State() == EMPTY
    {
      this.cfg := cfg;
      events, textBuf, textFirstAt, thinkBuf, thinkFirstAt := [], "", None, "", None;
    }

    function State(): Folder
      reads this
    {
      Folder(events, textBuf, textFirstAt, thinkBuf, thinkFirstAt)
    }

    method StripText(s: string) returns (t: string)
      ensures t == Strip(cfg.isSpace, s)
    {
      t := s;
      while t != [] && cfg.isSpace(t[0])
        invariant Strip(cfg.isSpace, t) == Strip(cfg.isSpace, s)
      {
        t := t[1..];
      }
      ghost var left := t;
      while t != [] && cfg.isSpace(t[|t| - 1])
        invariant StripRight(cfg.isSpace, t) == StripRight(cfg.isSpace, left)
      {
        t := t[..|t| - 1];
      }
    }

    /** An append to a deque with a maxlen. */
    method Store(e: Event)
      modifies this`events
      ensures events == Newest(cfg.maxEvents, old(events) + [e]) && Capped()
    {
      events := events + [e];
      if cfg.maxEvents.Some? && |events| > cfg.maxEvents.value {
        events := events[|events| - cfg.maxEvents.value..];
      }
    }

    method FlushAssistantText()
      requires Capped()
      modifies this
      ensures State() == FlushText(cfg, old(State())) && Capped()
    {
      var full := StripText(textBuf);
      if full != "" {
        Store(RunEvent(Said, full, Or(AtOf(textFirstAt), cfg.startedAt), false));
      } else {
        assert events + [] == events;
      }
      textBuf, textFirstAt := "", None;
    }

    method FlushThinking()
      requires Capped()
      modifies this
      ensures State() == FlushThink(cfg, old(State())) && Capped()
    {
      var full := StripText(thinkBuf);
      if full != "" {
        Store(RunEvent(Thinking, full, Or(AtOf(thinkFirstAt), cfg.startedAt), false));
      } else {
        assert events + [] == events;
      }
      thinkBuf, thinkFirstAt := "", None;
    }

    predicate Capped()
      reads this
    {
      cfg.maxEvents.Some? ==> |events| <= cfg.maxEvents.value
    }

    method ClipOpen(buf: string) returns (r: string)
      ensures r == Clip(cfg.maxOpen, buf)
    {
      if |buf| <= cfg.maxOpen {
        return buf;
      }
      return [ELLIPSIS] + LastChars(buf, cfg.maxOpen);
    }

    method IngestRows(rows: seq<Row>)
      requires Capped()
      modifies this
      ensures State() == Ingest(cfg, old(State()), rows) && Capped()
    {
      hide Newest, FlushText, FlushThink, Clip;
      var i := 0;
      while i < |rows|
        invariant 0 <= i <= |rows| && Capped()
        invariant Ingest(cfg, State(), rows[i..]) == Ingest(cfg, old(State()), rows)
      {
        assert rows[i..][1..] == rows[i + 1..];
        ghost var before := State();
        match rows[i] {
          case Delta(Said, text, at) =>
            FlushThinking();
            if textBuf == "" {
              textFirstAt := Some(at);
            }
            textBuf := ClipOpen(textBuf + text);
          case Delta(Thinking, text, at) =>
            FlushAssistantText();
            if thinkBuf == "" {
              thinkFirstAt := Some(at);
            }
            thinkBuf := ClipOpen(thinkBuf + text);
          case ToolOrNote(card, at) =>
            FlushAssistantText();
            FlushThinking();
            Store(CardEvent(card, at));
          case Lifecycle =>
            FlushAssistantText();
            FlushThinking();
        }
        assert State() == IngestRow(cfg, before, rows[i]);
        i := i + 1;
      }
    }

    method TakeSnapshot(markOpenAsStreaming: bool) returns (out: seq<Event>)
      ensures out == Snapshot(cfg, State(), markOpenAsStreaming)
    {
      out := events;
      var text := StripText(textBuf);
      if text != "" {
        out := out + [RunEvent(Said, text, Or(AtOf(textFirstAt), cfg.startedAt), markOpenAsStreaming)];
      }
      var think := StripText(thinkBuf);
      if think != "" {
        out := out + [RunEvent(Thinking, think, Or(AtOf(thinkFirstAt), cfg.startedAt), markOpenAsStreaming)];
      }
    }
  }
}
