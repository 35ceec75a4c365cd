/**
 Incremental tailing of an append-only transcript (src/lyre/transcript_tail.py).
 The writer appends bytes at any time; each poll returns the events of the lines completed
 since the last one. `parse` stands for JSON decoding: the event, or None when the line is not
 a JSON object.
 */
module TranscriptTail {
  import opened Wrappers
  import opened Seqs

  newtype byte = x: int | 0 <= x < 256

  const NEWLINE: byte := 10

  predicate IsSpace(b: byte) {
    9 <= b <= 13 || b == 32
  }

  predicate Blank(line: seq<byte>) {
    forall k :: 0 <= k < |line| ==> IsSpace(line[k])
  }

  function LineEvents<E>(parse: seq<byte> -> Option<E>, line: seq<byte>): seq<E> {
    if Blank(line) || parse(line).None? then [] else [parse(line).value]
  }

  /** Position of the first newline, or the length. */
  function Find(s: seq<byte>): (n: nat)
    ensures n <= |s|
  {
    if s == [] || s[0] == NEWLINE then 0 else 1 + Find(s[1..])
  }

  /** What follows the last newline. */
  function Rest(s: seq<byte>): seq<byte>
    decreases |s|
  {
    var n := Find(s);
    if n == |s| then s else Rest(s[n + 1..])
  }

  /** One-shot parsing: the events of the complete lines. */
  function Parse<E>(parse: seq<byte> -> Option<E>, s: seq<byte>): seq<E>
    decreases |s|
  {
    var n := Find(s);
    if n == |s| then [] else LineEvents(parse, s[..n]) + Parse(parse, s[n + 1..])
  }

  /** What follows the first newline. */
  function AfterNewline(s: seq<byte>): seq<byte> {
    if s == [] then [] else if s[0] == NEWLINE then s[1..] else AfterNewline(s[1..])
  }

  // ------------------------------------------------------------------
  // What one-shot parsing means, line by line
  // ------------------------------------------------------------------

  /** The complete lines of a text, without their newlines. */
  function Lines(s: seq<byte>): seq<seq<byte>>
    decreases |s|
  {
    var n := Find(s);
    if n == |s| then [] else [s[..n]] + Lines(s[n + 1..])
  }

  function Ended(): seq<byte> -> seq<byte> {
    (line: seq<byte>) => line + [NEWLINE]
  }

  /** The event of a line that holds something other than white space and decodes to one. */
  function EventOf<E>(parse: seq<byte> -> Option<E>): seq<byte> -> seq<E> {
    (line: seq<byte>) =>
      if (exists k :: 0 <= k < |line| && line[k] !in {9, 10, 11, 12, 13, 32}) && parse(line).Some? then [parse(line).value]
      else []
  }

  lemma LineEventsAre<E>(parse: seq<byte> -> Option<E>, line: seq<byte>)
    ensures LineEvents(parse, line) == EventOf(parse)(line)
  {
    assert forall b: byte :: IsSpace(b) <==> b in {9, 10, 11, 12, 13, 32};
  }

  lemma LinesUnfold(s: seq<byte>)
    requires Find(s) < |s|
    ensures Lines(s) == [s[..Find(s)]] + Lines(s[Find(s) + 1..]) && Rest(s) == Rest(s[Find(s) + 1..])
  {
    hide Find;
  }

  lemma LinesEnd(s: seq<byte>)
    requires Find(s) == |s|
    ensures Lines(s) == [] && Rest(s) == s
  {
    hide Find;
  }

  lemma CutAtNewline(s: seq<byte>, n: nat)
    requires n < |s| && s[n] == NEWLINE
    ensures s == (s[..n] + [NEWLINE]) + s[n + 1..]
  {
  }

  lemma FlatMapFirst<A, B>(f: A -> seq<B>, x: A, xs: seq<A>)
    ensures FlatMap(f, [x] + xs) == f(x) + FlatMap(f, xs)
  {
    FlatMapConcat(f, [x], xs);
    FlatMapOne(f, x);
  }

  /** The lines hold no newline and, each ended by one, are the text up to its unfinished line. */
  lemma {:induction false} LinesAreText(s: seq<byte>)
    ensures forall line <- Lines(s) :: NEWLINE !in line
    ensures FlatMap(Ended(), Lines(s)) + Rest(s) == s && NEWLINE !in Rest(s)
    decreases |s|
  {
    hide Lines, Rest, Find, FlatMap;
    var n := Find(s);
    FindIsFirst(s);
    if n == |s| {
      LinesEnd(s);
      NothingMapped(Ended());
      assert [] + s == s;
    } else {
      LinesUnfold(s);
      LinesAreText(s[n + 1..]);
      CutAtNewline(s, n);
      FlatMapFirst(Ended(), s[..n], Lines(s[n + 1..]));
      Regroup(s[..n] + [NEWLINE], FlatMap(Ended(), Lines(s[n + 1..])), Rest(s));
    }
  }

  lemma NothingMapped<A, B>(f: A -> seq<B>)
    ensures FlatMap(f, []) == []
  {
  }

  /** Parsing gives the events of the complete lines that are not blank and decode, in order. */
  lemma {:induction false} ParseIsLines<E>(parse: seq<byte> -> Option<E>, s: seq<byte>)
    ensures Parse(parse, s) == FlatMap(EventOf(parse), Lines(s))
    decreases |s|
  {
    hide Lines, Find, FlatMap, EventOf, LineEvents;
    var n := Find(s);
    if n == |s| {
      LinesEnd(s);
      NothingMapped(EventOf(parse));
    } else {
      LinesUnfold(s);
      ParseIsLines(parse, s[n + 1..]);
      LineEventsAre(parse, s[..n]);
      FlatMapFirst(EventOf(parse), s[..n], Lines(s[n + 1..]));
    }
  }

  // ------------------------------------------------------------------
  // The tailer and its environment
  // ------------------------------------------------------------------

  datatype Tailer = Tailer(offset: nat, buf: seq<byte>, skip: bool)

  const START := Tailer(0, [], false)

  /** What a poll meets: no file (stat fails), or a file that then opens or does not. */
  datatype Disk = Missing | File(bytes: seq<byte>, opens: bool)

  predicate Jumps(t: Tailer, tail: Option<nat>, size: nat) {
    t.offset == 0 && size > 0 && tail.Some? && size > tail.value
  }

  /** The tailer after one poll; the second part is what the poll returns. */
  function Poll<E>(parse: seq<byte> -> Option<E>, tail: Option<nat>, t: Tailer, d: Disk): (Tailer, seq<E>) {
    if d.Missing? || |d.bytes| <= t.offset then (t, [])
    else
      var size := |d.bytes|;
      var t1 := if Jumps(t, tail, size) then Tailer(size - tail.value, t.buf, true) else t;
      if !d.opens then (t1, [])
      else
        var chunk := d.bytes[t1.offset..];
        if t1.skip && Find(chunk) == |chunk| then (Tailer(size, t1.buf, true), [])
        else
          var all := t1.buf + if t1.skip then AfterNewline(chunk) else chunk;
          (Tailer(size, Rest(all), false), Parse(parse, all))
  }

  datatype Step =
    | Append(bytes: seq<byte>)
    | PollOnce(found: bool, opens: bool)

  datatype World<E> = World(file: seq<byte>, tailer: Tailer, out: seq<E>)

  /** Nothing can be read that was never written: a missing file has no bytes yet, or stat failed. */
  function DiskOf<E>(w: World<E>, step: Step): Disk
    requires step.PollOnce?
  {
    if step.found then File(w.file, step.opens) else Missing
  }

  function Next<E>(parse: seq<byte> -> Option<E>, tail: Option<nat>, w: World<E>, step: Step): World<E> {
    match step
    case Append(bytes) => w.(file := w.file + bytes)
    case PollOnce(_, _) =>
      var p := Poll(parse, tail, w.tailer, DiskOf(w, step));
      w.(tailer := p.0, out := w.out + p.1)
  }

  function Run<E>(parse: seq<byte> -> Option<E>, tail: Option<nat>, w: World<E>, steps: seq<Step>): World<E>
    decreases |steps|
  {
    if steps == [] then w else Run(parse, tail, Next(parse, tail, w, steps[0]), steps[1..])
  }

  /** Where the initial-tail jump of a run landed, if it made one. */
  function JumpOf<E>(parse: seq<byte> -> Option<E>, tail: Option<nat>, w: World<E>, steps: seq<Step>): Option<nat>
    decreases |steps|
  {
    if steps == [] then None
    else if steps[0].PollOnce? && steps[0].found && tail.Some? && w.tailer.offset == 0 && |w.file| > tail.value then
      Some(|w.file| - tail.value)
    else JumpOf(parse, tail, Next(parse, tail, w, steps[0]), steps[1..])
  }

  function From(read: seq<byte>, start: nat): seq<byte>
    requires start <= |read|
  {
    read[start..]
  }

  /** The bytes a run answers for: from the start, or from just past the first newline at or
      after the jump. */
  function Covered(read: seq<byte>, jump: Option<nat>): seq<byte>
    requires jump.Some? ==> jump.value <= |read|
  {
    if jump.None? then read else AfterNewline(From(read, jump.value))
  }

  // ------------------------------------------------------------------
  // Laws of one-shot parsing
  // ------------------------------------------------------------------

  lemma {:induction false} FindIsFirst(s: seq<byte>)
    ensures forall k :: 0 <= k < Find(s) ==> s[k] != NEWLINE
    ensures Find(s) < |s| ==> s[Find(s)] == NEWLINE
  {
    if s != [] && s[0] != NEWLINE {
      FindIsFirst(s[1..]);
      assert forall k :: 0 < k < Find(s) ==> s[k] == s[1..][k - 1];
    }
  }

  lemma {:induction false} FindConcat(a: seq<byte>, b: seq<byte>)
    ensures Find(a + b) == if Find(a) < |a| then Find(a) else |a| + Find(b)
  {
    if a == [] {
      assert a + b == b;
    } else {
      assert (a + b)[1..] == a[1..] + b;
      FindConcat(a[1..], b);
    }
  }

  /** Parsing may stop anywhere and resume with the rest. */
  lemma {:induction false} ParseConcat<E>(parse: seq<byte> -> Option<E>, a: seq<byte>, b: seq<byte>)
    ensures Parse(parse, a + b) == Parse(parse, a) + Parse(parse, Rest(a) + b)
    ensures Rest(a + b) == Rest(Rest(a) + b)
    decreases |a|
  {
    hide Find, LineEvents;
    var n := Find(a);
    FindConcat(a, b);
    if n < |a| {
      var first, more := a[..n], a[n + 1..];
      assert (a + b)[..n] == first && (a + b)[n + 1..] == more + b;
      ParseConcat(parse, more, b);
      assert Parse(parse, a + b) == LineEvents(parse, first) + Parse(parse, more + b);
      assert Parse(parse, a) == LineEvents(parse, first) + Parse(parse, more) && Rest(a) == Rest(more);
    }
  }

  lemma {:induction false} AfterIsSlice(s: seq<byte>)
    ensures AfterNewline(s) == if Find(s) == |s| then [] else s[Find(s) + 1..]
  {
    if s != [] {
      AfterIsSlice(s[1..]);
    }
  }

  lemma {:induction false} RestHasNoNewline(s: seq<byte>)
    ensures NEWLINE !in Rest(s)
    decreases |s|
  {
    var n := Find(s);
    FindIsFirst(s);
    if n < |s| {
      RestHasNoNewline(s[n + 1..]);
    }
  }

  lemma NoNewlineParsesToNothing<E>(parse: seq<byte> -> Option<E>, s: seq<byte>)
    requires Find(s) == |s|
    ensures Parse(parse, s) == [] && Rest(s) == s
  {
  }

  // ------------------------------------------------------------------
  // Tailing refines one-shot parsing
  // ------------------------------------------------------------------

  /** No newline seen since the jump. */
  predicate Skipping(read: seq<byte>, jump: Option<nat>)
    requires jump.Some? ==> jump.value <= |read|
  {
    jump.Some? && Find(From(read, jump.value)) == |From(read, jump.value)|
  }

  ghost predicate Inv<E>(parse: seq<byte> -> Option<E>, w: World<E>, jump: Option<nat>) {
    && w.tailer.offset <= |w.file|
    && (jump.Some? ==> 0 < jump.value <= w.tailer.offset)
    && var read := w.file[..w.tailer.offset];
       var covered := Covered(read, jump);
       && w.out == Parse(parse, covered)
       && w.tailer.buf == Rest(covered)
       && w.tailer.skip == Skipping(read, jump)
  }

  lemma {:induction false} AfterConcat(after: seq<byte>, chunk: seq<byte>)
    ensures AfterNewline(after + chunk) == if Find(after) == |after| then AfterNewline(chunk) else AfterNewline(after) + chunk
  {
    if after == [] {
      assert after + chunk == chunk;
    } else {
      assert (after + chunk)[1..] == after[1..] + chunk;
      if after[0] != NEWLINE {
        AfterConcat(after[1..], chunk);
      }
    }
  }

  lemma ReadMore(read: seq<byte>, chunk: seq<byte>, jump: Option<nat>)
    requires jump.Some? ==> jump.value <= |read|
    ensures Skipping(read + chunk, jump) == (Skipping(read, jump) && Find(chunk) == |chunk|)
    ensures Skipping(read, jump) ==> Covered(read, jump) == []
    ensures Covered(read + chunk, jump) ==
            if Skipping(read, jump) then AfterNewline(chunk) else Covered(read, jump) + chunk
  {
    hide Find, AfterNewline, From;
    if jump.Some? {
      var after := From(read, jump.value);
      FromConcat(read, chunk, jump.value);
      NothingAfter(after);
      FindConcat(after, chunk);
      AfterConcat(after, chunk);
    }
  }

  lemma FromConcat(read: seq<byte>, chunk: seq<byte>, start: nat)
    requires start <= |read|
    ensures From(read + chunk, start) == From(read, start) + chunk
  {
  }

  lemma NothingAfter(s: seq<byte>)
    ensures Find(s) == |s| ==> AfterNewline(s) == []
  {
    AfterIsSlice(s);
  }

  lemma ReadLineMode<E>(parse: seq<byte> -> Option<E>, tail: Option<nat>, w: World<E>, jump: Option<nat>)
    requires Inv(parse, w, jump) && w.tailer.offset < |w.file| && !Jumps(w.tailer, tail, |w.file|)
    requires !w.tailer.skip
    ensures Inv(parse, Next(parse, tail, w, PollOnce(true, true)), jump)
  {
    hide Parse, Rest, Find;
    var t := w.tailer;
    var read, chunk := w.file[..t.offset], w.file[t.offset..];
    assert read + chunk == w.file == w.file[..|w.file|];
    var covered := Covered(read, jump);
    var w' := Next(parse, tail, w, PollOnce(true, true));
    assert w'.tailer == Tailer(|w.file|, Rest(t.buf + chunk), false);
    assert w'.out == w.out + Parse(parse, t.buf + chunk);
    ReadMore(read, chunk, jump);
    hide Covered;
    ParseConcat(parse, covered, chunk);
  }

  lemma SkipStep<E>(parse: seq<byte> -> Option<E>, tail: Option<nat>, w: World<E>)
    requires w.tailer.skip && w.tailer.buf == []
    requires w.tailer.offset < |w.file| && !Jumps(w.tailer, tail, |w.file|)
    ensures var chunk := w.file[w.tailer.offset..];
            Next(parse, tail, w, PollOnce(true, true)) ==
              w.(tailer := Tailer(|w.file|, Rest(AfterNewline(chunk)), Find(chunk) == |chunk|),
                 out := w.out + Parse(parse, AfterNewline(chunk)))
  {
    NoNewlineParsesToNothing(parse, []);
    hide Parse, Rest, Find, AfterNewline;
    var chunk := w.file[w.tailer.offset..];
    AfterIsSlice(chunk);
    if Find(chunk) < |chunk| {
      assert [] + AfterNewline(chunk) == AfterNewline(chunk);
    }
  }

  lemma ReadSkipMode<E>(parse: seq<byte> -> Option<E>, tail: Option<nat>, w: World<E>, jump: Option<nat>)
    requires Inv(parse, w, jump) && w.tailer.offset < |w.file| && !Jumps(w.tailer, tail, |w.file|)
    requires w.tailer.skip
    ensures Inv(parse, Next(parse, tail, w, PollOnce(true, true)), jump)
  {
    NoNewlineParsesToNothing(parse, []);
    hide Parse, Rest, Find, Skipping, Covered, AfterNewline;
    var read, chunk := w.file[..w.tailer.offset], w.file[w.tailer.offset..];
    ReadMore(read, chunk, jump);
    assert read + chunk == w.file[..|w.file|];
    SkipStep(parse, tail, w);
    hide Next;
  }

  /** A poll that reads: everything up to the size it saw is now accounted for. */
  lemma ReadKeepsInv<E>(parse: seq<byte> -> Option<E>, tail: Option<nat>, w: World<E>, jump: Option<nat>)
    requires Inv(parse, w, jump) && w.tailer.offset < |w.file| && !Jumps(w.tailer, tail, |w.file|)
    ensures Inv(parse, Next(parse, tail, w, PollOnce(true, true)), jump)
    ensures Next(parse, tail, w, PollOnce(true, true)).tailer.offset == |w.file|
  {
    hide Inv;
    if w.tailer.skip {
      ReadSkipMode(parse, tail, w, jump);
    } else {
      ReadLineMode(parse, tail, w, jump);
    }
  }

  lemma JumpKeepsInv<E>(parse: seq<byte> -> Option<E>, tail: Option<nat>, w: World<E>)
    requires Inv(parse, w, None) && Jumps(w.tailer, tail, |w.file|)
    ensures var j := |w.file| - tail.value;
            Inv(parse, w.(tailer := Tailer(j, w.tailer.buf, true)), Some(j))
  {
    assert w.file[..0] == [];
    var j := |w.file| - tail.value;
    var read := w.file[..j];
    assert read[j..] == [];
  }

  /** A jump followed by the rest of the same poll is a poll of the jumped tailer. */
  lemma JumpThenPoll<E>(parse: seq<byte> -> Option<E>, tail: Option<nat>, w: World<E>, opens: bool)
    requires w.tailer.buf == [] && Jumps(w.tailer, tail, |w.file|)
    ensures var w1 := w.(tailer := Tailer(|w.file| - tail.value, w.tailer.buf, true));
            Next(parse, tail, w, PollOnce(true, opens))
            == if opens && tail.value > 0 then Next(parse, tail, w1, PollOnce(true, true)) else w1
  {
    if opens && tail.value == 0 {
      assert w.file[|w.file|..] == [];
    }
  }

  lemma PollKeepsInv<E>(parse: seq<byte> -> Option<E>, tail: Option<nat>, w: World<E>, step: Step, jump: Option<nat>)
    requires Inv(parse, w, jump) && step.PollOnce?
    ensures Inv(parse, Next(parse, tail, w, step),
                if step.found && Jumps(w.tailer, tail, |w.file|) then Some(|w.file| - tail.value) else jump)
    ensures step.found && step.opens ==> Next(parse, tail, w, step).tailer.offset == |w.file|
  {
    var w' := Next(parse, tail, w, step);
    if step.found && Jumps(w.tailer, tail, |w.file|) {
      assert w.file[..0] == [];
      JumpKeepsInv(parse, tail, w);
      JumpThenPoll(parse, tail, w, step.opens);
      var w1 := w.(tailer := Tailer(|w.file| - tail.value, w.tailer.buf, true));
      if step.opens && tail.value > 0 {
        ReadKeepsInv(parse, tail, w1, Some(|w.file| - tail.value));
      }
    } else if step.found && step.opens && w.tailer.offset < |w.file| {
      ReadKeepsInv(parse, tail, w, jump);
    } else {
      assert w' == w;
    }
  }

  lemma {:induction false} RunKeepsInv<E>(parse: seq<byte> -> Option<E>, tail: Option<nat>, w: World<E>, steps: seq<Step>, jump: Option<nat>)
    requires Inv(parse, w, jump)
    ensures Inv(parse, Run(parse, tail, w, steps), if jump.Some? then jump else JumpOf(parse, tail, w, steps))
    decreases |steps|
  {
    hide Inv, Next;
    if steps != [] {
      var w' := Next(parse, tail, w, steps[0]);
      if steps[0].PollOnce? {
        JumpsOnce(parse, tail, w, jump);
        PollKeepsInv(parse, tail, w, steps[0], jump);
        RunKeepsInv(parse, tail, w', steps[1..],
                    if steps[0].found && Jumps(w.tailer, tail, |w.file|) then Some(|w.file| - tail.value) else jump);
      } else {
        AppendKeepsInv(parse, tail, w, steps[0], jump);
        RunKeepsInv(parse, tail, w', steps[1..], jump);
      }
    }
  }

  lemma JumpsOnce<E>(parse: seq<byte> -> Option<E>, tail: Option<nat>, w: World<E>, jump: Option<nat>)
    requires Inv(parse, w, jump)
    ensures jump.Some? ==> !Jumps(w.tailer, tail, |w.file|)
  {
    hide Parse, Rest, Covered, Skipping;
  }

  lemma AppendKeepsInv<E>(parse: seq<byte> -> Option<E>, tail: Option<nat>, w: World<E>, step: Step, jump: Option<nat>)
    requires Inv(parse, w, jump) && step.Append?
    ensures Inv(parse, Next(parse, tail, w, step), jump)
  {
    hide Parse, Rest, Covered, Skipping, Poll;
    assert (w.file + step.bytes)[..w.tailer.offset] == w.file[..w.tailer.offset];
  }

  /** For every interleaving of appends and polls, what the polls returned together is the
      one-shot parse of the complete lines read so far, from the start or from just past the
      first newline at or after the initial jump; and no newline is left in the buffer. */
  lemma TailingIsParsing<E>(parse: seq<byte> -> Option<E>, tail: Option<nat>, steps: seq<Step>)
    ensures var w := Run(parse, tail, World([], START, []), steps);
            var jump := JumpOf(parse, tail, World([], START, []), steps);
            && w.tailer.offset <= |w.file|
            && (jump.Some? ==> jump.value <= w.tailer.offset)
            && w.out == Parse(parse, Covered(w.file[..w.tailer.offset], jump))
            && NEWLINE !in w.tailer.buf
  {
    var w0: World<E> := World([], START, []);
    assert w0.file[..0] == [];
    RunKeepsInv(parse, tail, w0, steps, None);
    var w := Run(parse, tail, w0, steps);
    RestHasNoNewline(Covered(w.file[..w.tailer.offset], JumpOf(parse, tail, w0, steps)));
  }

  /** After a poll that can read the file nothing is outstanding: however the appends and
      earlier polls fell, a reader without an initial tail has the parse of the whole file. */
  lemma PollCatchesUp<E>(parse: seq<byte> -> Option<E>, steps: seq<Step>)
    ensures var w := Run(parse, None, World([], START, []), steps);
            var w' := Next(parse, None, w, PollOnce(true, true));
            w'.out == Parse(parse, w'.file) && w'.tailer.buf == Rest(w'.file)
  {
    var w0: World<E> := World([], START, []);
    assert w0.file[..0] == [];
    RunKeepsInv(parse, None, w0, steps, None);
    NoJump(parse, w0, steps);
    var w := Run(parse, None, w0, steps);
    PollKeepsInv(parse, None, w, PollOnce(true, true), None);
    assert w.file[..|w.file|] == w.file;
  }

  lemma {:induction false} NoJump<E>(parse: seq<byte> -> Option<E>, w: World<E>, steps: seq<Step>)
    ensures JumpOf(parse, None, w, steps) == None
    decreases |steps|
  {
    if steps != [] {
      NoJump(parse, Next(parse, None, w, steps[0]), steps[1..]);
    }
  }

  // ------------------------------------------------------------------
  // The object
  // ------------------------------------------------------------------

  class TranscriptTailer<E> {
    const parse: seq<byte> -> Option<E>
    const initialTail: Option<nat>
    var offset: nat
    var buf: seq<byte>
    var skip: bool

    constructor (parse: seq<byte> -> Option<E>, initialTail: Option<nat>)
      ensures this.parse == parse && this.initialTail == initialTail && State() == START
    {
      this.parse, this.initialTail := parse, initialTail;
      offset, buf, skip := 0, [], false;
    }

    ghost function State(): Tailer
      reads this
    {
      Tailer(offset, buf, skip)
    }

    method FindNewline(s: seq<byte>) returns (n: nat)
      ensures n == Find(s)
    {
      n := 0;
      while n < |s| && s[n] != NEWLINE
        invariant n <= |s|
        invariant Find(s) == n + Find(s[n..])
      {
        assert s[n..][1..] == s[n + 1..];
        n := n + 1;
      }
      assert Find(s[n..]) == 0;
    }

    /** Takes the complete lines off the buffer. */
    method DrainLines() returns (events: seq<E>)
      modifies this
      ensures offset == old(offset) && skip == old(skip)
      ensures buf == Rest(old(buf)) && events == Parse(parse, old(buf))
    {
      hide Parse, Rest, LineEvents, Find;
      events := [];
      var n := FindNewline(buf);
      while n < |buf|
        invariant offset == old(offset) && skip == old(skip)
        invariant n == Find(buf)
        invariant Rest(buf) == Rest(old(buf))
        invariant Parse(parse, old(buf)) == events + Parse(parse, buf)
        decreases |buf|
      {
        DrainOne(parse, events, buf);
        events := events + LineEvents(parse, buf[..n]);
        buf := buf[n + 1..];
        n := FindNewline(buf);
      }
      NoNewlineParsesToNothing(parse, buf);
    }

    method PollFile(d: Disk) returns (events: seq<E>)
      modifies this
      ensures State() == Poll(parse, initialTail, old(State()), d).0
      ensures events == Poll(parse, initialTail, old(State()), d).1
    {
      hide Parse, Rest, Find, AfterNewline;
      if d.Missing? || |d.bytes| <= offset {
        return [];
      }
      var size := |d.bytes|;
      if offset == 0 && initialTail.Some? && size > initialTail.value {
        offset := size - initialTail.value;
        skip := true;
      }
      if !d.opens {
        return [];
      }
      var chunk := d.bytes[offset..];
      offset := offset + |chunk|;
      if skip {
        var nl := FindNewline(chunk);
        if nl == |chunk| {
          return [];
        }
        AfterIsSlice(chunk);
        chunk := chunk[nl + 1..];
        skip := false;
      }
      buf := buf + chunk;
      events := DrainLines();
    }
  }

  lemma DrainOne<E>(parse: seq<byte> -> Option<E>, events: seq<E>, buf: seq<byte>)
    requires Find(buf) < |buf|
    ensures var line, more := buf[..Find(buf)], buf[Find(buf) + 1..];
            && events + Parse(parse, buf) == (events + LineEvents(parse, line)) + Parse(parse, more)
            && Rest(buf) == Rest(more)
  {
    hide Find, LineEvents;
    var line, more := buf[..Find(buf)], buf[Find(buf) + 1..];
    Regroup(events, LineEvents(parse, line), Parse(parse, more));
  }
}
