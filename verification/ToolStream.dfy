/**
 Assembling streamed tool calls (`stream_turn` in src/lyre/adapter/openai.py): argument
 fragments of several calls arrive interleaved, each with the index of its call.
 */
module ToolStream {
  import opened Wrappers
  import opened Seqs
  import opened Messages

  datatype Fn = Fn(name: string, args: Option<string>)

  /** One element of `delta.tool_calls`; "" stands for an absent id or name. */
  datatype Fragment = Fragment(index: int, id: string, fn: Option<Fn>)

  datatype Choice = Choice(text: string, reasoning: string, calls: seq<Fragment>, finish: string)

  /** A streamed chunk; a choice without a delta has empty text, reasoning and calls. */
  datatype Chunk = Chunk(usage: Option<(nat, nat)>, choice: Option<Choice>)

  datatype Event =
    | ContentDelta(text: string)
    | ThinkingDelta(text: string)
    | ToolUseStart(id: string, name: string)
    | ToolUseDelta(id: string, partial: string)
    | ToolUseComplete(id: string, name: string, input: Obj)
    | ThinkingBlockComplete(text: string)
    | Usage(inputTokens: nat, outputTokens: nat)
    | TurnComplete(stop: StopReason)

  datatype StopReason = EndTurn | MaxTokens | ToolUseStop | ErrorStop

  function StopOf(finish: string): StopReason {
    if finish == "length" then MaxTokens
    else if finish == "tool_calls" || finish == "function_call" then ToolUseStop
    else if finish == "content_filter" then ErrorStop
    else EndTurn
  }

  // ------------------------------------------------------------------
  // One call's fragments, in order
  // ------------------------------------------------------------------

  datatype Buffer = Buffer(id: string, name: string, args: string, started: bool)

  const NEW := Buffer("", "", "", false)

  function Feed(b: Buffer, f: Fragment): Buffer {
    var b := if f.id != "" then b.(id := f.id) else b;
    if f.fn.None? then b
    else
      var b := if f.fn.value.name != "" then b.(name := f.fn.value.name) else b;
      var b := if b.name != "" then b.(started := true) else b;
      if f.fn.value.args.None? then b else b.(args := b.args + f.fn.value.args.value)
  }

  function FeedEvents(b: Buffer, f: Fragment): seq<Event> {
    var b' := Feed(b, f);
    if f.fn.None? then []
    else
      (if !b.started && b'.name != "" then [ToolUseStart(b'.id, b'.name)] else [])
      + (if f.fn.value.args.None? then [] else [ToolUseDelta(b'.id, f.fn.value.args.value)])
  }

  function FeedAll(b: Buffer, fs: seq<Fragment>): Buffer
    decreases |fs|
  {
    if fs == [] then b else FeedAll(Feed(b, fs[0]), fs[1..])
  }

  function FeedAllEvents(b: Buffer, fs: seq<Fragment>): seq<Event>
    decreases |fs|
  {
    if fs == [] then [] else FeedEvents(b, fs[0]) + FeedAllEvents(Feed(b, fs[0]), fs[1..])
  }

  /** The input of a finished call; `loads` is JSON decoding, None when it fails. */
  function InputOf(loads: string -> Option<Json>, args: string): Obj {
    if args == "" then map[]
    else if loads(args).Some? && loads(args).value.JObj? then loads(args).value.fields
    else map["_raw" := JStr(args)]
  }

  /** A call without a name is dropped. */
  function Completes(loads: string -> Option<Json>, b: Buffer): seq<Event> {
    if b.name == "" then [] else [ToolUseComplete(b.id, b.name, InputOf(loads, b.args))]
  }

  // ------------------------------------------------------------------
  // The stream
  // ------------------------------------------------------------------

  datatype Slot = Slot(index: int, buffer: Buffer)

  /** An emitted event, tagged with the index of the call it is about. The tag is for the
      statements below; consumers see the event alone. */
  datatype Entry = Entry(about: Option<int>, event: Event)

  datatype State = State(slots: seq<Slot>, log: seq<Entry>, reasoning: seq<string>, finish: string, usage: Option<(nat, nat)>)

  const START := State([], [], [], "", None)

  function SlotOf(slots: seq<Slot>, index: int): (k: nat)
    ensures k <= |slots|
    ensures k < |slots| ==> slots[k].index == index
    ensures forall j :: 0 <= j < k ==> slots[j].index != index
  {
    if slots == [] || slots[0].index == index then 0 else 1 + SlotOf(slots[1..], index)
  }

  function BufferOf(slots: seq<Slot>, index: int): Buffer {
    var k := SlotOf(slots, index);
    if k < |slots| then slots[k].buffer else NEW
  }

  /** A known index keeps its place; a new one goes last. */
  function SetBuffer(slots: seq<Slot>, index: int, b: Buffer): seq<Slot> {
    var k := SlotOf(slots, index);
    if k < |slots| then slots[k := Slot(index, b)] else slots + [Slot(index, b)]
  }

  function Tag(about: Option<int>, events: seq<Event>): seq<Entry> {
    seq(|events|, i requires 0 <= i < |events| => Entry(about, events[i]))
  }

  function OnFragment(s: State, f: Fragment): State {
    var b := BufferOf(s.slots, f.index);
    s.(slots := SetBuffer(s.slots, f.index, Feed(b, f)), log := s.log + Tag(Some(f.index), FeedEvents(b, f)))
  }

  function OnFragments(s: State, fs: seq<Fragment>): State
    decreases |fs|
  {
    if fs == [] then s else OnFragments(OnFragment(s, fs[0]), fs[1..])
  }

  function OnUsage(s: State, c: Chunk): State {
    if c.usage.Some? then s.(usage := c.usage) else s
  }

  function OnText(s: State, text: string): State {
    if text != "" then s.(log := s.log + Tag(None, [ContentDelta(text)])) else s
  }

  function OnReasoning(s: State, r: string): State {
    if r != "" then s.(log := s.log + Tag(None, [ThinkingDelta(r)]), reasoning := s.reasoning + [r]) else s
  }

  function OnChunk(s: State, c: Chunk): State {
    var s := OnUsage(s, c);
    if c.choice.None? then s
    else
      var choice := c.choice.value;
      var s := OnFragments(OnReasoning(OnText(s, choice.text), choice.reasoning), choice.calls);
      if choice.finish != "" then s.(finish := choice.finish) else s
  }

  function OnChunks(s: State, cs: seq<Chunk>): State
    decreases |cs|
  {
    if cs == [] then s else OnChunks(OnChunk(s, cs[0]), cs[1..])
  }

  function AllCompletes(loads: string -> Option<Json>, slots: seq<Slot>): seq<Event> {
    FlatMap((slot: Slot) => Completes(loads, slot.buffer), slots)
  }

  /** What the end of the stream adds. */
  function Flush(loads: string -> Option<Json>, s: State): seq<Event> {
    AllCompletes(loads, s.slots)
    + (if s.reasoning == [] then [] else [ThinkingBlockComplete(FlatMap((r: string) => r, s.reasoning))])
    + (if s.usage.None? then [] else [Usage(s.usage.value.0, s.usage.value.1)])
    + [TurnComplete(StopOf(s.finish))]
  }

  function Untag(log: seq<Entry>): seq<Event> {
    seq(|log|, i requires 0 <= i < |log| => log[i].event)
  }

  /** What a stream's chunks leave behind. */
  function AfterChunks(cs: seq<Chunk>): State {
    OnChunks(START, cs)
  }

  /** Everything a stream of chunks emits. */
  function Stream(loads: string -> Option<Json>, cs: seq<Chunk>): seq<Event> {
    var s := AfterChunks(cs);
    Untag(s.log) + Flush(loads, s)
  }

  // ------------------------------------------------------------------
  // The stream, call by call
  // ------------------------------------------------------------------

  function Fragments(cs: seq<Chunk>): seq<Fragment> {
    FlatMap((c: Chunk) => if c.choice.None? then [] else c.choice.value.calls, cs)
  }

  /** The fragments of one call, in order: what is left when interleaving is forgotten. */
  function Own(fs: seq<Fragment>, index: int): seq<Fragment> {
    if fs == [] then [] else (if fs[0].index == index then [fs[0]] else []) + Own(fs[1..], index)
  }

  /** The events about one call, in order. */
  function About(log: seq<Entry>, index: int): seq<Event> {
    if log == [] then [] else (if log[0].about == Some(index) then [log[0].event] else []) + About(log[1..], index)
  }

  /** Indices by first appearance. */
  function FirstSeen(fs: seq<Fragment>): seq<int>
    decreases |fs|
  {
    if fs == [] then []
    else
      var init, last := FirstSeen(fs[..|fs| - 1]), fs[|fs| - 1].index;
      if last in init then init else init + [last]
  }

  lemma {:induction false} OwnConcat(a: seq<Fragment>, b: seq<Fragment>, index: int)
    ensures Own(a + b, index) == Own(a, index) + Own(b, index)
  {
    hide Own;
    if a == [] {
      assert a + b == b;
      NothingOwned(index);
    } else {
      TailConcat(a, b);
      OwnFirst(a, index);
      OwnFirst(a + b, index);
      OwnConcat(a[1..], b, index);
      Regroup(if a[0].index == index then [a[0]] else [], Own(a[1..], index), Own(b, index));
    }
  }

  lemma NothingOwned(index: int)
    ensures Own([], index) == []
  {
  }

  lemma OwnFirst(fs: seq<Fragment>, index: int)
    requires fs != []
    ensures Own(fs, index) == (if fs[0].index == index then [fs[0]] else []) + Own(fs[1..], index)
  {
  }

  lemma {:induction false} AboutConcat(a: seq<Entry>, b: seq<Entry>, index: int)
    ensures About(a + b, index) == About(a, index) + About(b, index)
  {
    if a == [] {
      assert a + b == b;
    } else {
      AboutConcat(a[1..], b, index);
      TailConcat(a, b);
      AboutCons(a, index);
      AboutCons(a + b, index);
      hide About;
      Regroup(if a[0].about == Some(index) then [a[0].event] else [], About(a[1..], index), About(b, index));
    }
  }

  lemma AboutCons(log: seq<Entry>, index: int)
    requires log != []
    ensures About(log, index) == (if log[0].about == Some(index) then [log[0].event] else []) + About(log[1..], index)
  {
  }

  lemma {:induction false} AboutTag(about: Option<int>, events: seq<Event>, index: int)
    ensures About(Tag(about, events), index) == if about == Some(index) then events else []
  {
    if events != [] {
      assert Tag(about, events)[1..] == Tag(about, events[1..]);
      AboutTag(about, events[1..], index);
    }
  }

  lemma {:induction false} FeedAllAppend(b: Buffer, fs: seq<Fragment>, f: Fragment)
    ensures FeedAll(b, fs + [f]) == Feed(FeedAll(b, fs), f)
    ensures FeedAllEvents(b, fs + [f]) == FeedAllEvents(b, fs) + FeedEvents(FeedAll(b, fs), f)
    decreases |fs|
  {
    hide Feed, FeedEvents;
    if fs == [] {
      assert fs + [f] == [f];
      assert FeedAll(b, [f]) == Feed(b, f) by { assert [f][1..] == []; }
      assert FeedAllEvents(b, [f]) == FeedEvents(b, f) + FeedAllEvents(Feed(b, f), []) by { assert [f][1..] == []; }
    } else {
      assert (fs + [f])[1..] == fs[1..] + [f];
      FeedAllAppend(Feed(b, fs[0]), fs[1..], f);
    }
  }

  /** Each call's buffer and events are those of its own fragments alone, and the calls stand
      in the order in which they first appeared. */
  ghost predicate Inv(s: State, fs: seq<Fragment>) {
    && (forall index :: BufferOf(s.slots, index) == FeedAll(NEW, Own(fs, index)))
    && (forall index :: About(s.log, index) == FeedAllEvents(NEW, Own(fs, index)))
    && Indices(s.slots) == FirstSeen(fs)
  }

  function Indices(slots: seq<Slot>): seq<int> {
    seq(|slots|, i requires 0 <= i < |slots| => slots[i].index)
  }

  lemma {:induction false} SetThenGet(slots: seq<Slot>, index: int, b: Buffer, other: int)
    ensures BufferOf(SetBuffer(slots, index, b), other) == if other == index then b else BufferOf(slots, other)
    ensures Indices(SetBuffer(slots, index, b)) == if index in Indices(slots) then Indices(slots) else Indices(slots) + [index]
  {
    var k := SlotOf(slots, index);
    var slots' := SetBuffer(slots, index, b);
    assert index in Indices(slots) <==> k < |slots| by {
      if k < |slots| { assert Indices(slots)[k] == index; }
    }
    var j, j' := SlotOf(slots, other), SlotOf(slots', other);
    assert forall i :: 0 <= i < |slots| ==> slots'[i].index == slots[i].index;
    if j < |slots| {
      assert slots'[j].index == other;
    } else if other == index {
      assert slots'[|slots|].index == other;
      assert j' == |slots|;
    }
  }

  lemma FragmentKeepsInv(s: State, fs: seq<Fragment>, f: Fragment)
    requires Inv(s, fs)
    ensures Inv(OnFragment(s, f), fs + [f])
  {
    hide Feed, FeedEvents, BufferOf, SetBuffer;
    var s' := OnFragment(s, f);
    var b := BufferOf(s.slots, f.index);
    var events := Tag(Some(f.index), FeedEvents(b, f));
    forall index
      ensures BufferOf(s'.slots, index) == FeedAll(NEW, Own(fs + [f], index))
      ensures About(s'.log, index) == FeedAllEvents(NEW, Own(fs + [f], index))
    {
      SetThenGet(s.slots, f.index, Feed(b, f), index);
      OwnConcat(fs, [f], index);
      assert Own([f], index) == if f.index == index then [f] else [];
      AboutConcat(s.log, events, index);
      AboutTag(Some(f.index), FeedEvents(b, f), index);
      if index == f.index {
        FeedAllAppend(NEW, Own(fs, index), f);
      } else {
        assert Own(fs, index) + [] == Own(fs, index);
        assert About(s.log, index) + [] == About(s.log, index);
      }
    }
    SetThenGet(s.slots, f.index, Feed(b, f), f.index);
    assert (fs + [f])[..|fs|] == fs;
  }

  lemma {:induction false} FragmentsKeepInv(s: State, before: seq<Fragment>, fs: seq<Fragment>)
    requires Inv(s, before)
    ensures Inv(OnFragments(s, fs), before + fs)
    decreases |fs|
  {
    hide Inv, OnFragment;
    if fs == [] {
      assert before + fs == before;
    } else {
      FragmentKeepsInv(s, before, fs[0]);
      assert before + fs == (before + [fs[0]]) + fs[1..];
      FragmentsKeepInv(OnFragment(s, fs[0]), before + [fs[0]], fs[1..]);
    }
  }

  /** Text and reasoning in between belong to no call. */
  lemma OtherKeepsInv(s: State, s': State, e: Event, fs: seq<Fragment>)
    requires Inv(s, fs) && s'.slots == s.slots && (s'.log == s.log || s'.log == s.log + Tag(None, [e]))
    ensures Inv(s', fs)
  {
    forall index
      ensures About(s'.log, index) == About(s.log, index)
    {
      AboutConcat(s.log, Tag(None, [e]), index);
      AboutTag(None, [e], index);
    }
  }

  lemma ChunkKeepsInv(s: State, before: seq<Fragment>, c: Chunk)
    requires Inv(s, before)
    ensures Inv(OnChunk(s, c), before + Fragments([c]))
  {
    FlatMapOne((c: Chunk) => if c.choice.None? then [] else c.choice.value.calls, c);
    var s1 := OnUsage(s, c);
    OtherKeepsInv(s, s1, ContentDelta(""), before);
    if c.choice.None? {
      assert before + [] == before;
    } else {
      var choice := c.choice.value;
      var s2 := OnText(s1, choice.text);
      var s3 := OnReasoning(s2, choice.reasoning);
      OtherKeepsInv(s1, s2, ContentDelta(choice.text), before);
      OtherKeepsInv(s2, s3, ThinkingDelta(choice.reasoning), before);
      FragmentsKeepInv(s3, before, choice.calls);
      var s4 := OnFragments(s3, choice.calls);
      OtherKeepsInv(s4, OnChunk(s, c), ContentDelta(""), before + choice.calls);
    }
  }

  lemma {:induction false} ChunksKeepInv(s: State, before: seq<Fragment>, cs: seq<Chunk>)
    requires Inv(s, before)
    ensures Inv(OnChunks(s, cs), before + Fragments(cs))
    decreases |cs|
  {
    hide Inv, OnChunk;
    if cs == [] {
      assert before + Fragments(cs) == before;
    } else {
      ChunkKeepsInv(s, before, cs[0]);
      var f := (c: Chunk) => if c.choice.None? then [] else c.choice.value.calls;
      FlatMapOne(f, cs[0]);
      assert before + Fragments(cs) == (before + Fragments([cs[0]])) + Fragments(cs[1..]);
      ChunksKeepInv(OnChunk(s, cs[0]), before + Fragments([cs[0]]), cs[1..]);
    }
  }

  lemma {:induction false} FirstSeenFacts(fs: seq<Fragment>)
    ensures forall i, j :: 0 <= i < j < |FirstSeen(fs)| ==> FirstSeen(fs)[i] != FirstSeen(fs)[j]
    ensures forall index :: index in FirstSeen(fs) <==> Own(fs, index) != []
    decreases |fs|
  {
    if fs != [] {
      var init, last := fs[..|fs| - 1], fs[|fs| - 1];
      FirstSeenFacts(init);
      assert fs == init + [last];
      forall index
        ensures Own(fs, index) == Own(init, index) + if last.index == index then [last] else []
      {
        OwnConcat(init, [last], index);
      }
    }
  }

  function CompletesOf(loads: string -> Option<Json>, fs: seq<Fragment>): int -> seq<Event> {
    index => Completes(loads, FeedAll(NEW, Own(fs, index)))
  }

  lemma {:induction false} CompletesByIndex(loads: string -> Option<Json>, slots: seq<Slot>, f: int -> seq<Event>)
    requires forall k :: 0 <= k < |slots| ==> f(slots[k].index) == Completes(loads, slots[k].buffer)
    ensures AllCompletes(loads, slots) == FlatMap(f, Indices(slots))
  {
    if slots != [] {
      assert Indices(slots)[1..] == Indices(slots[1..]);
      CompletesByIndex(loads, slots[1..], f);
    }
  }

  lemma FlushCompletes(loads: string -> Option<Json>, s: State, fs: seq<Fragment>)
    requires Inv(s, fs)
    ensures AllCompletes(loads, s.slots) == FlatMap(CompletesOf(loads, fs), FirstSeen(fs))
  {
    FirstSeenFacts(fs);
    forall k | 0 <= k < |s.slots|
      ensures CompletesOf(loads, fs)(s.slots[k].index) == Completes(loads, s.slots[k].buffer)
    {
      var index := s.slots[k].index;
      assert Indices(s.slots)[k] == index;
      var j := SlotOf(s.slots, index);
      assert Indices(s.slots)[j] == index;
      assert j == k;
      assert BufferOf(s.slots, index) == s.slots[k].buffer;
    }
    CompletesByIndex(loads, s.slots, CompletesOf(loads, fs));
  }

  /** The end of the stream: the finished calls, then at most a thinking block and the usage,
      then the stream's TurnComplete. */
  lemma FlushShape(loads: string -> Option<Json>, s: State)
    ensures var tail, n := Flush(loads, s), |AllCompletes(loads, s.slots)|;
            && AllCompletes(loads, s.slots) <= tail
            && n < |tail| <= n + 3
            && (forall k :: 0 <= k < |tail| ==> (tail[k].ToolUseComplete? <==> k < n))
            && (forall k :: 0 <= k < |tail| ==> (tail[k].TurnComplete? <==> k == |tail| - 1))
  {
    CompletesOnly(loads, s.slots);
    hide AllCompletes, FlatMap, StopOf;
    var done := AllCompletes(loads, s.slots);
    assert forall k :: 0 <= k < |done| ==> done[k] in done;
  }

  /** However the fragments of several calls interleave, the events about each call are those
      of its own fragments, the finished calls come in order of first appearance after all
      deltas, and what follows them ends in the stream's single TurnComplete. */
  lemma StreamIsAssembled(loads: string -> Option<Json>, cs: seq<Chunk>)
    ensures var s, fs := AfterChunks(cs), Fragments(cs);
            var completes := FlatMap(CompletesOf(loads, fs), FirstSeen(fs));
            var tail := Flush(loads, s);
            && Stream(loads, cs) == Untag(s.log) + tail
            && (forall index :: About(s.log, index) == FeedAllEvents(NEW, Own(fs, index)))
            && (forall e <- s.log :: !e.event.ToolUseComplete? && !e.event.TurnComplete?)
            && completes <= tail
            && (forall k :: 0 <= k < |tail| ==> (tail[k].ToolUseComplete? <==> k < |completes|))
            && (forall k :: 0 <= k < |tail| ==> (tail[k].TurnComplete? <==> k == |tail| - 1))
  {
    hide OnChunks, AfterChunks, Fragments, FirstSeen, FlatMap, Own, About, FeedAllEvents, FeedAll;
    var s, fs := AfterChunks(cs), Fragments(cs);
    ChunksFromStart(cs);
    FlushCompletes(loads, s, fs);
    FlushShape(loads, s);
  }

  lemma ChunksFromStart(cs: seq<Chunk>)
    ensures Inv(AfterChunks(cs), Fragments(cs)) && Live(AfterChunks(cs).log)
  {
    hide OnChunks, Fragments;
    LogIsLive(START, cs);
    ChunksKeepInv(START, [], cs);
    assert [] + Fragments(cs) == Fragments(cs);
  }

  lemma {:induction false} CompletesOnly(loads: string -> Option<Json>, slots: seq<Slot>)
    ensures forall e <- AllCompletes(loads, slots) :: e.ToolUseComplete?
  {
    if slots != [] {
      CompletesOnly(loads, slots[1..]);
    }
  }

  predicate Live(log: seq<Entry>) {
    forall e <- log :: !e.event.ToolUseComplete? && !e.event.TurnComplete?
  }

  lemma {:induction false} FragmentsAreLive(s: State, fs: seq<Fragment>)
    requires Live(s.log)
    ensures Live(OnFragments(s, fs).log)
    decreases |fs|
  {
    if fs != [] {
      FragmentsAreLive(OnFragment(s, fs[0]), fs[1..]);
    }
  }

  lemma {:induction false} LogIsLive(s: State, cs: seq<Chunk>)
    requires Live(s.log)
    ensures Live(OnChunks(s, cs).log)
    decreases |cs|
  {
    if cs != [] {
      if cs[0].choice.Some? {
        var choice := cs[0].choice.value;
        FragmentsAreLive(OnReasoning(OnText(OnUsage(s, cs[0]), choice.text), choice.reasoning), choice.calls);
      }
      LogIsLive(OnChunk(s, cs[0]), cs[1..]);
    }
  }

  /** Two streams that carry the same fragments for every call finish the same calls and tell
      the same story about each, in whatever order the fragments of different calls came; if the
      calls also first appear in the same order, they finish in the same order. */
  lemma InterleavingDoesNotMatter(loads: string -> Option<Json>, a: seq<Chunk>, b: seq<Chunk>)
    requires forall index :: Own(Fragments(a), index) == Own(Fragments(b), index)
    ensures var s, t := AfterChunks(a), AfterChunks(b);
            && (forall index :: About(s.log, index) == About(t.log, index))
            && multiset(AllCompletes(loads, s.slots)) == multiset(AllCompletes(loads, t.slots))
            && (FirstSeen(Fragments(a)) == FirstSeen(Fragments(b)) ==>
                  AllCompletes(loads, s.slots) == AllCompletes(loads, t.slots))
  {
    hide OnChunks, AfterChunks, Fragments, AllCompletes, FlatMap, Own, FirstSeen, FeedAll, FeedAllEvents, About;
    ChunksFromStart(a);
    ChunksFromStart(b);
    var s, t := AfterChunks(a), AfterChunks(b);
    var fa, fb := Fragments(a), Fragments(b);
    FlushCompletes(loads, s, fa);
    FlushCompletes(loads, t, fb);
    FirstSeenFacts(fa);
    FirstSeenFacts(fb);
    SameMembers(FirstSeen(fa), FirstSeen(fb));
    FlatMapPermuted(CompletesOf(loads, fa), FirstSeen(fa), FirstSeen(fb));
    FlatMapSame(CompletesOf(loads, fa), CompletesOf(loads, fb), FirstSeen(fb));
  }

  lemma {:induction false} FlatMapSame<A, B>(f: A -> seq<B>, g: A -> seq<B>, xs: seq<A>)
    requires forall x <- xs :: f(x) == g(x)
    ensures FlatMap(f, xs) == FlatMap(g, xs)
  {
    if xs != [] {
      FlatMapSame(f, g, xs[1..]);
    }
  }

  // ------------------------------------------------------------------
  // What one call's fragments amount to
  // ------------------------------------------------------------------

  /** The argument text in order, the last id and the last name that were sent. */
  function Args(fs: seq<Fragment>): string {
    if fs == [] then ""
    else (if fs[0].fn.Some? && fs[0].fn.value.args.Some? then fs[0].fn.value.args.value else "") + Args(fs[1..])
  }

  function LastId(fs: seq<Fragment>, id: string): string
    decreases |fs|
  {
    if fs == [] then id else LastId(fs[1..], if fs[0].id != "" then fs[0].id else id)
  }

  function LastName(fs: seq<Fragment>, name: string): string
    decreases |fs|
  {
    if fs == [] then name
    else LastName(fs[1..], if fs[0].fn.Some? && fs[0].fn.value.name != "" then fs[0].fn.value.name else name)
  }

  predicate Named(fs: seq<Fragment>) {
    exists k :: 0 <= k < |fs| && fs[k].fn.Some? && fs[k].fn.value.name != ""
  }

  function StartOf(e: Event): seq<Event> {
    if e.ToolUseStart? then [e] else []
  }

  function PartialOf(e: Event): string {
    if e.ToolUseDelta? then e.partial else ""
  }

  function Starts(events: seq<Event>): seq<Event> {
    if events == [] then [] else StartOf(events[0]) + Starts(events[1..])
  }

  /** The argument text that the deltas carry. */
  function Partials(events: seq<Event>): string {
    if events == [] then "" else PartialOf(events[0]) + Partials(events[1..])
  }

  lemma {:induction false} FedBuffer(b: Buffer, fs: seq<Fragment>)
    ensures var r := FeedAll(b, fs);
            r.args == b.args + Args(fs) && r.id == LastId(fs, b.id) && r.name == LastName(fs, b.name)
    decreases |fs|
  {
    if fs != [] {
      FedBuffer(Feed(b, fs[0]), fs[1..]);
    }
  }

  lemma {:induction false} NamedIffName(fs: seq<Fragment>, name: string)
    ensures LastName(fs, name) != "" <==> name != "" || Named(fs)
    decreases |fs|
  {
    if fs != [] {
      NamedIffName(fs[1..], if fs[0].fn.Some? && fs[0].fn.value.name != "" then fs[0].fn.value.name else name);
      if k :| 0 <= k < |fs| && fs[k].fn.Some? && fs[k].fn.value.name != "" {
        assert k > 0 ==> fs[1..][k - 1] == fs[k];
      }
      if j :| 0 <= j < |fs[1..]| && fs[1..][j].fn.Some? && fs[1..][j].fn.value.name != "" {
        assert fs[j + 1] == fs[1..][j];
      }
    }
  }

  lemma NothingStarted()
    ensures Starts([]) == [] && Partials([]) == ""
  {
  }

  lemma FirstEvent(events: seq<Event>)
    requires events != []
    ensures Starts(events) == StartOf(events[0]) + Starts(events[1..])
    ensures Partials(events) == PartialOf(events[0]) + Partials(events[1..])
  {
  }

  lemma {:induction false} EventsConcat(a: seq<Event>, b: seq<Event>)
    ensures Starts(a + b) == Starts(a) + Starts(b)
    ensures Partials(a + b) == Partials(a) + Partials(b)
  {
    hide Starts, Partials, StartOf, PartialOf;
    if a == [] {
      NothingStarted();
      assert a + b == b;
    } else {
      TailConcat(a, b);
      FirstEvent(a);
      FirstEvent(a + b);
      EventsConcat(a[1..], b);
      Regroup(StartOf(a[0]), Starts(a[1..]), Starts(b));
      Regroup(PartialOf(a[0]), Partials(a[1..]), Partials(b));
    }
  }

  lemma NameOfFirst(fs: seq<Fragment>)
    requires fs != []
    ensures LastName(fs, "") == LastName(fs[1..], if fs[0].fn.Some? && fs[0].fn.value.name != "" then fs[0].fn.value.name else "")
    ensures Args(fs) == Args([fs[0]]) + Args(fs[1..])
  {
    assert Args([fs[0]]) == if fs[0].fn.Some? && fs[0].fn.value.args.Some? then fs[0].fn.value.args.value else "";
  }

  lemma FeedOnce(b: Buffer, f: Fragment)
    ensures Starts(FeedEvents(b, f)) == if !b.started && f.fn.Some? && Feed(b, f).name != "" then [ToolUseStart(Feed(b, f).id, Feed(b, f).name)] else []
    ensures Partials(FeedEvents(b, f)) == Args([f])
  {
    var start := if f.fn.Some? && !b.started && Feed(b, f).name != "" then [ToolUseStart(Feed(b, f).id, Feed(b, f).name)] else [];
    var delta := if f.fn.None? || f.fn.value.args.None? then [] else [ToolUseDelta(Feed(b, f).id, f.fn.value.args.value)];
    assert FeedEvents(b, f) == start + delta;
    EventsConcat(start, delta);
  }

  /** A buffer is started exactly when a start has gone out, which needs a name. */
  lemma {:induction false} StartedOnce(b: Buffer, fs: seq<Fragment>)
    requires b.started == (b.name != "")
    ensures |Starts(FeedAllEvents(b, fs))| == if !b.started && Named(fs) then 1 else 0
    ensures Partials(FeedAllEvents(b, fs)) == Args(fs)
    decreases |fs|
  {
    hide Starts, Partials, FeedEvents, LastName;
    if fs == [] {
      NothingStarted();
    } else {
      var b' := Feed(b, fs[0]);
      StartedOnce(b', fs[1..]);
      FeedOnce(b, fs[0]);
      NameOfFirst(fs);
      EventsConcat(FeedEvents(b, fs[0]), FeedAllEvents(b', fs[1..]));
      NamedIffName(fs, "");
      NamedIffName(fs[1..], "");
      NamedIffName(fs[1..], if fs[0].fn.Some? && fs[0].fn.value.name != "" then fs[0].fn.value.name else "");
    }
  }

  /** Each call that is ever named starts once and finishes once, and its input decodes the
      in-order concatenation of its argument fragments, which its deltas carry; a call that is
      never named does neither. */
  lemma OneStartOneComplete(loads: string -> Option<Json>, fs: seq<Fragment>)
    ensures |Starts(FeedAllEvents(NEW, fs))| == if Named(fs) then 1 else 0
    ensures Completes(loads, FeedAll(NEW, fs)) ==
            if Named(fs) then [ToolUseComplete(LastId(fs, ""), LastName(fs, ""), InputOf(loads, Args(fs)))] else []
    ensures Partials(FeedAllEvents(NEW, fs)) == Args(fs)
  {
    StartedOnce(NEW, fs);
    FedBuffer(NEW, fs);
    NamedIffName(fs, "");
    assert "" + Args(fs) == Args(fs);
  }

  // ------------------------------------------------------------------
  // The events about one call, one by one
  // ------------------------------------------------------------------

  /** What the last of a call's fragments makes heard: a start, when it is the first to name the
      call, and its piece of the arguments; both under the id known by then. */
  function LastTells(fs: seq<Fragment>): seq<Event>
    requires fs != []
  {
    var last, id := fs[|fs| - 1], LastId(fs, "");
    if last.fn == None then []
    else
      (if last.fn.value.name != "" && !Named(fs[..|fs| - 1]) then [ToolUseStart(id, last.fn.value.name)] else [])
      + (if last.fn.value.args.Some? then [ToolUseDelta(id, last.fn.value.args.value)] else [])
  }

  function CallTells(fs: seq<Fragment>): seq<Event> {
    if fs == [] then [] else CallTells(fs[..|fs| - 1]) + LastTells(fs)
  }

  lemma {:induction false} LastIdMore(fs: seq<Fragment>, f: Fragment, id: string)
    ensures LastId(fs + [f], id) == if f.id != "" then f.id else LastId(fs, id)
    decreases |fs|
  {
    if fs == [] {
      assert fs + [f] == [f];
    } else {
      assert (fs + [f])[1..] == fs[1..] + [f];
      LastIdMore(fs[1..], f, if fs[0].id != "" then fs[0].id else id);
    }
  }

  lemma {:induction false} StartedIffNamed(fs: seq<Fragment>)
    ensures var b := FeedAll(NEW, fs);
            b.id == LastId(fs, "") && (b.started <==> Named(fs)) && (b.name != "" <==> Named(fs))
  {
    if fs != [] {
      var init, last := fs[..|fs| - 1], fs[|fs| - 1];
      assert fs == init + [last];
      StartedIffNamed(init);
      FeedAllAppend(NEW, init, last);
      LastIdMore(init, last, "");
      NamedMore(init, last);
      hide FeedAll, LastId, Named;
    }
  }

  lemma NamedMore(fs: seq<Fragment>, f: Fragment)
    ensures Named(fs + [f]) <==> Named(fs) || (f.fn.Some? && f.fn.value.name != "")
  {
    var all := fs + [f];
    assert all[|fs|] == f && forall k :: 0 <= k < |fs| ==> all[k] == fs[k];
  }

  /** The events about a call are these, fragment by fragment. */
  lemma {:induction false} CallIsTold(fs: seq<Fragment>)
    ensures FeedAllEvents(NEW, fs) == CallTells(fs)
  {
    if fs != [] {
      var init, last := fs[..|fs| - 1], fs[|fs| - 1];
      assert fs == init + [last];
      CallIsTold(init);
      FeedAllAppend(NEW, init, last);
      StartedIffNamed(init);
      LastIdMore(init, last, "");
      hide FeedAll, FeedAllEvents, LastId, Named, CallTells;
      CallTellsMore(init, last);
    }
  }

  lemma CallTellsMore(init: seq<Fragment>, last: Fragment)
    ensures CallTells(init + [last]) == CallTells(init) + LastTells(init + [last])
  {
    assert (init + [last])[..|init|] == init;
    hide LastTells;
  }

  // ------------------------------------------------------------------
  // What is said beside the calls, and how the stream ends
  // ------------------------------------------------------------------

  function Voice(): Event -> seq<Event> {
    (e: Event) => if e.ContentDelta? || e.ThinkingDelta? then [e] else []
  }

  function Heard(): Chunk -> seq<Event> {
    (c: Chunk) =>
      if c.choice == None then []
      else
        (if c.choice.value.text == "" then [] else [ContentDelta(c.choice.value.text)])
        + (if c.choice.value.reasoning == "" then [] else [ThinkingDelta(c.choice.value.reasoning)])
  }

  function Thoughts(): Chunk -> seq<string> {
    (c: Chunk) => if c.choice == None || c.choice.value.reasoning == "" then [] else [c.choice.value.reasoning]
  }

  function LastFinish(cs: seq<Chunk>): string {
    if cs == [] then ""
    else
      var last := cs[|cs| - 1];
      if last.choice.Some? && last.choice.value.finish != "" then last.choice.value.finish else LastFinish(cs[..|cs| - 1])
  }

  function LastUsage(cs: seq<Chunk>): Option<(nat, nat)> {
    if cs == [] then None
    else if cs[|cs| - 1].usage.Some? then cs[|cs| - 1].usage
    else LastUsage(cs[..|cs| - 1])
  }

  function Concat(texts: seq<string>): string {
    if texts == [] then "" else texts[0] + Concat(texts[1..])
  }

  lemma UntagJoins(a: seq<Entry>, b: seq<Entry>)
    ensures Untag(a + b) == Untag(a) + Untag(b)
  {
  }

  lemma UntagTag(about: Option<int>, events: seq<Event>)
    ensures Untag(Tag(about, events)) == events
  {
  }

  /** What is said in a log. */
  function Spoken(log: seq<Entry>): seq<Event> {
    FlatMap(Voice(), Untag(log))
  }

  lemma SpokenMore(log: seq<Entry>, about: Option<int>, events: seq<Event>)
    ensures Spoken(log + Tag(about, events)) == Spoken(log) + FlatMap(Voice(), events)
  {
    hide Tag, Untag, FlatMap, Voice;
    UntagJoins(log, Tag(about, events));
    UntagTag(about, events);
    FlatMapConcat(Voice(), Untag(log), events);
  }

  lemma CallsSayNothing(b: Buffer, f: Fragment)
    ensures FlatMap(Voice(), FeedEvents(b, f)) == []
  {
    var events := FeedEvents(b, f);
    assert forall e <- events :: e.ToolUseStart? || e.ToolUseDelta?;
    hide FeedEvents;
    SilentEvents(events);
  }

  lemma {:induction false} SilentEvents(events: seq<Event>)
    requires forall e <- events :: !e.ContentDelta? && !e.ThinkingDelta?
    ensures FlatMap(Voice(), events) == []
  {
    if events != [] { SilentEvents(events[1..]); }
  }

  lemma {:induction false} FragmentsSayNothing(s: State, fs: seq<Fragment>)
    ensures var s' := OnFragments(s, fs);
            Spoken(s'.log) == Spoken(s.log) && s'.reasoning == s.reasoning && s'.finish == s.finish && s'.usage == s.usage
    decreases |fs|
  {
    if fs != [] {
      var b := BufferOf(s.slots, fs[0].index);
      hide Spoken, BufferOf, SetBuffer, FeedEvents, Feed, Tag;
      SpokenMore(s.log, Some(fs[0].index), FeedEvents(b, fs[0]));
      CallsSayNothing(b, fs[0]);
      assert Spoken(s.log) + [] == Spoken(s.log);
      FragmentsSayNothing(OnFragment(s, fs[0]), fs[1..]);
    }
  }

  lemma ChunkSays(s: State, c: Chunk)
    ensures var s' := OnChunk(s, c);
            && Spoken(s'.log) == Spoken(s.log) + Heard()(c) && s'.reasoning == s.reasoning + Thoughts()(c)
            && s'.finish == (if c.choice.Some? && c.choice.value.finish != "" then c.choice.value.finish else s.finish)
            && s'.usage == (if c.usage.Some? then c.usage else s.usage)
  {
    hide Spoken, Tag, OnFragments;
    assert Spoken(s.log) + [] == Spoken(s.log);
    if c.choice.Some? {
      var choice := c.choice.value;
      var s1 := OnUsage(s, c);
      var s2 := OnText(s1, choice.text);
      SpokenMore(s1.log, None, [ContentDelta(choice.text)]);
      FlatMapOne(Voice(), ContentDelta(choice.text));
      SpokenMore(s2.log, None, [ThinkingDelta(choice.reasoning)]);
      FlatMapOne(Voice(), ThinkingDelta(choice.reasoning));
      FragmentsSayNothing(OnReasoning(s2, choice.reasoning), choice.calls);
    }
  }

  lemma {:induction false} ChunksAppend(s: State, cs: seq<Chunk>, c: Chunk)
    ensures OnChunks(s, cs + [c]) == OnChunk(OnChunks(s, cs), c)
    decreases |cs|
  {
    hide OnChunk;
    if cs == [] {
      assert cs + [c] == [c] && [c][1..] == [];
    } else {
      assert (cs + [c])[1..] == cs[1..] + [c];
      ChunksAppend(OnChunk(s, cs[0]), cs[1..], c);
    }
  }

  lemma {:induction false} ChunksSay(cs: seq<Chunk>)
    ensures var s := AfterChunks(cs);
            && Spoken(s.log) == FlatMap(Heard(), cs) && s.reasoning == FlatMap(Thoughts(), cs)
            && s.finish == LastFinish(cs) && s.usage == LastUsage(cs)
  {
    if cs != [] {
      var init, last := cs[..|cs| - 1], cs[|cs| - 1];
      assert cs == init + [last];
      ChunksSay(init);
      hide OnChunk, OnChunks, Spoken, Heard, Thoughts, FlatMap;
      ChunksAppend(START, init, last);
      ChunkSays(OnChunks(START, init), last);
      FlatMapConcat(Heard(), init, [last]);
      FlatMapOne(Heard(), last);
      FlatMapConcat(Thoughts(), init, [last]);
      FlatMapOne(Thoughts(), last);
    }
  }

  lemma {:induction false} JoinedIs(texts: seq<string>)
    ensures FlatMap((r: string) => r, texts) == Concat(texts)
  {
    if texts != [] { JoinedIs(texts[1..]); }
  }

  /** The finish reason decides why the turn stopped. */
  predicate StopsFor(finish: string, stop: StopReason) {
    && (stop == MaxTokens <==> finish == "length")
    && (stop == ToolUseStop <==> finish == "tool_calls" || finish == "function_call")
    && (stop == ErrorStop <==> finish == "content_filter")
  }

  lemma CompletesSayNothing(loads: string -> Option<Json>, slots: seq<Slot>)
    ensures FlatMap(Voice(), AllCompletes(loads, slots)) == []
  {
    CompletesOnly(loads, slots);
    hide AllCompletes;
    SilentEvents(AllCompletes(loads, slots));
  }

  /** Beside its calls a stream says every text and every thought of its chunks, piece by piece and
      in order; it ends with all thoughts in one block, the last usage and the last finish reason. */
  lemma StreamSays(loads: string -> Option<Json>, cs: seq<Chunk>) returns (front: seq<Event>, stop: StopReason)
    ensures FlatMap(Voice(), Stream(loads, cs)) == FlatMap(Heard(), cs)
    ensures var thoughts, usage := FlatMap(Thoughts(), cs), LastUsage(cs);
            && Stream(loads, cs)
               == front + (if thoughts == [] then [] else [ThinkingBlockComplete(Concat(thoughts))])
                  + (if usage == None then [] else [Usage(usage.value.0, usage.value.1)]) + [TurnComplete(stop)]
            && StopsFor(LastFinish(cs), stop)
  {
    hide AfterChunks, FlatMap, AllCompletes, Untag, LastFinish, LastUsage, Heard, Thoughts;
    var s := AfterChunks(cs);
    ChunksSay(cs);
    JoinedIs(s.reasoning);
    front, stop := Untag(s.log) + AllCompletes(loads, s.slots), StopOf(s.finish);
    var tail := (if s.reasoning == [] then [] else [ThinkingBlockComplete(Concat(s.reasoning))])
                + (if s.usage.None? then [] else [Usage(s.usage.value.0, s.usage.value.1)]) + [TurnComplete(stop)];
    assert Stream(loads, cs) == front + tail;
    FlatMapConcat(Voice(), front, tail);
    FlatMapConcat(Voice(), Untag(s.log), AllCompletes(loads, s.slots));
    CompletesSayNothing(loads, s.slots);
    SilentEvents(tail);
    assert FlatMap(Heard(), cs) + [] + [] == FlatMap(Heard(), cs);
  }
}
