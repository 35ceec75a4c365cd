/** The assembling loop of `stream_turn` (src/lyre/adapter/openai.py), its buffers an
    insertion-ordered dictionary updated in place. */
module ToolStreamCode {
  import opened Wrappers
  import opened Seqs
  import opened Messages
  import opened ToolStream

  lemma UntagConcat(a: seq<Entry>, about: Option<int>, events: seq<Event>)
    ensures Untag(a + Tag(about, events)) == Untag(a) + events
  {
  }

  lemma NothingCompletes(loads: string -> Option<Json>)
    ensures AllCompletes(loads, []) == []
  {
  }

  lemma FirstCompletes(loads: string -> Option<Json>, slots: seq<Slot>)
    requires slots != []
    ensures AllCompletes(loads, slots) == Completes(loads, slots[0].buffer) + AllCompletes(loads, slots[1..])
  {
    hide Completes;
  }

  class Assembler {
    const loads: string -> Option<Json>
    var toolBuffers: seq<Slot>
    var reasoning: seq<string>
    var lastFinish: string
    var usage: Option<(nat, nat)>
    var emitted: seq<Event>
    ghost var log: seq<Entry>   // `emitted`, with the call each event is about

    constructor (loads: string -> Option<Json>)
      ensures this.loads == loads && Current() == START && Valid()
    {
      this.loads := loads;
      toolBuffers, reasoning, lastFinish, usage, emitted, log := [], [], "", None, [], [];
    }

    ghost function Current(): State
      reads this
    {
      State(toolBuffers, log, reasoning, lastFinish, usage)
    }

    ghost predicate Valid()
      reads this
    {
      emitted == Untag(log)
    }

    method Emit(ghost about: Option<int>, e: Event)
      requires Valid()
      modifies this`emitted, this`log
      ensures Valid() && log == old(log) + Tag(about, [e])
    {
      UntagConcat(log, about, [e]);
      emitted := emitted + [e];
      log := log + Tag(about, [e]);
    }

    method FindBuffer(index: int) returns (k: nat)
      ensures k == SlotOf(toolBuffers, index)
    {
      k := 0;
      while k < |toolBuffers| && toolBuffers[k].index != index
        invariant k <= |toolBuffers|
        invariant forall j :: 0 <= j < k ==> toolBuffers[j].index != index
      {
        k := k + 1;
      }
    }

    /** Updates a call's buffer with a fragment, emitting its start and its delta on the way. */
    method FeedBuffer(b: Buffer, f: Fragment) returns (buf: Buffer)
      requires Valid()
      modifies this`emitted, this`log
      ensures Valid() && buf == Feed(b, f) && log == old(log) + Tag(Some(f.index), FeedEvents(b, f))
    {
      buf := if f.id != "" then b.(id := f.id) else b;
      ghost var events: seq<Event> := [];
      assert log == old(log) + Tag(Some(f.index), events);
      if f.fn.Some? {
        var fn := f.fn.value;
        if fn.name != "" {
          buf := buf.(name := fn.name);
        }
        if !buf.started && buf.name != "" {
          Emit(Some(f.index), ToolUseStart(buf.id, buf.name));
          events := [ToolUseStart(buf.id, buf.name)];
          buf := buf.(started := true);
        }
        assert log == old(log) + Tag(Some(f.index), events);
        if fn.args.Some? {
          buf := buf.(args := buf.args + fn.args.value);
          Emit(Some(f.index), ToolUseDelta(buf.id, fn.args.value));
          events := events + [ToolUseDelta(buf.id, fn.args.value)];
          assert log == old(log) + Tag(Some(f.index), events);
        }
      }
      assert events == FeedEvents(b, f);
    }

    method TakeFragment(f: Fragment)
      requires Valid()
      modifies this
      ensures Valid() && Current() == OnFragment(old(Current()), f)
    {
      hide Feed, FeedEvents, Tag, Untag;
      var k := FindBuffer(f.index);
      var buf := FeedBuffer(if k < |toolBuffers| then toolBuffers[k].buffer else NEW, f);
      toolBuffers := if k < |toolBuffers| then toolBuffers[k := Slot(f.index, buf)] else toolBuffers + [Slot(f.index, buf)];
    }

    method TakeChunk(c: Chunk)
      requires Valid()
      modifies this
      ensures Valid() && Current() == OnChunk(old(Current()), c)
    {
      if c.usage.Some? {
        usage := c.usage;
      }
      if c.choice.None? {
        return;
      }
      var choice := c.choice.value;
      if choice.text != "" {
        Emit(None, ContentDelta(choice.text));
      }
      if choice.reasoning != "" {
        reasoning := reasoning + [choice.reasoning];
        Emit(None, ThinkingDelta(choice.reasoning));
      }
      ghost var s := Current();
      var i := 0;
      while i < |choice.calls|
        invariant 0 <= i <= |choice.calls| && Valid()
        invariant OnFragments(Current(), choice.calls[i..]) == OnFragments(s, choice.calls)
      {
        assert choice.calls[i..][1..] == choice.calls[i + 1..];
        TakeFragment(choice.calls[i]);
        i := i + 1;
      }
      if choice.finish != "" {
        lastFinish := choice.finish;
      }
    }

    /** The finished calls in the dictionary's order; an unnamed one is skipped. */
    method FlushBuffers() returns (events: seq<Event>)
      ensures events == AllCompletes(loads, toolBuffers)
    {
      hide AllCompletes;
      events := [];
      assert toolBuffers[0..] == toolBuffers;
      NothingCompletes(loads);
      var i := 0;
      while i < |toolBuffers|
        invariant 0 <= i <= |toolBuffers|
        invariant AllCompletes(loads, toolBuffers) == events + AllCompletes(loads, toolBuffers[i..])
      {
        assert toolBuffers[i..][1..] == toolBuffers[i + 1..];
        FirstCompletes(loads, toolBuffers[i..]);
        var buf := toolBuffers[i].buffer;
        if buf.name != "" {
          var parsed := if buf.args == "" then Some(JObj(map[])) else loads(buf.args);
          var input := if parsed.Some? && parsed.value.JObj? then parsed.value.fields else map["_raw" := JStr(buf.args)];
          events := events + [ToolUseComplete(buf.id, buf.name, input)];
        }
        i := i + 1;
      }
      assert toolBuffers[i..] == [];
    }

    method JoinReasoning() returns (text: string)
      ensures text == FlatMap((r: string) => r, reasoning)
    {
      text := "";
      for i := 0 to |reasoning|
        invariant FlatMap((r: string) => r, reasoning) == text + FlatMap((r: string) => r, reasoning[i..])
      {
        assert reasoning[i..][1..] == reasoning[i + 1..];
        text := text + reasoning[i];
      }
    }
  }

  /** One turn: everything the stream emits, from the first chunk to TurnComplete. */
  method StreamTurn(loads: string -> Option<Json>, chunks: seq<Chunk>) returns (events: seq<Event>)
    ensures events == Stream(loads, chunks)
  {
    hide OnChunk, AllCompletes, FlatMap;
    var a := new Assembler(loads);
    ghost var start := a.Current();
    var i := 0;
    while i < |chunks|
      invariant 0 <= i <= |chunks| && a.Valid()
      invariant OnChunks(a.Current(), chunks[i..]) == OnChunks(start, chunks)
      modifies a
    {
      assert chunks[i..][1..] == chunks[i + 1..];
      a.TakeChunk(chunks[i]);
      i := i + 1;
    }
    assert a.Current() == OnChunks(start, chunks);
    events := a.emitted;
    var completes := a.FlushBuffers();
    events := events + completes;
    if a.reasoning != [] {
      var text := a.JoinReasoning();
      events := events + [ThinkingBlockComplete(text)];
    }
    if a.usage.Some? {
      events := events + [Usage(a.usage.value.0, a.usage.value.1)];
    }
    events := events + [TurnComplete(StopOf(a.lastFinish))];
  }
}
