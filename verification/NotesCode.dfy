/** The two notes operations in the source's own form: read the files, build new text, write
    each file in one step (src/lyre/runtime/wakeup_summary.py). */
module NotesCode {
  import opened Wrappers
  import opened Seqs
  import opened NotesRotation
  import opened NotesLaws

  /** One more line: a header opens an entry, any other line extends the last one. */
  function Grow(bs: seq<Block>, l: Line): seq<Block> {
    if l.id.Some? then bs + [Block(l.id.value, [l])]
    else if bs == [] then []
    else bs[..|bs| - 1] + [bs[|bs| - 1].(lines := bs[|bs| - 1].lines + [l])]
  }

  lemma {:induction false} OneLineMore(a: seq<Line>, l: Line)
    ensures Blocks(a + [l]) == Grow(Blocks(a), l)
    ensures Leading(a + [l]) == if l.id.None? && Blocks(a) == [] then Leading(a) + [l] else Leading(a)
  {
    if a == [] {
      assert a + [l] == [l];
      assert Blocks([l]) == if l.id.Some? then [Block(l.id.value, [l])] else [] by {
        assert [l][1..] == [];
        assert [l] + [] == [l];
      }
    } else {
      assert (a + [l])[1..] == a[1..] + [l];
      OneLineMore(a[1..], l);
      var rest, lead := Blocks(a[1..]), Leading(a[1..]);
      if a[0].id.None? {
        assert Leading(a) == [a[0]] + lead;
      } else {
        var first := Block(a[0].id.value, [a[0]] + lead);
        assert Blocks(a) == [first] + rest;
        if l.id.Some? {
          assert [first] + (rest + [Block(l.id.value, [l])]) == [first] + rest + [Block(l.id.value, [l])];
        } else if rest == [] {
          assert [a[0]] + (lead + [l]) == [a[0]] + lead + [l];
        } else {
          assert ([first] + rest)[..|rest|] == [first] + rest[..|rest| - 1];
        }
      }
    }
  }

  lemma NothingUnseen(seen: seq<string>)
    ensures Unseen([], seen) == []
  {
  }

  lemma UnseenOne(bs: seq<Block>, seen: seq<string>)
    requires bs != []
    ensures Unseen(bs, seen) == (if bs[0].id in seen then [] else [bs[0]]) + Unseen(bs[1..], seen)
  {
  }

  lemma NothingLeft()
    ensures WithoutPointers([]) == []
  {
  }

  lemma OnePointer(lines: seq<Line>)
    requires lines != []
    ensures WithoutPointers(lines) == (if lines[0].pointer then [] else [lines[0]]) + WithoutPointers(lines[1..])
  {
  }

  class NotesStore {
    var notes: seq<Line>
    var archive: seq<Line>

    constructor (start: seq<Line>)
      ensures State() == World(start, [])
    {
      notes, archive := start, [];
    }

    ghost function State(): World
      reads this
    {
      World(notes, archive)
    }

    method FindSection(lines: seq<Line>) returns (p: nat)
      ensures p == MarkerPos(lines)
    {
      p := 0;
      while p < |lines| && !lines[p].marker
        invariant p <= |lines|
        invariant MarkerPos(lines) == p + MarkerPos(lines[p..])
      {
        assert lines[p..][1..] == lines[p + 1..];
        p := p + 1;
      }
    }

    method AppendToNotes(e: Entry)
      modifies this
      ensures State() == Next(old(State()), AppendEntry(e))
    {
      var p := FindSection(notes);
      var entry := [BLANK, e.header] + e.summary;
      if p < |notes| {
        notes := notes[..p + 1] + (entry + notes[p + 1..]);
      } else {
        notes := notes + [BLANK, SECTION] + entry;
      }
    }

    method DropPointers(lines: seq<Line>) returns (kept: seq<Line>)
      ensures kept == WithoutPointers(lines)
    {
      hide WithoutPointers;
      kept := [];
      assert lines[0..] == lines;
      NothingLeft();
      for i := 0 to |lines|
        invariant WithoutPointers(lines) == kept + WithoutPointers(lines[i..])
      {
        assert lines[i..][1..] == lines[i + 1..];
        OnePointer(lines[i..]);
        if !lines[i].pointer {
          kept := kept + [lines[i]];
        }
      }
    }

    /** Cuts a text at its entry headers. */
    method ParseEntries(lines: seq<Line>) returns (leading: seq<Line>, blocks: seq<Block>)
      ensures leading == Leading(lines) && blocks == Blocks(lines)
    {
      leading, blocks := [], [];
      for i := 0 to |lines|
        invariant leading == Leading(lines[..i]) && blocks == Blocks(lines[..i])
      {
        assert lines[..i + 1] == lines[..i] + [lines[i]];
        OneLineMore(lines[..i], lines[i]);
        hide Blocks, Leading;
        if lines[i].id.Some? {
          blocks := blocks + [Block(lines[i].id.value, [lines[i]])];
        } else if blocks == [] {
          leading := leading + [lines[i]];
        } else {
          var last := blocks[|blocks| - 1];
          blocks := blocks[..|blocks| - 1] + [last.(lines := last.lines + [lines[i]])];
        }
      }
      assert lines[..|lines|] == lines;
    }

    /** The overflow in reverse, that is oldest first, without what is archived already. */
    method SelectForArchive(overflow: seq<Block>, seen: seq<string>) returns (selected: seq<Block>)
      ensures selected == Unseen(Reverse(overflow), seen)
    {
      hide Unseen, Reverse;
      selected := [];
      var all := Reverse(overflow);
      assert all[0..] == all;
      NothingUnseen(seen);
      for i := 0 to |all|
        invariant Unseen(all, seen) == selected + Unseen(all[i..], seen)
      {
        assert all[i..][1..] == all[i + 1..];
        UnseenOne(all[i..], seen);
        if all[i].id !in seen {
          selected := selected + [all[i]];
        }
      }
    }

    method ArchivedIds() returns (ids: seq<string>)
      ensures ids == IdsOf(Blocks(archive))
    {
      var _, blocks := ParseEntries(archive);
      ids := IdsOf(blocks);
    }

    method AppendToArchive(blocks: seq<Block>)
      modifies this`archive
      ensures archive == old(archive) + Flatten(blocks)
    {
      for i := 0 to |blocks|
        invariant archive + Flatten(blocks[i..]) == old(archive) + Flatten(blocks)
      {
        assert blocks[i..][1..] == blocks[i + 1..];
        archive := archive + blocks[i].lines;
      }
    }

    /** `survives` is false when the process dies after the archive was written. */
    method MaybeRotateNotes(hasStore: bool, maxEntries: int, pointer: Line, survives: bool)
      modifies this
      ensures State() == if hasStore then Next(old(State()), Rotate(maxEntries, pointer, survives)) else old(State())
    {
      hide Blocks, Leading, WithoutPointers, Flatten, Unseen, Reverse, MarkerPos;
      if maxEntries <= 0 || !hasStore {
        return;
      }
      var p := FindSection(notes);
      if p == |notes| {
        NoSection(notes);
        return;
      }
      var prefix := notes[..p + 1];
      var body := DropPointers(notes[p + 1..]);
      var leading, entries := ParseEntries(body);
      if |entries| <= maxEntries {
        return;
      }
      var keepRecent := if maxEntries / 2 > 1 then maxEntries / 2 else 1;
      var keep, overflow := entries[..keepRecent], entries[keepRecent..];
      var seen := ArchivedIds();
      var toArchive := SelectForArchive(overflow, seen);
      AppendToArchive(toArchive);
      if !survives {
        return;
      }
      notes := prefix + ((leading + Flatten(keep)) + [BLANK, pointer]);
    }
  }
}
