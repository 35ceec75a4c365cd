/**
 Rotation loses nothing: the archive is a prefix of the chronological log of entries, the
 notes file holds a suffix of it newest first, and together they cover it, at every moment
 and whatever crashes between the two writes.
 */
module NotesLaws {
  import opened Wrappers
  import opened Seqs
  import opened NotesRotation

  // ------------------------------------------------------------------
  // Lines
  // ------------------------------------------------------------------

  predicate NoHeader(lines: seq<Line>) {
    forall l <- lines :: l.id.None?
  }

  predicate NoPointer(lines: seq<Line>) {
    forall l <- lines :: !l.pointer
  }

  predicate AllBlank(lines: seq<Line>) {
    forall l <- lines :: l == BLANK
  }

  lemma {:induction false} WithoutPointersConcat(a: seq<Line>, b: seq<Line>)
    ensures WithoutPointers(a + b) == WithoutPointers(a) + WithoutPointers(b)
  {
    if a == [] {
      assert a + b == b;
    } else {
      assert (a + b)[1..] == a[1..] + b;
      WithoutPointersConcat(a[1..], b);
    }
  }

  lemma {:induction false} WithoutPointersFacts(a: seq<Line>)
    ensures NoPointer(WithoutPointers(a))
    ensures NoPointer(a) ==> WithoutPointers(a) == a
  {
    if a != [] {
      WithoutPointersFacts(a[1..]);
      assert NoPointer(a) ==> a[0] in a && NoPointer(a[1..]);
    }
  }

  lemma {:induction false} MarkerConcat(a: seq<Line>, b: seq<Line>)
    ensures MarkerPos(a + b) == if MarkerPos(a) < |a| then MarkerPos(a) else |a| + MarkerPos(b)
  {
    if a == [] {
      assert a + b == b;
    } else {
      assert (a + b)[1..] == a[1..] + b;
      MarkerConcat(a[1..], b);
    }
  }

  lemma {:induction false} MarkerFacts(a: seq<Line>)
    ensures MarkerPos(a) < |a| ==> a[MarkerPos(a)].marker && MarkerPos(a[..MarkerPos(a) + 1]) == MarkerPos(a)
  {
    if a != [] && !a[0].marker {
      MarkerFacts(a[1..]);
      var p := MarkerPos(a);
      if p < |a| {
        assert a[..p + 1][1..] == a[1..][..p];
      }
    }
  }

  // ------------------------------------------------------------------
  // Blocks
  // ------------------------------------------------------------------

  /** Lines without a header belong to what stands before them. */
  lemma {:induction false} SkipLeading(pre: seq<Line>, b: seq<Line>)
    requires NoHeader(pre)
    ensures Blocks(pre + b) == Blocks(b) && Leading(pre + b) == pre + Leading(b)
  {
    if pre == [] {
      assert pre + b == b;
    } else {
      assert (pre + b)[1..] == pre[1..] + b;
      assert pre[0] in pre && forall l <- pre[1..] :: l in pre;
      SkipLeading(pre[1..], b);
    }
  }

  /** A text that starts with a header adds its entries and changes none before it. */
  lemma {:induction false} BlocksConcat(a: seq<Line>, b: seq<Line>)
    requires b != [] ==> b[0].id.Some?
    ensures Blocks(a + b) == Blocks(a) + Blocks(b) && Leading(a + b) == Leading(a)
  {
    if a == [] {
      assert a + b == b;
    } else {
      assert (a + b)[1..] == a[1..] + b;
      BlocksConcat(a[1..], b);
    }
  }

  /** One entry: a header and lines that are not headers. */
  predicate Proper(b: Block) {
    b.lines != [] && b.lines[0].id == Some(b.id) && NoHeader(b.lines[1..])
  }

  lemma {:induction false} LeadingHasNoHeader(lines: seq<Line>)
    ensures NoHeader(Leading(lines))
  {
    if lines != [] && lines[0].id.None? {
      LeadingHasNoHeader(lines[1..]);
    }
  }

  lemma {:induction false} BlocksAreProper(lines: seq<Line>)
    ensures forall b <- Blocks(lines) :: Proper(b)
  {
    if lines != [] {
      BlocksAreProper(lines[1..]);
      LeadingHasNoHeader(lines[1..]);
      if lines[0].id.Some? {
        assert ([lines[0]] + Leading(lines[1..]))[1..] == Leading(lines[1..]);
      }
    }
  }

  lemma ProperParses(b: Block)
    requires Proper(b)
    ensures Blocks(b.lines) == [b]
  {
    var rest := b.lines[1..];
    SkipLeading(rest, []);
    assert rest + [] == rest;
    assert Blocks([]) == [] && Leading([]) == [];
    assert [b.lines[0]] + rest == b.lines;
  }

  lemma {:induction false} FlattenParses(bs: seq<Block>)
    requires forall b <- bs :: Proper(b)
    ensures Blocks(Flatten(bs)) == bs
    ensures if bs == [] then Flatten(bs) == [] else Flatten(bs) != [] && Flatten(bs)[0].id.Some?
  {
    if bs != [] {
      FlattenParses(bs[1..]);
      ProperParses(bs[0]);
      BlocksConcat(bs[0].lines, Flatten(bs[1..]));
    }
  }

  /** A text is its leading lines and its entries, and nothing else. */
  lemma {:induction false} TextIsItsBlocks(lines: seq<Line>)
    ensures lines == Leading(lines) + Flatten(Blocks(lines))
  {
    if lines != [] {
      TextIsItsBlocks(lines[1..]);
      if lines[0].id.Some? {
        assert Blocks(lines)[1..] == Blocks(lines[1..]);
      }
    }
  }

  lemma {:induction false} FlattenConcat(a: seq<Block>, b: seq<Block>)
    ensures Flatten(a + b) == Flatten(a) + Flatten(b)
  {
    if a == [] {
      assert a + b == b;
    } else {
      assert (a + b)[1..] == a[1..] + b;
      FlattenConcat(a[1..], b);
    }
  }

  // ------------------------------------------------------------------
  // Entries up to trailing blank lines
  // ------------------------------------------------------------------

  function Trim(lines: seq<Line>): seq<Line> {
    if lines != [] && lines[|lines| - 1] == BLANK then Trim(lines[..|lines| - 1]) else lines
  }

  function Core(b: Block): Block {
    Block(b.id, Trim(b.lines))
  }

  function Cores(bs: seq<Block>): seq<Block> {
    seq(|bs|, i requires 0 <= i < |bs| => Core(bs[i]))
  }

  lemma {:induction false} TrimBlank(lines: seq<Line>, blank: seq<Line>)
    requires AllBlank(blank)
    ensures Trim(lines + blank) == Trim(lines)
    decreases |blank|
  {
    if blank == [] {
      assert lines + blank == lines;
    } else {
      var init := blank[..|blank| - 1];
      assert (lines + blank)[..|lines + blank| - 1] == lines + init;
      assert blank[|blank| - 1] in blank && forall l <- init :: l in blank;
      TrimBlank(lines, init);
    }
  }

  // ------------------------------------------------------------------
  // What each operation does to the entries
  // ------------------------------------------------------------------

  /** The notes hold a section, and `head` is everything up to and including its header. */
  ghost predicate Sectioned(notes: seq<Line>, head: seq<Line>) {
    MarkerPos(notes) < |notes| && Prefix(notes) == head
  }

  lemma SectionedText(head: seq<Line>, tail: seq<Line>)
    requires MarkerPos(head) < |head| && MarkerPos(head) == |head| - 1
    ensures Sectioned(head + tail, head) && Body(head + tail) == WithoutPointers(tail)
  {
    MarkerConcat(head, tail);
    assert (head + tail)[..|head|] == head && (head + tail)[|head|..] == tail;
  }

  lemma PrefixEndsInMarker(notes: seq<Line>)
    requires MarkerPos(notes) < |notes|
    ensures MarkerPos(Prefix(notes)) == |Prefix(notes)| - 1
    ensures notes == Prefix(notes) + notes[MarkerPos(notes) + 1..]
  {
    MarkerFacts(notes);
  }

  /** An entry's own lines as they are read back: a pointer-shaped line is passed over. */
  function OwnLines(e: Entry): seq<Line> {
    [e.header] + WithoutPointers(e.summary)
  }

  /** The entries that one append makes, newest first: the one it writes and, when the summary
      holds header-shaped lines, one from each of them; the last takes the lines below. */
  function EntryBlocks(e: Entry, below: seq<Line>): seq<Block> {
    Blocks(OwnLines(e) + below)
  }

  predicate Plain(e: Entry) {
    WellFormed(e) && NoHeader(e.summary) && NoPointer(e.summary)
  }

  /** A summary without header- and pointer-shaped lines makes one entry. */
  lemma PlainEntry(e: Entry, below: seq<Line>)
    requires Plain(e) && NoHeader(below)
    ensures EntryBlocks(e, below) == [Block(e.header.id.value, [e.header] + e.summary + below)]
  {
    WithoutPointersFacts(e.summary);
    var b := Block(e.header.id.value, [e.header] + e.summary + below);
    assert b.lines[1..] == e.summary + below;
    ProperParses(b);
  }

  lemma HeaderComesFirst(lines: seq<Line>)
    requires lines != [] && lines[0].id.Some?
    ensures Leading(lines) == [] && Blocks(lines) != [] && Blocks(lines)[0].id == lines[0].id.value
    ensures Blocks(lines)[0].lines != [] && Blocks(lines)[0].lines[0] == lines[0]
  {
  }

  lemma BlankComesFirst(lines: seq<Line>)
    ensures Blocks([BLANK] + lines) == Blocks(lines) && Leading([BLANK] + lines) == [BLANK] + Leading(lines)
  {
    SkipLeading([BLANK], lines);
  }

  /** The text of an entry written above others. */
  lemma EntryParses(e: Entry, body: seq<Line>)
    requires WellFormed(e)
    ensures Blocks([BLANK] + OwnLines(e) + body) == EntryBlocks(e, Leading(body)) + Blocks(body)
    ensures Leading([BLANK] + OwnLines(e) + body) == [BLANK]
  {
    var own, rest := OwnLines(e) + Leading(body), Flatten(Blocks(body));
    HeaderComesFirst(own);
    hide Blocks, Leading, Flatten, WithoutPointers;
    TextIsItsBlocks(body);
    BlocksAreProper(body);
    FlattenParses(Blocks(body));
    BlocksConcat(own, rest);
    BlankComesFirst(own + rest);
    Regroup(OwnLines(e), Leading(body), rest);
    Regroup([BLANK], OwnLines(e), body);
    assert [BLANK] + [] == [BLANK];
  }

  /** Appending puts the entry in front of the others and keeps the text above the section
      header. */
  lemma AppendBlocks(notes: seq<Line>, e: Entry)
    requires WellFormed(e)
    ensures var notes' := Append(notes, e);
            && Sectioned(notes', if MarkerPos(notes) < |notes| then Prefix(notes) else WithSection(notes))
            && HotBlocks(notes') == EntryBlocks(e, Leading(Body(notes))) + HotBlocks(notes)
            && EntryBlocks(e, Leading(Body(notes))) != []
            && EntryBlocks(e, Leading(Body(notes)))[0].lines[..1] == [e.header]
            && Leading(Body(notes')) == [BLANK]
  {
    HeaderComesFirst(OwnLines(e) + Leading(Body(notes)));
    hide Leading, Blocks, WithoutPointers, Append, Body, OwnLines;
    EntryParses(e, Body(notes));
    if MarkerPos(notes) < |notes| {
      AppendInSection(notes, e);
    } else {
      AppendNewSection(notes, e);
    }
  }

  lemma WrittenFacts(e: Entry)
    requires WellFormed(e)
    ensures WithoutPointers(Written(e)) == [BLANK] + OwnLines(e)
  {
    WithoutPointersConcat([BLANK, e.header], e.summary);
    WithoutPointersFacts([BLANK, e.header]);
    hide WithoutPointers;
    Regroup([BLANK], [e.header], WithoutPointers(e.summary));
    assert [BLANK] + [e.header] == [BLANK, e.header];
  }

  lemma AppendText(notes: seq<Line>, e: Entry)
    requires MarkerPos(notes) < |notes|
    ensures Append(notes, e) == Prefix(notes) + (Written(e) + Below(notes))
  {
    hide MarkerPos, Prefix, Below, Written, WithSection;
  }

  lemma AppendInSection(notes: seq<Line>, e: Entry)
    requires MarkerPos(notes) < |notes|
    ensures Sectioned(Append(notes, e), Prefix(notes))
    ensures WellFormed(e) ==> Body(Append(notes, e)) == [BLANK] + OwnLines(e) + Body(notes)
  {
    hide WithoutPointers, Written, MarkerPos, Prefix, Sectioned, Below, OwnLines, Append, WellFormed;
    AppendText(notes, e);
    PrefixEndsInMarker(notes);
    SectionedText(Prefix(notes), Written(e) + Below(notes));
    if WellFormed(e) {
      WrittenFacts(e);
      WithoutPointersConcat(Written(e), Below(notes));
    }
  }

  lemma AppendNewSection(notes: seq<Line>, e: Entry)
    requires WellFormed(e) && MarkerPos(notes) == |notes|
    ensures Sectioned(Append(notes, e), WithSection(notes))
    ensures Body(notes) == [] && Body(Append(notes, e)) == [BLANK] + OwnLines(e) + Body(notes)
  {
    hide WithoutPointers, Written, OwnLines, MarkerPos, Prefix, WellFormed, WithSection;
    WrittenFacts(e);
    NoSection(notes);
    NewSection(notes);
    SectionedText(WithSection(notes), Written(e));
    assert [BLANK] + OwnLines(e) + [] == [BLANK] + OwnLines(e);
  }

  lemma NewSection(notes: seq<Line>)
    requires MarkerPos(notes) == |notes|
    ensures MarkerPos(WithSection(notes)) == |notes| + 1 == |WithSection(notes)| - 1
  {
    MarkerConcat(notes, [BLANK, SECTION]);
    assert [BLANK, SECTION][1..] == [SECTION];
  }

  /** A finished rotation keeps the newest entries, up to blank lines, and the text above. */
  lemma RewriteBlocks(notes: seq<Line>, n: int, pointer: Line)
    requires Rotates(notes, n) && pointer.pointer && pointer.id.None?
    ensures var notes' := Rewritten(notes, n, pointer);
            && Sectioned(notes', Prefix(notes))
            && Cores(HotBlocks(notes')) == Cores(HotBlocks(notes)[..KeepRecent(n)])
            && |HotBlocks(notes')| == KeepRecent(n)
            && Leading(Body(notes')) == Leading(Body(notes))
  {
    hide Leading, Blocks, WithoutPointers, Flatten;
    var body, bs, k := Body(notes), HotBlocks(notes), KeepRecent(n);
    var lead, keep := Leading(body), bs[..k];
    assert MarkerPos(notes) < |notes| by {
      if MarkerPos(notes) == |notes| { NoSection(notes); }
    }
    PrefixEndsInMarker(notes);
    var kept := lead + Flatten(keep);
    PointerGoesAway(pointer);
    KeptHasNoPointer(notes, k);
    WithoutPointersFacts(kept);
    WithoutPointersConcat(kept, [BLANK, pointer]);
    SectionedText(Prefix(notes), kept + [BLANK, pointer]);
    BlocksAreProper(body);
    KeptParses(lead, keep, body);
  }

  lemma NoBlocks()
    ensures Blocks([]) == []
  {
  }

  /** Without a section there are no entries. */
  lemma NoSection(notes: seq<Line>)
    requires MarkerPos(notes) == |notes|
    ensures Body(notes) == [] && HotBlocks(notes) == []
  {
    NoBlocks();
    assert WithoutPointers([]) == [];
  }

  lemma PointerGoesAway(pointer: Line)
    requires pointer.pointer
    ensures WithoutPointers([BLANK, pointer]) == [BLANK]
  {
    assert [BLANK, pointer][1..] == [pointer];
    assert WithoutPointers([pointer]) == [] + WithoutPointers([]);
    assert WithoutPointers([]) == [];
  }

  lemma KeptHasNoPointer(notes: seq<Line>, k: nat)
    requires MarkerPos(notes) < |notes| && k <= |HotBlocks(notes)|
    ensures NoPointer(Leading(Body(notes)) + Flatten(HotBlocks(notes)[..k]))
  {
    hide Blocks, Flatten, Leading, WithoutPointers, Below, MarkerPos;
    var body, bs := Body(notes), HotBlocks(notes);
    TextIsItsBlocks(body);
    WithoutPointersFacts(Below(notes));
    assert bs == bs[..k] + bs[k..];
    FlattenConcat(bs[..k], bs[k..]);
    Regroup(Leading(body), Flatten(bs[..k]), Flatten(bs[k..]));
    NoPointerBefore(Leading(body) + Flatten(bs[..k]), Flatten(bs[k..]));
  }

  lemma NoPointerBefore(a: seq<Line>, b: seq<Line>)
    requires NoPointer(a + b)
    ensures NoPointer(a)
  {
    assert forall l <- a :: l in a + b;
  }

  lemma FlattenOne(b: Block)
    ensures Flatten([b]) == b.lines
  {
    assert Flatten([b]) == b.lines + [];
  }

  /** The last kept entry takes the blank line before the pointer. */
  lemma GrowLast(keep: seq<Block>) returns (blocks: seq<Block>)
    requires keep != [] && forall b <- keep :: Proper(b)
    ensures |blocks| == |keep| && Cores(blocks) == Cores(keep)
    ensures Flatten(blocks) == Flatten(keep) + [BLANK] && forall b <- blocks :: Proper(b)
  {
    hide Flatten, Trim;
    var init, last := keep[..|keep| - 1], keep[|keep| - 1];
    var grown := last.(lines := last.lines + [BLANK]);
    assert keep == init + [last] && last in keep && forall b <- init :: b in keep;
    assert grown.lines[1..] == last.lines[1..] + [BLANK];
    assert Proper(grown);
    TrimBlank(last.lines, [BLANK]);
    hide Proper;
    FlattenConcat(init, [last]);
    FlattenOne(last);
    FlattenConcat(init, [grown]);
    FlattenOne(grown);
    blocks := init + [grown];
    assert Cores(blocks) == Cores(keep);
    assert Flatten(init) + (last.lines + [BLANK]) == Flatten(init) + last.lines + [BLANK];
  }

  lemma KeptParses(lead: seq<Line>, keep: seq<Block>, body: seq<Line>)
    requires keep != [] && lead == Leading(body) && forall b <- keep :: Proper(b)
    ensures var text := lead + Flatten(keep) + [BLANK];
            && |Blocks(text)| == |keep| && Cores(Blocks(text)) == Cores(keep) && Leading(text) == lead
  {
    var blocks := GrowLast(keep);
    FlattenParses(blocks);
    LeadingHasNoHeader(body);
    SkipLeading(lead, Flatten(blocks));
    assert Leading(Flatten(blocks)) == [];
    hide Flatten, Proper, Blocks, Leading;
    assert lead + Flatten(keep) + [BLANK] == lead + Flatten(blocks);
    assert lead + [] == lead;
  }

  // ------------------------------------------------------------------
  // The log of a run
  // ------------------------------------------------------------------

  /** The entries appended, oldest first: whatever a summary holds, all that reading it back
      finds. Text that stood below the section header before the first append becomes the end
      of what that one wrote. */
  function Log(steps: seq<Step>, below: seq<Line>): seq<Block>
    requires forall s <- steps :: Enabled(s)
    decreases |steps|
  {
    if steps == [] then []
    else
      assert forall s <- steps[1..] :: s in steps;
      assert steps[0] in steps && Enabled(steps[0]);
      match steps[0]
      case AppendEntry(e) => Reverse(EntryBlocks(e, below)) + Log(steps[1..], [])
      case Rotate(_, _, _) => Log(steps[1..], below)
  }

  ghost predicate IdsDistinct(log: seq<Block>) {
    forall i, j :: 0 <= i < j < |log| ==> log[i].id != log[j].id
  }

  /** The first h entries of the log have left the notes file and the first a of them are in
      the archive; no entry has left that is not archived. */
  ghost predicate Covered(w: World, log: seq<Block>, h: nat, a: nat) {
    && h <= a <= |log|
    && Cores(HotBlocks(w.notes)) == Reverse(Cores(log[h..]))
    && Cores(Blocks(w.archive)) == Cores(log[..a])
  }

  /** What the notes file was before the first entry, as far as the log goes on from it. */
  ghost predicate Untouched(w: World, start: seq<Line>) {
    w == World(start, []) && HotBlocks(start) == []
  }

  function Head(start: seq<Line>): seq<Line> {
    if MarkerPos(start) < |start| then Prefix(start) else WithSection(start)
  }

  ghost predicate Started(w: World, start: seq<Line>) {
    Sectioned(w.notes, Head(start)) && AllBlank(Leading(Body(w.notes)))
  }

  ghost predicate Inv(w: World, start: seq<Line>, log: seq<Block>, h: nat, a: nat) {
    && Covered(w, log, h, a)
    && if log == [] then Untouched(w, start) else Started(w, start)
  }

  lemma CoresConcat(a: seq<Block>, b: seq<Block>)
    ensures Cores(a + b) == Cores(a) + Cores(b)
  {
  }

  /** Cutting the newest k entries off, read from either end. */
  lemma ReverseCut<T>(s: seq<T>, k: nat)
    requires k <= |s|
    ensures Reverse(s)[..k] == Reverse(s[|s| - k..]) && Reverse(Reverse(s)[k..]) == s[..|s| - k]
  {
  }

  lemma ReverseConcat<T>(a: seq<T>, b: seq<T>)
    ensures Reverse(a + b) == Reverse(b) + Reverse(a)
  {
  }

  lemma ReverseTwice<T>(s: seq<T>)
    ensures Reverse(Reverse(s)) == s
  {
  }

  lemma CoresReverse(bs: seq<Block>)
    ensures Cores(Reverse(bs)) == Reverse(Cores(bs))
  {
  }

  /** Entries put in front of the notes file go to the end of the log. */
  lemma InFrontIsLast(hot: seq<Block>, log: seq<Block>, h: nat, made: seq<Block>, bs: seq<Block>)
    requires h <= |log| && Cores(hot) == Reverse(Cores(log[h..])) && Cores(made) == Cores(bs)
    ensures Cores(made + hot) == Reverse(Cores((log + Reverse(bs))[h..]))
  {
    hide Core, Cores, Reverse;
    CoresConcat(made, hot);
    CoresConcat(log[h..], Reverse(bs));
    assert (log + Reverse(bs))[h..] == log[h..] + Reverse(bs);
    CoresReverse(bs);
    ReverseConcat(Cores(log[h..]), Reverse(Cores(bs)));
    ReverseTwice(Cores(bs));
  }

  lemma AppendKeepsInv(w: World, start: seq<Line>, log: seq<Block>, h: nat, a: nat, e: Entry, bs: seq<Block>)
    requires Inv(w, start, log, h, a) && WellFormed(e)
    requires bs == EntryBlocks(e, if log == [] then Body(start) else [])
    ensures Inv(Next(w, AppendEntry(e)), start, log + Reverse(bs), h, a)
  {
    hide Append, Body, Blocks, Leading, Cores, MarkerPos, EntryBlocks, HotBlocks;
    var made := EntryBlocks(e, Leading(Body(w.notes)));
    SameCores(w, start, log, h, a, e, bs);
    SameLength(made, bs);
    AppendBlocks(w.notes, e);
    InFrontIsLast(HotBlocks(w.notes), log, h, made, bs);
    assert (log + Reverse(bs))[..a] == log[..a];
  }

  lemma SameLength(a: seq<Block>, b: seq<Block>)
    requires Cores(a) == Cores(b)
    ensures |a| == |b| == |Reverse(b)|
  {
    assert |Cores(a)| == |a| && |Cores(b)| == |b|;
  }

  lemma {:induction false} LeadingConcat(a: seq<Line>, b: seq<Line>)
    requires NoHeader(b)
    ensures Leading(a + b) == Leading(a) || Leading(a + b) == Leading(a) + b
  {
    if a == [] {
      SkipLeading(b, []);
      assert a + b == b == b + [];
    } else {
      assert (a + b)[1..] == a[1..] + b;
      LeadingConcat(a[1..], b);
    }
  }

  /** Blank lines at the end change no entry. */
  lemma {:induction false} BlanksChangeNothing(a: seq<Line>, blank: seq<Line>)
    requires AllBlank(blank)
    ensures Cores(Blocks(a + blank)) == Cores(Blocks(a))
  {
    hide Trim;
    if a == [] {
      SkipLeading(blank, []);
      assert a + blank == blank == blank + [];
    } else {
      assert (a + blank)[1..] == a[1..] + blank;
      BlanksChangeNothing(a[1..], blank);
      if a[0].id.Some? {
        LeadingConcat(a[1..], blank);
        TrimBlank([a[0]] + Leading(a[1..]), blank);
        var first := Block(a[0].id.value, [a[0]] + Leading(a[1..]));
        var first' := Block(a[0].id.value, [a[0]] + Leading(a[1..] + blank));
        assert Core(first) == Core(first') by {
          Regroup([a[0]], Leading(a[1..]), blank);
        }
        CoresConcat([first], Blocks(a[1..]));
        CoresConcat([first'], Blocks(a[1..] + blank));
        assert Cores([first]) == Cores([first']);
      }
    }
  }

  /** The entries parsed from the file are those logged, up to blank lines at their ends. */
  lemma SameCores(w: World, start: seq<Line>, log: seq<Block>, h: nat, a: nat, e: Entry, bs: seq<Block>)
    requires Inv(w, start, log, h, a) && WellFormed(e)
    requires bs == EntryBlocks(e, if log == [] then Body(start) else [])
    ensures Cores(EntryBlocks(e, Leading(Body(w.notes)))) == Cores(bs)
  {
    if log == [] {
      TextIsItsBlocks(Body(start));
      assert Flatten([]) == [];
      assert Body(start) == Leading(Body(start));
    } else {
      hide Body, Blocks, Leading;
      BlanksChangeNothing(OwnLines(e), Leading(Body(w.notes)));
      assert OwnLines(e) + [] == OwnLines(e);
    }
  }

  // ------------------------------------------------------------------
  // Rotation
  // ------------------------------------------------------------------

  lemma {:induction false} UnseenCores(bs: seq<Block>, seen: seq<string>)
    ensures Cores(Unseen(bs, seen)) == Unseen(Cores(bs), seen)
  {
    if bs != [] {
      UnseenCores(bs[1..], seen);
      assert Cores(bs)[1..] == Cores(bs[1..]);
    }
  }

  lemma {:induction false} UnseenConcat(a: seq<Block>, b: seq<Block>, seen: seq<string>)
    ensures Unseen(a + b, seen) == Unseen(a, seen) + Unseen(b, seen)
  {
    if a == [] {
      assert a + b == b;
    } else {
      assert (a + b)[1..] == a[1..] + b;
      UnseenConcat(a[1..], b, seen);
    }
  }

  lemma {:induction false} UnseenAllOrNone(bs: seq<Block>, seen: seq<string>)
    ensures (forall b <- bs :: b.id in seen) ==> Unseen(bs, seen) == []
    ensures (forall b <- bs :: b.id !in seen) ==> Unseen(bs, seen) == bs
  {
    if bs != [] {
      UnseenAllOrNone(bs[1..], seen);
      assert bs[0] in bs && forall b <- bs[1..] :: b in bs;
    }
  }

  /** With distinct ids, of the entries from h to m only those archived already are skipped. */
  lemma UnseenOfLog(log: seq<Block>, h: nat, a: nat, m: nat)
    requires IdsDistinct(log) && h <= a <= |log| && h <= m <= |log|
    ensures Unseen(log[h..m], IdsOf(log[..a])) == if a <= m then log[a..m] else []
  {
    var mid := if a <= m then a else m;
    var seen := IdsOf(log[..a]);
    assert log[h..m] == log[h..mid] + log[mid..m];
    hide Unseen;
    UnseenConcat(log[h..mid], log[mid..m], seen);
    forall b | b in log[h..mid]
      ensures b.id in seen
    {
      SeenIn(log, h, mid, a, b);
    }
    forall b | b in log[mid..m]
      ensures b.id !in seen
    {
      NotSeenIn(log, mid, m, a, b);
    }
    UnseenAllOrNone(log[h..mid], seen);
    UnseenAllOrNone(log[mid..m], seen);
    assert [] + log[mid..m] == log[mid..m];
  }

  lemma SeenIn(log: seq<Block>, h: nat, mid: nat, a: nat, b: Block)
    requires h <= mid <= a <= |log| && b in log[h..mid]
    ensures b.id in IdsOf(log[..a])
  {
    var i :| h <= i < mid && log[i] == b;
    assert IdsOf(log[..a])[i] == b.id;
  }

  lemma NotSeenIn(log: seq<Block>, mid: nat, m: nat, a: nat, b: Block)
    requires IdsDistinct(log) && mid <= m <= |log| && a <= |log| && (a <= mid || m == mid) && b in log[mid..m]
    ensures b.id !in IdsOf(log[..a])
  {
    var i :| mid <= i < m && log[i] == b;
    var seen := IdsOf(log[..a]);
    assert forall k :: 0 <= k < |seen| ==> seen[k] == log[k].id;
  }

  lemma {:induction false} UnseenProper(bs: seq<Block>, seen: seq<string>)
    requires forall b <- bs :: Proper(b)
    ensures forall b <- Unseen(bs, seen) :: Proper(b)
  {
    if bs != [] {
      UnseenProper(bs[1..], seen);
    }
  }

  /** The overflow of a notes file, oldest first, is a stretch of the log. */
  lemma OverflowOfLog(bs: seq<Block>, log: seq<Block>, h: nat, k: nat)
    requires h <= |log| && k <= |bs| && Cores(bs) == Reverse(Cores(log[h..]))
    ensures h + k <= |log| && Cores(Reverse(bs[k..])) == Cores(log)[h..|log| - k]
    ensures Cores(bs[..k]) == Reverse(Cores(log[|log| - k..]))
  {
    hide Core;
    var cores := Cores(log[h..]);
    assert |Cores(bs)| == |bs| && |Reverse(cores)| == |log| - h;
    ReverseCut(cores, k);
    assert Cores(Reverse(bs[k..])) == Reverse(Cores(bs)[k..]);
    assert cores[..|cores| - k] == Cores(log)[h..|log| - k];
    assert Cores(bs[..k]) == Cores(bs)[..k];
    assert cores[|cores| - k..] == Cores(log[|log| - k..]);
  }

  /** What the archive gains, in the log's terms. */
  lemma ArchiveGains(w: World, log: seq<Block>, h: nat, a: nat, n: int)
    requires Covered(w, log, h, a) && IdsDistinct(log) && Rotates(w.notes, n)
    ensures h + KeepRecent(n) <= |log|
    ensures var m := |log| - KeepRecent(n);
            Cores(Blocks(w.archive + Flatten(ToArchive(w.notes, w.archive, n)))) == Cores(log[..if a <= m then m else a])
  {
    hide Blocks, Flatten, Proper, Core, Body, Unseen, IdsOf, Reverse, IdsDistinct;
    var bs, k := HotBlocks(w.notes), KeepRecent(n);
    var m := |log| - k;
    BlocksAreProper(Body(w.notes));
    OverflowOfLog(bs, log, h, k);
    var overflow := Reverse(bs[k..]);
    ReverseMembers(bs[k..]);
    var seen := IdsOf(Blocks(w.archive));
    var gained := ToArchive(w.notes, w.archive, n);
    UnseenProper(overflow, seen);
    FlattenParses(gained);
    BlocksConcat(w.archive, Flatten(gained));
    CoresConcat(Blocks(w.archive), gained);
    UnseenCores(overflow, seen);
    StretchGained(w, log, h, a, m);
  }

  lemma StretchGained(w: World, log: seq<Block>, h: nat, a: nat, m: nat)
    requires h <= a <= |log| && h <= m <= |log| && IdsDistinct(log) && Cores(Blocks(w.archive)) == Cores(log[..a])
    ensures Cores(log[..a]) + Unseen(Cores(log)[h..m], IdsOf(Blocks(w.archive))) == Cores(log[..if a <= m then m else a])
  {
    hide Blocks, Core, Unseen, IdsOf;
    IdsOfCores(Blocks(w.archive), log[..a]);
    IdsOfCores(log[..a], Cores(log)[..a]);
    CoresIds(log);
    UnseenOfLog(Cores(log), h, a, m);
    if a <= m {
      assert Cores(log[..a]) + Cores(log)[a..m] == Cores(log[..m]);
    } else {
      assert Cores(log[..a]) + [] == Cores(log[..a]);
    }
  }

  lemma CoresIds(log: seq<Block>)
    requires IdsDistinct(log)
    ensures IdsDistinct(Cores(log))
  {
    assert forall i :: 0 <= i < |log| ==> Cores(log)[i].id == log[i].id;
  }

  lemma ReverseMembers<T>(s: seq<T>)
    ensures forall x <- Reverse(s) :: x in s
  {
  }

  lemma IdsOfCores(a: seq<Block>, b: seq<Block>)
    requires Cores(a) == Cores(b) || Cores(a) == b
    ensures IdsOf(a) == IdsOf(b)
  {
    assert |Cores(a)| == |a| && |Cores(b)| == |b|;
    assert forall i :: 0 <= i < |a| ==> Cores(a)[i].id == a[i].id;
    assert forall i :: 0 <= i < |b| ==> Cores(b)[i].id == b[i].id;
  }

  lemma RotateKeepsInv(w: World, start: seq<Line>, log: seq<Block>, h: nat, a: nat, step: Step)
    requires Inv(w, start, log, h, a) && IdsDistinct(log) && step.Rotate? && Enabled(step)
    ensures exists h': nat, a': nat :: Inv(Next(w, step), start, log, h', a')
  {
    hide Covered, Rewritten, ToArchive, Body, Leading, Flatten, Blocks, HotBlocks, IdsDistinct, AllBlank, MarkerPos, Prefix, Head;
    var n := step.maxEntries;
    if !Rotates(w.notes, n) {
      assert Inv(Next(w, step), start, log, h, a);
    } else {
      RotationCovered(w, log, h, a, n, step.pointer, step.completes);
      RewriteBlocks(w.notes, n, step.pointer);
      var m := |log| - KeepRecent(n);
      assert Inv(Next(w, step), start, log, if step.completes then m else h, if a <= m then m else a);
    }
  }

  lemma RotationCovered(w: World, log: seq<Block>, h: nat, a: nat, n: int, pointer: Line, completes: bool)
    requires Covered(w, log, h, a) && IdsDistinct(log) && Rotates(w.notes, n) && pointer.pointer && pointer.id.None?
    ensures log != [] && h + KeepRecent(n) <= |log|
    ensures var m := |log| - KeepRecent(n);
            Covered(Next(w, Rotate(n, pointer, completes)), log, if completes then m else h, if a <= m then m else a)
  {
    hide Blocks, Flatten, Cores, Reverse, Body, Leading, ToArchive, Rewritten, HotBlocks, Sectioned, IdsDistinct;
    ArchiveGains(w, log, h, a, n);
    RewriteBlocks(w.notes, n, pointer);
    OverflowOfLog(HotBlocks(w.notes), log, h, KeepRecent(n));
  }

  lemma {:induction false} RunKeepsInv(w: World, start: seq<Line>, steps: seq<Step>, log: seq<Block>, h: nat, a: nat)
    returns (h': nat, a': nat)
    requires Inv(w, start, log, h, a) && forall s <- steps :: Enabled(s)
    requires IdsDistinct(log + Log(steps, if log == [] then Body(start) else []))
    ensures Inv(Run(w, steps), start, log + Log(steps, if log == [] then Body(start) else []), h', a')
    decreases |steps|
  {
    hide Inv, Body, Next, IdsDistinct;
    var below := if log == [] then Body(start) else [];
    var rest := Log(steps, below);
    if steps == [] {
      assert log + rest == log;
      return h, a;
    }
    assert steps[0] in steps && Enabled(steps[0]) && forall s <- steps[1..] :: s in steps;
    match steps[0]
    case AppendEntry(e) =>
      var bs := EntryBlocks(e, below);
      AppendKeepsInv(w, start, log, h, a, e, bs);
      HeaderComesFirst(OwnLines(e) + below);
      hide EntryBlocks;
      Regroup(log, Reverse(bs), Log(steps[1..], []));
      h', a' := RunKeepsInv(Next(w, steps[0]), start, steps[1..], log + Reverse(bs), h, a);
    case Rotate(_, _, _) =>
      DistinctPrefix(log, rest);
      RotateKeepsInv(w, start, log, h, a, steps[0]);
      var h1: nat, a1: nat :| Inv(Next(w, steps[0]), start, log, h1, a1);
      h', a' := RunKeepsInv(Next(w, steps[0]), start, steps[1..], log, h1, a1);
  }

  lemma DistinctPrefix(a: seq<Block>, b: seq<Block>)
    requires IdsDistinct(a + b)
    ensures IdsDistinct(a)
  {
    assert forall i :: 0 <= i < |a| ==> (a + b)[i] == a[i];
  }

  lemma StartIsCovered(start: seq<Line>)
    requires HotBlocks(start) == []
    ensures Inv(World(start, []), start, [], 0, 0)
  {
    hide HotBlocks;
    NoBlocks();
    assert Cores([]) == [] && Reverse(Cores([])) == [];
  }

  /** Over any run of appends and rotations, some of them killed between their two writes, and
      with distinct wakeup ids: the archive is a prefix of the log, the notes file newest first
      is a suffix, together they cover it, and the text above the section header stands. */
  lemma NothingIsLost(start: seq<Line>, steps: seq<Step>)
    requires HotBlocks(start) == [] && forall s <- steps :: Enabled(s)
    requires IdsDistinct(Log(steps, Body(start)))
    ensures var w, log := Run(World(start, []), steps), Log(steps, Body(start));
            var hot, cold := |HotBlocks(w.notes)|, |Blocks(w.archive)|;
            && hot <= |log| && cold <= |log| && hot + cold >= |log|
            && Cores(Blocks(w.archive)) == Cores(log[..cold])
            && Cores(HotBlocks(w.notes)) == Reverse(Cores(log[|log| - hot..]))
            && (log != [] ==> Prefix(w.notes) == Head(start))
  {
    hide Blocks, Body, Log, Core, Next, MarkerPos, Leading;
    var w0, log := World(start, []), Log(steps, Body(start));
    StartIsCovered(start);
    assert [] + log == log;
    var h, a := RunKeepsInv(w0, start, steps, [], 0, 0);
    var w := Run(w0, steps);
    CoveredLengths(w, log, h, a);
  }

  lemma CoveredLengths(w: World, log: seq<Block>, h: nat, a: nat)
    requires Covered(w, log, h, a)
    ensures |HotBlocks(w.notes)| == |log| - h && |Blocks(w.archive)| == a
  {
    hide HotBlocks, Blocks, Core;
    assert |Cores(HotBlocks(w.notes))| == |HotBlocks(w.notes)|;
    assert |Cores(Blocks(w.archive))| == |Blocks(w.archive)|;
    assert |Reverse(Cores(log[h..]))| == |log| - h;
  }

  // ------------------------------------------------------------------
  // What holds of every notes file
  // ------------------------------------------------------------------

  /** Neither operation changes the text up to the section header, or what is archived. */
  lemma HandWrittenTextStands(w: World, step: Step)
    requires Enabled(step) && MarkerPos(w.notes) < |w.notes|
    ensures Prefix(Next(w, step).notes) == Prefix(w.notes)
    ensures w.archive <= Next(w, step).archive
  {
    match step
    case AppendEntry(e) => AppendInSection(w.notes, e);
    case Rotate(n, pointer, _) =>
      if Rotates(w.notes, n) {
        RewriteBlocks(w.notes, n, pointer);
      }
  }

  /** An append followed by a finished rotation leaves at most maxEntries entries, however
      many the notes file held before. */
  lemma NotesStayBounded(w: World, e: Entry, n: int, pointer: Line)
    requires Enabled(Rotate(n, pointer, true)) && n > 0
    ensures |HotBlocks(Next(Next(w, AppendEntry(e)), Rotate(n, pointer, true)).notes)| <= n
  {
    var w1 := Next(w, AppendEntry(e));
    if Rotates(w1.notes, n) {
      RewriteBlocks(w1.notes, n, pointer);
    }
  }

  /** A rotation does nothing to a section of at most maxEntries entries; a finished one of a
      longer section keeps half of maxEntries, rounded down, and at least one. */
  lemma RotationKeepsHalf(w: World, n: int, pointer: Line)
    requires Enabled(Rotate(n, pointer, true))
    ensures n <= 0 || |HotBlocks(w.notes)| <= n ==> Next(w, Rotate(n, pointer, true)) == w
    ensures 0 < n < |HotBlocks(w.notes)| ==>
              var kept := |HotBlocks(Next(w, Rotate(n, pointer, true)).notes)|;
              kept >= 1 && (2 * kept == n || 2 * kept + 1 == n || (n == 1 && kept == 1))
  {
    hide HotBlocks, Rewritten, ToArchive;
    if 0 < n < |HotBlocks(w.notes)| {
      RewriteBlocks(w.notes, n, pointer);
    }
  }

  /** A finished rotation leaves its pointer to the archive as the last line, and below the
      section header no other. */
  lemma PointerIsLast(w: World, n: int, pointer: Line)
    requires Rotates(w.notes, n) && Enabled(Rotate(n, pointer, true))
    ensures var notes' := Next(w, Rotate(n, pointer, true)).notes;
            exists below :: notes' == Prefix(w.notes) + below + [BLANK, pointer] && NoPointer(below)
                            && Prefix(notes') == Prefix(w.notes)
  {
    hide Prefix, Leading, Flatten, HotBlocks, Body, ToArchive, Sectioned;
    RewriteBlocks(w.notes, n, pointer);
    SectionHasBlocks(w.notes);
    KeptHasNoPointer(w.notes, KeepRecent(n));
    SectionedPrefix(Next(w, Rotate(n, pointer, true)).notes, Prefix(w.notes));
    var below := Leading(Body(w.notes)) + Flatten(HotBlocks(w.notes)[..KeepRecent(n)]);
    Regroup(Prefix(w.notes), below, [BLANK, pointer]);
  }

  lemma SectionedPrefix(notes: seq<Line>, head: seq<Line>)
    requires Sectioned(notes, head)
    ensures Prefix(notes) == head
  {
  }

  lemma SectionHasBlocks(notes: seq<Line>)
    requires HotBlocks(notes) != []
    ensures MarkerPos(notes) < |notes|
  {
    if MarkerPos(notes) == |notes| { NoSection(notes); }
  }

  // ------------------------------------------------------------------
  // Ids that collide
  // ------------------------------------------------------------------

  /** A rotation does not archive an overflow entry whose id the archive already has, and
      archives every other. Skipping alone loses nothing: the entry may be there already. */
  lemma SkippedIff(w: World, n: int, pointer: Line, b: Block)
    requires Rotates(w.notes, n) && b in HotBlocks(w.notes)[KeepRecent(n)..]
    ensures b in ToArchive(w.notes, w.archive, n) <==> b.id !in IdsOf(Blocks(w.archive))
    ensures Blocks(Next(w, Rotate(n, pointer, true)).archive) == Blocks(w.archive) + ToArchive(w.notes, w.archive, n)
  {
    hide Blocks, Flatten, HotBlocks, Unseen, IdsOf, Rewritten;
    var overflow := HotBlocks(w.notes)[KeepRecent(n)..];
    var i :| 0 <= i < |overflow| && overflow[i] == b;
    assert Reverse(overflow)[|overflow| - 1 - i] == b;
    UnseenMember(Reverse(overflow), IdsOf(Blocks(w.archive)), b);
    ArchiveGrows(w, n, pointer, true);
  }

  /** Finished or not, a rotation appends to the archive what it takes to it. */
  lemma ArchiveGrows(w: World, n: int, pointer: Line, completes: bool)
    requires Rotates(w.notes, n)
    ensures Blocks(Next(w, Rotate(n, pointer, completes)).archive) == Blocks(w.archive) + ToArchive(w.notes, w.archive, n)
  {
    hide Blocks, Flatten, Proper, Body, Unseen, IdsOf, Rewritten;
    var overflow := HotBlocks(w.notes)[KeepRecent(n)..];
    BlocksAreProper(Body(w.notes));
    ReverseMembers(overflow);
    UnseenProper(Reverse(overflow), IdsOf(Blocks(w.archive)));
    FlattenParses(ToArchive(w.notes, w.archive, n));
    BlocksConcat(w.archive, Flatten(ToArchive(w.notes, w.archive, n)));
  }

  /** Up to blank lines at its end, the entry is one of these. */
  predicate Among(b: Block, bs: seq<Block>) {
    Core(b) in Cores(bs)
  }

  predicate Holds(w: World, b: Block) {
    Among(b, HotBlocks(w.notes)) || Among(b, Blocks(w.archive))
  }

  /** The archive has the entry's id, but has the entry no more than the notes that stay. */
  predicate Clashes(w: World, n: int, b: Block)
    requires Rotates(w.notes, n)
  {
    && b.id in IdsOf(Blocks(w.archive))
    && !Among(b, Blocks(w.archive)) && !Among(b, HotBlocks(w.notes)[..KeepRecent(n)])
  }

  lemma MemberIsAmong(b: Block, bs: seq<Block>)
    requires b in bs
    ensures Among(b, bs)
  {
    hide Core;
    var i :| 0 <= i < |bs| && bs[i] == b;
    assert Cores(bs)[i] == Core(b);
  }

  lemma AmongConcat(b: Block, x: seq<Block>, y: seq<Block>)
    ensures Among(b, x + y) <==> Among(b, x) || Among(b, y)
  {
    CoresConcat(x, y);
    hide Cores, Core;
  }

  lemma AmongHasId(b: Block, bs: seq<Block>)
    requires Among(b, bs)
    ensures exists x :: x in bs && x.id == b.id
  {
    var i :| 0 <= i < |Cores(bs)| && Cores(bs)[i] == Core(b);
    assert bs[i] in bs && bs[i].id == b.id;
  }

  /** Nothing that a rotation archives has an id that was archived before. */
  lemma ArchivedIdIsNotTaken(w: World, n: int, b: Block)
    requires Rotates(w.notes, n) && b.id in IdsOf(Blocks(w.archive))
    ensures !Among(b, ToArchive(w.notes, w.archive, n))
  {
    hide Blocks, HotBlocks, Unseen, IdsOf, Among, Reverse;
    if Among(b, ToArchive(w.notes, w.archive, n)) {
      AmongHasId(b, ToArchive(w.notes, w.archive, n));
      var x :| x in ToArchive(w.notes, w.archive, n) && x.id == b.id;
      UnseenMember(Reverse(HotBlocks(w.notes)[KeepRecent(n)..]), IdsOf(Blocks(w.archive)), x);
    }
  }

  /** Entry by entry: what is in the overflow is in one of the files after a finished rotation,
      unless it clashes. */
  lemma OverflowHeldIff(w: World, n: int, pointer: Line, b: Block)
    requires Rotates(w.notes, n) && Enabled(Rotate(n, pointer, true)) && b in HotBlocks(w.notes)[KeepRecent(n)..]
    ensures Holds(Next(w, Rotate(n, pointer, true)), b) <==> !Clashes(w, n, b)
    ensures b in Blocks(Next(w, Rotate(n, pointer, true)).archive) <==>
              b.id !in IdsOf(Blocks(w.archive)) || b in Blocks(w.archive)
  {
    hide Blocks, HotBlocks, IdsOf, ToArchive, Core, Cores, Rewritten;
    var gained := ToArchive(w.notes, w.archive, n);
    SkippedIff(w, n, pointer, b);
    RewriteBlocks(w.notes, n, pointer);
    AmongConcat(b, Blocks(w.archive), gained);
    if b.id in IdsOf(Blocks(w.archive)) {
      ArchivedIdIsNotTaken(w, n, b);
    } else {
      MemberIsAmong(b, gained);
    }
  }

  /** Whatever entry one state holds, in either file, the other holds. */
  ghost predicate KeepsAll(w: World, w': World) {
    forall b <- HotBlocks(w.notes) + Blocks(w.archive) :: Holds(w', b)
  }

  /** Exactly when a rotation loses nothing that either file held: when it is killed before it
      rewrites the notes, or no entry of its overflow clashes. */
  lemma RotationKeepsAllIff(w: World, n: int, pointer: Line, completes: bool)
    requires Rotates(w.notes, n) && Enabled(Rotate(n, pointer, completes))
    ensures KeepsAll(w, Next(w, Rotate(n, pointer, completes))) <==>
              !completes || forall b <- HotBlocks(w.notes)[KeepRecent(n)..] :: !Clashes(w, n, b)
  {
    hide Blocks, HotBlocks, Clashes, Holds, Next, ToArchive;
    var w', k := Next(w, Rotate(n, pointer, completes)), KeepRecent(n);
    var hot := HotBlocks(w.notes);
    forall b | b in hot + Blocks(w.archive)
      ensures Holds(w', b) || (completes && b in hot[k..])
      ensures completes && b in hot[k..] ==> (Holds(w', b) <==> !Clashes(w, n, b))
    {
      assert hot == hot[..k] + hot[k..];
      if completes && b in hot[k..] {
        OverflowHeldIff(w, n, pointer, b);
      } else {
        StaysHeld(w, n, pointer, completes, b);
      }
    }
    assert forall b <- hot[k..] :: b in hot + Blocks(w.archive);
  }

  /** Archived entries and those that stay in the notes are held by every rotation. */
  lemma StaysHeld(w: World, n: int, pointer: Line, completes: bool, b: Block)
    requires Rotates(w.notes, n) && Enabled(Rotate(n, pointer, completes))
    requires b in Blocks(w.archive) || b in if completes then HotBlocks(w.notes)[..KeepRecent(n)] else HotBlocks(w.notes)
    ensures Holds(Next(w, Rotate(n, pointer, completes)), b)
  {
    hide Blocks, HotBlocks, IdsOf, ToArchive, Core, Cores, Rewritten, Flatten;
    RewriteBlocks(w.notes, n, pointer);
    ArchiveGrows(w, n, pointer, completes);
    if b in Blocks(w.archive) {
      MemberIsAmong(b, Blocks(w.archive));
      AmongConcat(b, Blocks(w.archive), ToArchive(w.notes, w.archive, n));
    } else {
      MemberIsAmong(b, if completes then HotBlocks(w.notes)[..KeepRecent(n)] else HotBlocks(w.notes));
    }
  }

  /** What the test by id is for: after a rotation that was killed between its writes the next
      one skips all that was archived, and loses nothing. */
  lemma RerunLosesNothing(w: World, n: int, pointer: Line)
    requires Rotates(w.notes, n) && Enabled(Rotate(n, pointer, true))
    requires forall b <- HotBlocks(w.notes)[KeepRecent(n)..] :: b.id !in IdsOf(Blocks(w.archive))
    ensures var w1 := Next(w, Rotate(n, pointer, false));
            && (forall b <- HotBlocks(w.notes)[KeepRecent(n)..] :: b !in ToArchive(w1.notes, w1.archive, n))
            && KeepsAll(w1, Next(w1, Rotate(n, pointer, true)))
  {
    hide Blocks, HotBlocks, IdsOf, ToArchive, Among, Holds, Rewritten;
    var w1 := Next(w, Rotate(n, pointer, false));
    ArchiveGrows(w, n, pointer, false);
    forall b | b in HotBlocks(w.notes)[KeepRecent(n)..]
      ensures !Clashes(w1, n, b) && b !in ToArchive(w1.notes, w1.archive, n)
    {
      SkippedIff(w, n, pointer, b);
      MemberIsAmong(b, Blocks(w1.archive));
      MemberHasId(b, Blocks(w1.archive));
      SkippedIff(w1, n, pointer, b);
    }
    RotationKeepsAllIff(w1, n, pointer, true);
  }

  lemma MemberHasId(b: Block, bs: seq<Block>)
    requires b in bs
    ensures b.id in IdsOf(bs)
  {
    var i :| 0 <= i < |bs| && bs[i] == b;
    assert IdsOf(bs)[i] == b.id;
  }

  /** The step is no finished rotation with a clash in its overflow. */
  ghost predicate ClashFree(w: World, step: Step) {
    step.Rotate? && step.completes && Rotates(w.notes, step.maxEntries) ==>
      forall b <- HotBlocks(w.notes)[KeepRecent(step.maxEntries)..] :: !Clashes(w, step.maxEntries, b)
  }

  lemma HeldIsKept(w: World, w': World)
    requires forall b <- HotBlocks(w.notes) :: b in HotBlocks(w'.notes)
    requires w.archive == w'.archive
    ensures KeepsAll(w, w')
  {
    hide HotBlocks, Blocks, Among;
    forall b | b in HotBlocks(w.notes) + Blocks(w.archive)
      ensures Holds(w', b)
    {
      MemberIsAmong(b, if b in HotBlocks(w.notes) then HotBlocks(w'.notes) else Blocks(w.archive));
    }
  }

  lemma StepKeepsAllIff(w: World, step: Step)
    requires Enabled(step)
    ensures KeepsAll(w, Next(w, step)) <==> ClashFree(w, step)
  {
    hide HotBlocks, Blocks, KeepsAll, Clashes, Append;
    match step
    case AppendEntry(e) =>
      AppendBlocks(w.notes, e);
      HeldIsKept(w, Next(w, step));
    case Rotate(n, pointer, completes) =>
      if Rotates(w.notes, n) {
        RotationKeepsAllIff(w, n, pointer, completes);
      } else {
        HeldIsKept(w, w);
      }
  }

  lemma KeepsAllOnward(w: World, v: World, u: World)
    requires KeepsAll(w, v) && KeepsAll(v, u)
    ensures KeepsAll(w, u)
  {
    hide HotBlocks, Blocks, Core;
    forall b | b in HotBlocks(w.notes) + Blocks(w.archive)
      ensures Holds(u, b)
    {
      var held := HotBlocks(v.notes) + Blocks(v.archive);
      AmongConcat(b, HotBlocks(v.notes), Blocks(v.archive));
      var i :| 0 <= i < |Cores(held)| && Cores(held)[i] == Core(b);
      assert held[i] in held && Core(held[i]) == Core(b) && Holds(u, held[i]);
    }
  }

  ghost predicate KeepsAllThroughout(w: World, steps: seq<Step>)
    decreases |steps|
  {
    steps != [] ==> KeepsAll(w, Next(w, steps[0])) && KeepsAllThroughout(Next(w, steps[0]), steps[1..])
  }

  ghost predicate ClashFreeThroughout(w: World, steps: seq<Step>)
    decreases |steps|
  {
    steps != [] ==> ClashFree(w, steps[0]) && ClashFreeThroughout(Next(w, steps[0]), steps[1..])
  }

  /** Over any run, colliding ids or not: no step loses an entry if and only if no finished
      rotation meets a clash, and then the end holds all that the start held. */
  lemma {:induction false} RunKeepsAllIff(w: World, steps: seq<Step>)
    requires forall s <- steps :: Enabled(s)
    ensures KeepsAllThroughout(w, steps) <==> ClashFreeThroughout(w, steps)
    ensures ClashFreeThroughout(w, steps) ==> KeepsAll(w, Run(w, steps))
    decreases |steps|
  {
    hide KeepsAll, ClashFree, Next, Enabled;
    if steps == [] {
      HeldIsKept(w, w);
    } else {
      assert steps[0] in steps && forall s <- steps[1..] :: s in steps;
      StepKeepsAllIff(w, steps[0]);
      RunKeepsAllIff(Next(w, steps[0]), steps[1..]);
      if ClashFreeThroughout(w, steps) {
        KeepsAllOnward(w, Next(w, steps[0]), Run(w, steps));
      }
    }
  }

  lemma {:induction false} UnseenMember(bs: seq<Block>, seen: seq<string>, b: Block)
    ensures b in Unseen(bs, seen) <==> b in bs && b.id !in seen
  {
    if bs != [] {
      UnseenMember(bs[1..], seen, b);
    }
  }

  lemma {:induction false} TrimKeepsHeader(lines: seq<Line>)
    requires lines != [] && lines[0] != BLANK
    ensures Trim(lines) != [] && Trim(lines)[0] == lines[0]
    decreases |lines|
  {
    if lines[|lines| - 1] == BLANK {
      assert |lines| > 1;
      TrimKeepsHeader(lines[..|lines| - 1]);
    }
  }

  lemma SameCoreSameHeader(a: Block, b: Block)
    requires Proper(a) && Proper(b) && Core(a) == Core(b)
    ensures a.lines[0] == b.lines[0] && a.id == b.id
  {
    TrimKeepsHeader(a.lines);
    TrimKeepsHeader(b.lines);
  }

  /** Two entries in front of the section's others, then a rotation that keeps one: the older
      of the two leaves the file and reaches the archive only if its id is new there. */
  lemma KeepOnlyNewest(w: World, e: Entry, pointer: Line)
    requires Plain(e) && Enabled(Rotate(1, pointer, true)) && |HotBlocks(w.notes)| == 1
    ensures var older, w' := HotBlocks(w.notes)[0], Next(Next(w, AppendEntry(e)), Rotate(1, pointer, true));
            && |HotBlocks(w'.notes)| == 1
            && HotBlocks(w'.notes)[0].lines != []
            && HotBlocks(w'.notes)[0].lines[0] == e.header && HotBlocks(w'.notes)[0].id == e.header.id.value
            && Blocks(w'.archive) == Blocks(w.archive) + if older.id in IdsOf(Blocks(w.archive)) then [] else [older]
  {
    var w1 := Next(w, AppendEntry(e));
    var w' := Next(w1, Rotate(1, pointer, true));
    AppendBlocks(w.notes, e);
    LeadingHasNoHeader(Body(w.notes));
    PlainEntry(e, Leading(Body(w.notes)));
    BlocksAreProper(Body(w1.notes));
    hide Blocks, Flatten, Body, Append, Rewritten, Leading, EntryBlocks;
    var bs := HotBlocks(w1.notes);
    var older := bs[1];
    assert bs[1..] == [older] && older == HotBlocks(w.notes)[0];
    RewriteBlocks(w1.notes, 1, pointer);
    assert Cores(HotBlocks(w'.notes))[0] == Cores(bs[..1])[0];
    BlocksAreProper(Body(w'.notes));
    assert HotBlocks(w'.notes)[0] in HotBlocks(w'.notes) && bs[0] in bs;
    SameCoreSameHeader(HotBlocks(w'.notes)[0], bs[0]);
    SkippedIff(w1, 1, pointer, older);
    assert Reverse([older]) == [older];
    assert Unseen([older], IdsOf(Blocks(w.archive))) == if older.id in IdsOf(Blocks(w.archive)) then [] else [older];
  }

  /** Distinct ids are needed: with any two entries of one id, three appends and two finished
      rotations leave the second entry in neither file. */
  lemma CollidingIdIsLost(e1: Entry, e2: Entry, e3: Entry, pointer: Line)
    requires Plain(e1) && Plain(e2) && Plain(e3) && Enabled(Rotate(1, pointer, true))
    requires e1.header.id == e2.header.id && e2.header !in [e1.header, e3.header]
    ensures var keep := Rotate(1, pointer, true);
            var w1 := Next(World([], []), AppendEntry(e1));
            var w2 := Next(Next(w1, AppendEntry(e2)), keep);
            var w3 := Next(Next(w2, AppendEntry(e3)), keep);
            forall b <- HotBlocks(w3.notes) + Blocks(w3.archive) :: b.lines != [] && b.lines[0] != e2.header
  {
    hide Blocks, HotBlocks, Next;
    var w1 := Next(World([], []), AppendEntry(e1));
    FirstEntry(e1);
    KeepOnlyNewest(w1, e2, pointer);
    var w2 := Next(Next(w1, AppendEntry(e2)), Rotate(1, pointer, true));
    assert IdsOf(Blocks(w2.archive))[0] == e1.header.id.value;
    KeepOnlyNewest(w2, e3, pointer);
  }

  /** The first entry of an empty notes file. */
  lemma FirstEntry(e: Entry)
    requires Plain(e)
    ensures var w := Next(World([], []), AppendEntry(e));
            && |HotBlocks(w.notes)| == 1 && HotBlocks(w.notes)[0].id == e.header.id.value
            && HotBlocks(w.notes)[0].lines != [] && HotBlocks(w.notes)[0].lines[0] == e.header
            && Blocks(w.archive) == []
  {
    NoBlocks();
    assert HotBlocks([]) == [];
    hide Blocks, HotBlocks, Body, EntryBlocks, Leading, Append;
    AppendBlocks([], e);
    LeadingHasNoHeader(Body([]));
    PlainEntry(e, Leading(Body([])));
  }
}
