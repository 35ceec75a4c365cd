/**
 An agent's notes file and its cold archive (`_append_to_notes` and `_maybe_rotate_notes` in
 src/lyre/runtime/wakeup_summary.py). Files are lists of lines; a missing file is the empty
 list. A crash may come between the archive append and the rewrite of the notes file, each of
 which is one step.
 */
module NotesRotation {
  import opened Wrappers
  import opened Seqs

  /** A line of text with what the code's patterns see in it: the section header standing
      anywhere in it, an entry header with its wakeup id, a pointer to the archive. */
  datatype Line = Line(text: string, id: Option<string>, marker: bool, pointer: bool)

  const BLANK := Line("", None, false, false)
  const SECTION := Line("## Auto-summary log", None, true, false)

  // ------------------------------------------------------------------
  // Reading the files
  // ------------------------------------------------------------------

  datatype Block = Block(id: string, lines: seq<Line>)

  function MarkerPos(lines: seq<Line>): (p: nat)
    ensures p <= |lines|
  {
    if lines == [] || lines[0].marker then 0 else 1 + MarkerPos(lines[1..])
  }

  function WithoutPointers(lines: seq<Line>): seq<Line> {
    if lines == [] then []
    else (if lines[0].pointer then [] else [lines[0]]) + WithoutPointers(lines[1..])
  }

  /** The lines before the first entry. */
  function Leading(lines: seq<Line>): seq<Line> {
    if lines == [] || lines[0].id.Some? then [] else [lines[0]] + Leading(lines[1..])
  }

  /** The entries of a text: each runs from its header line to the next. */
  function Blocks(lines: seq<Line>): seq<Block> {
    if lines == [] then []
    else if lines[0].id.Some? then [Block(lines[0].id.value, [lines[0]] + Leading(lines[1..]))] + Blocks(lines[1..])
    else Blocks(lines[1..])
  }

  function Flatten(bs: seq<Block>): seq<Line> {
    if bs == [] then [] else bs[0].lines + Flatten(bs[1..])
  }

  /** The notes up to and including the section header: never rewritten. */
  function Prefix(notes: seq<Line>): seq<Line> {
    var p := MarkerPos(notes);
    if p < |notes| then notes[..p + 1] else notes
  }

  /** What stands below the section header. */
  function Below(notes: seq<Line>): seq<Line> {
    var p := MarkerPos(notes);
    if p < |notes| then notes[p + 1..] else []
  }

  /** The same apart from pointers to the archive. */
  function Body(notes: seq<Line>): seq<Line> {
    WithoutPointers(Below(notes))
  }

  function HotBlocks(notes: seq<Line>): seq<Block> {
    Blocks(Body(notes))
  }

  // ------------------------------------------------------------------
  // Operations
  // ------------------------------------------------------------------

  datatype Entry = Entry(header: Line, summary: seq<Line>)

  /** What the code appends: a header of its own making over any summary, lines that look like
      a header or a pointer included. */
  predicate WellFormed(e: Entry) {
    e.header.id.Some? && !e.header.pointer
  }

  function Written(e: Entry): seq<Line> {
    [BLANK, e.header] + e.summary
  }

  /** The notes with an empty section at their end. */
  function WithSection(notes: seq<Line>): seq<Line> {
    notes + [BLANK, SECTION]
  }

  /** Below the section header, which is added at the end when there is none. */
  function Append(notes: seq<Line>, e: Entry): seq<Line> {
    if MarkerPos(notes) < |notes| then Prefix(notes) + (Written(e) + Below(notes))
    else WithSection(notes) + Written(e)
  }

  function Reverse<T>(s: seq<T>): seq<T> {
    seq(|s|, i requires 0 <= i < |s| => s[|s| - 1 - i])
  }

  function IdsOf(bs: seq<Block>): seq<string> {
    seq(|bs|, i requires 0 <= i < |bs| => bs[i].id)
  }

  /** Blocks whose id is not among those seen. */
  function Unseen(bs: seq<Block>, seen: seq<string>): seq<Block> {
    if bs == [] then []
    else (if bs[0].id in seen then [] else [bs[0]]) + Unseen(bs[1..], seen)
  }

  function KeepRecent(maxEntries: int): nat
    requires maxEntries > 0
  {
    if maxEntries / 2 > 1 then maxEntries / 2 else 1
  }

  predicate Rotates(notes: seq<Line>, maxEntries: int) {
    maxEntries > 0 && |HotBlocks(notes)| > maxEntries
  }

  /** What the rotation appends to the archive: the overflow, oldest first. */
  function ToArchive(notes: seq<Line>, archive: seq<Line>, maxEntries: int): seq<Block>
    requires Rotates(notes, maxEntries)
  {
    Unseen(Reverse(HotBlocks(notes)[KeepRecent(maxEntries)..]), IdsOf(Blocks(archive)))
  }

  function Rewritten(notes: seq<Line>, maxEntries: int, pointer: Line): seq<Line>
    requires Rotates(notes, maxEntries)
  {
    Prefix(notes)
    + ((Leading(Body(notes)) + Flatten(HotBlocks(notes)[..KeepRecent(maxEntries)])) + [BLANK, pointer])
  }

  datatype World = World(notes: seq<Line>, archive: seq<Line>)

  /** `completes` is false when the process dies between the two writes. */
  datatype Step =
    | AppendEntry(e: Entry)
    | Rotate(maxEntries: int, pointer: Line, completes: bool)

  predicate Enabled(step: Step) {
    match step
    case AppendEntry(e) => WellFormed(e)
    case Rotate(_, pointer, _) => pointer.pointer && pointer.id.None?
  }

  function Next(w: World, step: Step): World {
    match step
    case AppendEntry(e) => w.(notes := Append(w.notes, e))
    case Rotate(n, pointer, completes) =>
      if !Rotates(w.notes, n) then w
      else World(if completes then Rewritten(w.notes, n, pointer) else w.notes,
                 w.archive + Flatten(ToArchive(w.notes, w.archive, n)))
  }

  function Run(w: World, steps: seq<Step>): World
    decreases |steps|
  {
    if steps == [] then w else Run(Next(w, steps[0]), steps[1..])
  }
}
