/** Merge-conflict markers (src/utils/conflict_handler.py): detection on a
    file's content, the line-by-line block parser, the "ours"/"theirs"
    resolver and the summaries built on the parser. A file is given as its
    content or its sequence of lines; reading and writing it is left out. */
module Conflicts {
  import opened Common

  const StartMarker := "<<<<<<< HEAD"
  const MiddleMarker := "======="
  const EndMarker := ">>>>>>>"

  /** One parsed conflict: the start line's index, the lines of each side and the
      index of the line that closed it (which is past the end of the file when
      the block is never closed). */
  datatype Block = Block(startLine: nat, ours: seq<string>, theirs: seq<string>, endLine: nat)

  datatype Side = Ours | Theirs

  function Kept(b: Block, side: Side): seq<string> {
    if side == Ours then b.ours else b.theirs
  }

  /** `detect_conflicts_in_file` on the content: all three markers occur somewhere,
      in any order and on any lines. */
  predicate DetectConflicts(content: string) {
    Contains(content, StartMarker) && Contains(content, MiddleMarker) && Contains(content, EndMarker)
  }

  /** The markers are found even in reverse order, where no block can be parsed. */
  lemma {:induction false} DetectionIgnoresOrder(before: string, between: string, after: string)
    ensures DetectConflicts(before + EndMarker + between + MiddleMarker + between + StartMarker + after)
  {
    var content := before + EndMarker + between + MiddleMarker + between + StartMarker + after;
    assert OccursAt(EndMarker, EndMarker, 0);
    assert OccursAt(MiddleMarker, MiddleMarker, 0);
    assert OccursAt(StartMarker, StartMarker, 0);
    ContainsInside(before, EndMarker, between + MiddleMarker + between + StartMarker + after, EndMarker);
    assert content == before + EndMarker + (between + MiddleMarker + between + StartMarker + after);
    ContainsInside(before + EndMarker + between, MiddleMarker, between + StartMarker + after, MiddleMarker);
    assert content == (before + EndMarker + between) + MiddleMarker + (between + StartMarker + after);
    ContainsInside(before + EndMarker + between + MiddleMarker + between, StartMarker, after, StartMarker);
  }

  /** The first index at or after `j` whose line contains `marker`, or `j` itself
      once `j` has run past the last line. */
  function NextWith(lines: seq<string>, j: nat, marker: string): (k: nat)
    ensures j <= k
    ensures j < |lines| ==> k <= |lines|
    ensures j >= |lines| ==> k == j
    decreases |lines| - j
  {
    if j >= |lines| then j
    else if Contains(lines[j], marker) then j
    else NextWith(lines, j + 1, marker)
  }

  /** `NextWith` finds the first line carrying the marker: the line it stops at has
      it, and none of the lines it passes over does. */
  lemma {:induction false} NextWithIsFirst(lines: seq<string>, j: nat, marker: string)
    ensures var k := NextWith(lines, j, marker);
      && (k < |lines| ==> Contains(lines[k], marker))
      && (forall t :: j <= t < k && t < |lines| ==> !Contains(lines[t], marker))
    decreases |lines| - j
  {
    if j < |lines| && !Contains(lines[j], marker) {
      NextWithIsFirst(lines, j + 1, marker);
    }
  }

  /** `b` is a block read from the file: its start line carries the start marker,
      "ours" is the run of following lines without a middle marker, and, when a
      middle-marker line closes that run, "theirs" is the run after it without an
      end marker, closed by an end-marker line or by the end of the file. When no
      middle marker comes, "theirs" is empty and the block ends one past the end. */
  ghost predicate ReadsBlock(lines: seq<string>, b: Block) {
    var m := b.startLine + 1 + |b.ours|;
    && b.startLine < |lines| && Contains(lines[b.startLine], StartMarker)
    && m <= |lines| && b.ours == lines[b.startLine + 1..m]
    && (forall t :: b.startLine < t < m ==> !Contains(lines[t], MiddleMarker))
    && if m < |lines| then
         && Contains(lines[m], MiddleMarker)
         && b.endLine == m + 1 + |b.theirs| && b.endLine <= |lines|
         && b.theirs == lines[m + 1..b.endLine]
         && (forall t :: m < t < b.endLine ==> !Contains(lines[t], EndMarker))
         && (b.endLine < |lines| ==> Contains(lines[b.endLine], EndMarker))
       else
         b.theirs == [] && b.endLine == |lines| + 1
  }

  /** Line `t` lies inside none of the blocks. */
  ghost predicate Outside(blocks: seq<Block>, t: int) {
    forall k :: 0 <= k < |blocks| ==> !(blocks[k].startLine <= t <= blocks[k].endLine)
  }

  /** Blocks in file order without overlap, each starting on a line of the file at
      or after `from`. */
  ghost predicate Ordered(lines: seq<string>, blocks: seq<Block>, from: int) {
    && (forall k :: 0 <= k < |blocks| ==> from <= blocks[k].startLine < |lines|)
    && Advancing(blocks)
    && (forall j, k :: 0 <= j < k < |blocks| ==> blocks[j].endLine < blocks[k].startLine)
  }

  /** The block the parser reads at line `i`. */
  function BlockRead(lines: seq<string>, i: nat): (b: Block)
    requires i < |lines|
    ensures b.startLine == i && b.endLine > i + 1
  {
    var mid := NextWith(lines, i + 1, MiddleMarker);
    var end := NextWith(lines, mid + 1, EndMarker);
    Block(i, lines[i + 1..mid], if mid < |lines| then lines[mid + 1..end] else [], end)
  }

  /** The blocks `parse_conflict` finds from line `i` on. */
  function ParseFrom(lines: seq<string>, i: nat): seq<Block>
    decreases |lines| - i
  {
    if i >= |lines| then []
    else if !Contains(lines[i], StartMarker) then ParseFrom(lines, i + 1)
    else
      var b := BlockRead(lines, i);
      [b] + ParseFrom(lines, b.endLine + 1)
  }

  /** The parser's step at a line without a start marker, unfolded. */
  lemma ParseSkipsLine(lines: seq<string>, i: nat)
    requires i < |lines| && !Contains(lines[i], StartMarker)
    ensures ParseFrom(lines, i) == ParseFrom(lines, i + 1)
  {
  }

  /** The parser's step at a start-marker line, unfolded. */
  lemma ParseReadsBlock(lines: seq<string>, i: nat)
    requires i < |lines| && Contains(lines[i], StartMarker)
    ensures ParseFrom(lines, i) == [BlockRead(lines, i)] + ParseFrom(lines, BlockRead(lines, i).endLine + 1)
  {
  }

  /** Putting a block in front of ordered blocks that start after it keeps them ordered. */
  lemma ConsOrdered(lines: seq<string>, b: Block, rest: seq<Block>, from: int, r: seq<Block>)
    requires from <= b.startLine < |lines| && b.startLine < b.endLine
    requires Ordered(lines, rest, b.endLine + 1)
    requires r == [b] + rest
    ensures Ordered(lines, r, from)
  {
    assert forall k :: 1 <= k < |r| ==> r[k] == rest[k - 1];
  }

  lemma OrderedAfterSkip(lines: seq<string>, i: nat)
    requires i < |lines| && !Contains(lines[i], StartMarker)
    requires Ordered(lines, ParseFrom(lines, i + 1), i + 1)
    ensures Ordered(lines, ParseFrom(lines, i), i)
  {
    ParseSkipsLine(lines, i);
  }

  lemma OrderedAfterBlock(lines: seq<string>, i: nat)
    requires i < |lines| && Contains(lines[i], StartMarker)
    requires Ordered(lines, ParseFrom(lines, BlockRead(lines, i).endLine + 1), BlockRead(lines, i).endLine + 1)
    ensures Ordered(lines, ParseFrom(lines, i), i)
  {
    ParseReadsBlock(lines, i);
    var b := BlockRead(lines, i);
    ConsOrdered(lines, b, ParseFrom(lines, b.endLine + 1), i, ParseFrom(lines, i));
  }

  /** The parsed blocks come in file order, do not overlap, and each starts on a line
      of the file at or after `i`. */
  lemma {:induction false} ParseIsOrdered(lines: seq<string>, i: nat)
    ensures Ordered(lines, ParseFrom(lines, i), i)
    decreases |lines| - i
  {
    if i < |lines| {
      if !Contains(lines[i], StartMarker) {
        ParseIsOrdered(lines, i + 1);
        OrderedAfterSkip(lines, i);
      } else {
        ParseIsOrdered(lines, BlockRead(lines, i).endLine + 1);
        OrderedAfterBlock(lines, i);
      }
    }
  }

  /** The block the parser reads at a start-marker line has the shape `ReadsBlock` describes. */
  lemma BlockReadAt(lines: seq<string>, i: nat)
    requires i < |lines| && Contains(lines[i], StartMarker)
    ensures ReadsBlock(lines, BlockRead(lines, i))
  {
    var b := BlockRead(lines, i);
    var mid := NextWith(lines, i + 1, MiddleMarker);
    var end := NextWith(lines, mid + 1, EndMarker);
    assert b.ours == lines[i + 1..mid];
    assert i + 1 + |b.ours| == mid;
    NextWithIsFirst(lines, i + 1, MiddleMarker);
    if mid < |lines| {
      NextWithIsFirst(lines, mid + 1, EndMarker);
      assert b.theirs == lines[mid + 1..end];
    }
  }

  lemma ConsReadsBlocks(lines: seq<string>, i: nat, rest: seq<Block>)
    requires i < |lines| && Contains(lines[i], StartMarker)
    requires forall x :: x in rest ==> ReadsBlock(lines, x)
    ensures forall x :: x in [BlockRead(lines, i)] + rest ==> ReadsBlock(lines, x)
  {
    BlockReadAt(lines, i);
  }

  /** Every parsed block has the shape `ReadsBlock` describes. */
  lemma {:induction false} ParsedBlocksAreBlocks(lines: seq<string>, i: nat)
    ensures forall b :: b in ParseFrom(lines, i) ==> ReadsBlock(lines, b)
    decreases |lines| - i
  {
    if i < |lines| {
      if !Contains(lines[i], StartMarker) {
        ParseSkipsLine(lines, i);
        ParsedBlocksAreBlocks(lines, i + 1);
      } else {
        var end := BlockRead(lines, i).endLine;
        ParsedBlocksAreBlocks(lines, end + 1);
        ConsReadsBlocks(lines, i, ParseFrom(lines, end + 1));
        ParseReadsBlock(lines, i);
      }
    }
  }

  lemma ConsOutside(lines: seq<string>, b: Block, rest: seq<Block>, from: nat)
    requires forall t :: b.endLine + 1 <= t < |lines| && Outside(rest, t) ==> !Contains(lines[t], StartMarker)
    requires forall t :: from <= t < b.startLine && t < |lines| ==> !Contains(lines[t], StartMarker)
    ensures forall t :: from <= t < |lines| && Outside([b] + rest, t) ==> !Contains(lines[t], StartMarker)
  {
    var r := [b] + rest;
    forall t | from <= t < |lines| && Outside(r, t)
      ensures !Contains(lines[t], StartMarker)
    {
      assert !(b.startLine <= t <= b.endLine) by { assert r[0] == b; }
      if t > b.endLine {
        assert Outside(rest, t) by {
          forall k | 0 <= k < |rest| ensures !(rest[k].startLine <= t <= rest[k].endLine) {
            assert r[k + 1] == rest[k];
          }
        }
      }
    }
  }

  /** The parser misses no start marker: every line carrying one lies inside a block. */
  lemma {:induction false} ParseMissesNoStart(lines: seq<string>, i: nat)
    ensures forall t :: i <= t < |lines| && Outside(ParseFrom(lines, i), t) ==> !Contains(lines[t], StartMarker)
    decreases |lines| - i
  {
    if i < |lines| {
      if !Contains(lines[i], StartMarker) {
        ParseSkipsLine(lines, i);
        ParseMissesNoStart(lines, i + 1);
      } else {
        var b := BlockRead(lines, i);
        ParseReadsBlock(lines, i);
        ParseMissesNoStart(lines, b.endLine + 1);
        ConsOutside(lines, b, ParseFrom(lines, b.endLine + 1), i);
      }
    }
  }

  /** No blocks are found exactly when no line carries the start marker. */
  lemma {:induction false} NoBlocksIffNoStartLine(lines: seq<string>)
    ensures ParseFrom(lines, 0) == [] <==> forall t :: 0 <= t < |lines| ==> !Contains(lines[t], StartMarker)
  {
    if forall t :: 0 <= t < |lines| ==> !Contains(lines[t], StartMarker) {
      NoStartLineNoBlocks(lines, 0);
    } else {
      ParseMissesNoStart(lines, 0);
    }
  }

  lemma {:induction false} NoStartLineNoBlocks(lines: seq<string>, i: nat)
    requires forall t :: i <= t < |lines| ==> !Contains(lines[t], StartMarker)
    ensures ParseFrom(lines, i) == []
    decreases |lines| - i
  {
    if i < |lines| {
      ParseSkipsLine(lines, i);
      NoStartLineNoBlocks(lines, i + 1);
    }
  }

  /** A block whose end marker never comes runs past the last line. */
  lemma {:induction false} UnclosedBlockRunsPastEnd(lines: seq<string>)
    requires |lines| > 0 && Contains(lines[0], StartMarker)
    requires forall t :: 0 <= t < |lines| ==> !Contains(lines[t], EndMarker)
    ensures |ParseFrom(lines, 0)| == 1 && ParseFrom(lines, 0)[0].endLine >= |lines|
  {
    var mid := NextWith(lines, 1, MiddleMarker);
    NextWithIsFirst(lines, mid + 1, EndMarker);
    var b := BlockRead(lines, 0);
    assert b.endLine >= |lines|;
    ParseReadsBlock(lines, 0);
    assert ParseFrom(lines, b.endLine + 1) == [];
  }

  /** One of the parser's inner loops: collects the lines from `from` up to the first
      one carrying `marker`, and stops there (or at the end of the file). */
  method CollectUntil(lines: seq<string>, from: nat, marker: string) returns (upTo: nat, collected: seq<string>)
    ensures upTo == NextWith(lines, from, marker)
    ensures collected == if from <= |lines| then lines[from..upTo] else []
  {
    upTo := from;
    collected := [];
    while upTo < |lines| && !Contains(lines[upTo], marker)
      invariant from <= upTo
      invariant from <= |lines| ==> upTo <= |lines| && collected == lines[from..upTo]
      invariant from > |lines| ==> upTo == from && collected == []
      invariant NextWith(lines, from, marker) == NextWith(lines, upTo, marker)
      decreases |lines| - upTo
    {
      collected := collected + [lines[upTo]];
      upTo := upTo + 1;
    }
  }

  /** The body of the parser's outer loop at a start-marker line: the inner loops
      collect the "ours" side up to the middle marker, skip it, and collect the
      "theirs" side up to the end marker. */
  method ReadBlock(lines: seq<string>, start: nat) returns (block: Block)
    requires start < |lines|
    ensures block == BlockRead(lines, start)
  {
    var mid, ours := CollectUntil(lines, start + 1, MiddleMarker);
    var end, theirs := CollectUntil(lines, mid + 1, EndMarker);
    block := Block(start, ours, theirs, end);
  }

  /** `parse_conflict`: the outer loop walks the lines, reads a block at each start
      marker and resumes after the block's end line. */
  method ParseConflicts(lines: seq<string>) returns (conflicts: seq<Block>)
    ensures conflicts == ParseFrom(lines, 0)
  {
    conflicts := [];
    var i: nat := 0;
    while i < |lines|
      invariant conflicts + ParseFrom(lines, i) == ParseFrom(lines, 0)
      decreases |lines| - i
    {
      if Contains(lines[i], StartMarker) {
        var block := ReadBlock(lines, i);
        ParseReadsBlock(lines, i);
        AppendAssoc(conflicts, [block], ParseFrom(lines, block.endLine + 1));
        conflicts := conflicts + [block];
        i := block.endLine + 1;
      } else {
        ParseSkipsLine(lines, i);
        i := i + 1;
      }
    }
  }

  /** Blocks `k` onwards ordered, with block `k` (if any) starting at or after `from`. */
  ghost predicate SpliceableFrom(lines: seq<string>, blocks: seq<Block>, k: nat, from: nat) {
    && Ordered(lines, blocks, 0)
    && k <= |blocks|
    && (k < |blocks| ==> from <= blocks[k].startLine)
  }

  /** The file from line `from` on, with blocks `k` onwards replaced by their kept
      side: the lines outside the blocks keep their order. */
  function SplicedFrom(lines: seq<string>, blocks: seq<Block>, side: Side, k: nat, from: nat): seq<string>
    requires SpliceableFrom(lines, blocks, k, from)
    decreases |blocks| - k
  {
    if k == |blocks| then
      if from <= |lines| then lines[from..] else []
    else
      lines[from..blocks[k].startLine]
      + (Kept(blocks[k], side) + SplicedFrom(lines, blocks, side, k + 1, blocks[k].endLine + 1))
  }

  lemma SplicedSkipsLine(lines: seq<string>, blocks: seq<Block>, side: Side, k: nat, from: nat)
    requires SpliceableFrom(lines, blocks, k, from)
    requires from < |lines|
    requires k < |blocks| ==> from < blocks[k].startLine
    ensures SpliceableFrom(lines, blocks, k, from + 1)
    ensures SplicedFrom(lines, blocks, side, k, from) == [lines[from]] + SplicedFrom(lines, blocks, side, k, from + 1)
  {
    if k < |blocks| {
      var rest := Kept(blocks[k], side) + SplicedFrom(lines, blocks, side, k + 1, blocks[k].endLine + 1);
      assert lines[from..blocks[k].startLine] == [lines[from]] + lines[from + 1..blocks[k].startLine];
      AppendAssoc([lines[from]], lines[from + 1..blocks[k].startLine], rest);
    } else {
      assert lines[from..] == [lines[from]] + lines[from + 1..];
    }
  }

  lemma SplicedTakesBlock(lines: seq<string>, blocks: seq<Block>, side: Side, k: nat, from: nat)
    requires SpliceableFrom(lines, blocks, k, from)
    requires k < |blocks| && from == blocks[k].startLine
    ensures SpliceableFrom(lines, blocks, k + 1, blocks[k].endLine + 1)
    ensures SplicedFrom(lines, blocks, side, k, from)
            == Kept(blocks[k], side) + SplicedFrom(lines, blocks, side, k + 1, blocks[k].endLine + 1)
  {
    assert lines[from..blocks[k].startLine] == [];
  }

  /** Every block ends after it starts. */
  ghost predicate Advancing(blocks: seq<Block>) {
    forall k :: 0 <= k < |blocks| ==> blocks[k].startLine < blocks[k].endLine
  }

  /** The resolvers' rewriting walk from line `i`, with blocks `k` onwards still
      ahead: at the start line of the next block its kept side is emitted and the
      walk resumes after the block's end line; any other line is copied. */
  function Rewrite(lines: seq<string>, blocks: seq<Block>, side: Side, k: nat, i: nat): seq<string>
    requires Advancing(blocks) && k <= |blocks|
    decreases |lines| - i
  {
    if i >= |lines| then []
    else if k < |blocks| && i == blocks[k].startLine then
      Kept(blocks[k], side) + Rewrite(lines, blocks, side, k + 1, blocks[k].endLine + 1)
    else
      [lines[i]] + Rewrite(lines, blocks, side, k, i + 1)
  }

  /** On ordered blocks the walk is the block-wise splice. */
  lemma {:induction false} RewriteIsSplice(lines: seq<string>, blocks: seq<Block>, side: Side, k: nat, from: nat)
    requires SpliceableFrom(lines, blocks, k, from)
    ensures Rewrite(lines, blocks, side, k, from) == SplicedFrom(lines, blocks, side, k, from)
    decreases |lines| - from
  {
    if from < |lines| {
      if k < |blocks| && from == blocks[k].startLine {
        SplicedTakesBlock(lines, blocks, side, k, from);
        RewriteIsSplice(lines, blocks, side, k + 1, blocks[k].endLine + 1);
      } else {
        SplicedSkipsLine(lines, blocks, side, k, from);
        RewriteIsSplice(lines, blocks, side, k, from + 1);
      }
    } else if k < |blocks| {
      assert false;
    }
  }

  /** The file with every parsed block replaced by its `side`. */
  function Resolved(lines: seq<string>, side: Side): seq<string> {
    ParseIsOrdered(lines, 0);
    Rewrite(lines, ParseFrom(lines, 0), side, 0, 0)
  }

  /** The resolver's answer: the reply, and the new lines when the file is rewritten. */
  datatype Resolution = Resolution(reply: Reply, rewritten: Option<seq<string>>)

  function ResolvedMessage(side: Side, count: nat): string {
    (if side == Ours then "Kept local version, resolved " else "Kept remote version, resolved ")
    + NatToString(count) + " conflict(s)"
  }

  /** `resolve_conflict_ours` / `resolve_conflict_theirs` on the file's lines: the file
      is rewritten only when it has blocks, each replaced by the chosen side. */
  method ResolveConflicts(lines: seq<string>, side: Side) returns (r: Resolution)
    ensures var blocks := ParseFrom(lines, 0);
      && (blocks == [] ==> r == Resolution(Reply(true, "No conflicts found"), None))
      && (blocks != [] ==>
            r == Resolution(Reply(true, ResolvedMessage(side, |blocks|)), Some(Resolved(lines, side))))
  {
    var conflicts := ParseConflicts(lines);
    if conflicts == [] {
      return Resolution(Reply(true, "No conflicts found"), None);
    }
    ParseIsOrdered(lines, 0);
    var newLines := ReplaceBlocks(lines, conflicts, side);
    r := Resolution(Reply(true, ResolvedMessage(side, |conflicts|)), Some(newLines));
  }

  /** The rewriting loop of the resolvers. */
  method ReplaceBlocks(lines: seq<string>, conflicts: seq<Block>, side: Side) returns (newLines: seq<string>)
    requires Advancing(conflicts)
    ensures newLines == Rewrite(lines, conflicts, side, 0, 0)
  {
    newLines := [];
    var i: nat := 0;
    var conflictIdx: nat := 0;
    while i < |lines|
      invariant conflictIdx <= |conflicts|
      invariant newLines + Rewrite(lines, conflicts, side, conflictIdx, i) == Rewrite(lines, conflicts, side, 0, 0)
      decreases |lines| - i
    {
      if conflictIdx < |conflicts| && i == conflicts[conflictIdx].startLine {
        var kept := Kept(conflicts[conflictIdx], side);
        AppendAssoc(newLines, kept, Rewrite(lines, conflicts, side, conflictIdx + 1, conflicts[conflictIdx].endLine + 1));
        newLines := newLines + kept;
        i := conflicts[conflictIdx].endLine + 1;
        conflictIdx := conflictIdx + 1;
      } else {
        AppendAssoc(newLines, [lines[i]], Rewrite(lines, conflicts, side, conflictIdx, i + 1));
        newLines := newLines + [lines[i]];
        i := i + 1;
      }
    }
    assert newLines + [] == newLines;
  }

  /** No line of a spliced file carries a start marker when no line outside the blocks
      and no line of a kept side does. */
  lemma {:induction false} SplicedLinesFree(lines: seq<string>, blocks: seq<Block>, side: Side, k: nat, from: nat)
    requires SpliceableFrom(lines, blocks, k, from)
    requires forall j :: 0 <= j < k ==> blocks[j].endLine < from
    requires forall t :: from <= t < |lines| && Outside(blocks, t) ==> !Contains(lines[t], StartMarker)
    requires forall b :: b in blocks ==> forall x :: x in Kept(b, side) ==> !Contains(x, StartMarker)
    ensures forall x :: x in SplicedFrom(lines, blocks, side, k, from) ==> !Contains(x, StartMarker)
    decreases |blocks| - k
  {
    if k < |blocks| {
      var b := blocks[k];
      SplicedLinesFree(lines, blocks, side, k + 1, b.endLine + 1);
      forall t | from <= t < b.startLine
        ensures !Contains(lines[t], StartMarker)
      {
        assert Outside(blocks, t);
      }
      assert b in blocks;
    }
  }

  /** Resolving is idempotent: when no kept side brings a start marker along, the
      resolved file has no blocks, so a second resolution leaves it untouched. */
  lemma {:induction false} ResolveIsIdempotent(lines: seq<string>, side: Side)
    requires forall b :: b in ParseFrom(lines, 0) ==> forall x :: x in Kept(b, side) ==> !Contains(x, StartMarker)
    ensures ParseFrom(Resolved(lines, side), 0) == []
  {
    var blocks := ParseFrom(lines, 0);
    ParseIsOrdered(lines, 0);
    ParseMissesNoStart(lines, 0);
    SplicedLinesFree(lines, blocks, side, 0, 0);
    RewriteIsSplice(lines, blocks, side, 0, 0);
    var out := Resolved(lines, side);
    assert forall t :: 0 <= t < |out| ==> out[t] in out;
    NoStartLineNoBlocks(out, 0);
  }

  datatype BlockSummary = BlockSummary(lines: string, oursLines: nat, theirsLines: nat)
  datatype Summary = Summary(file: string, hasConflicts: bool, conflictCount: nat, conflicts: seq<BlockSummary>)

  /** The summary of the parsed blocks of the file at `path`. */
  function SummaryOf(path: string, blocks: seq<Block>): (r: Summary)
    ensures r.file == path
    ensures r.conflictCount == |blocks|
    ensures r.hasConflicts <==> r.conflictCount > 0
    ensures |r.conflicts| == r.conflictCount
    ensures forall k :: 0 <= k < |r.conflicts| ==>
      && r.conflicts[k].oursLines == |blocks[k].ours|
      && r.conflicts[k].theirsLines == |blocks[k].theirs|
      && r.conflicts[k].lines == NatToString(blocks[k].startLine) + "-" + NatToString(blocks[k].endLine)
  {
    Summary(path, |blocks| > 0, |blocks|,
            seq(|blocks|, k requires 0 <= k < |blocks| =>
              BlockSummary(NatToString(blocks[k].startLine) + "-" + NatToString(blocks[k].endLine),
                           |blocks[k].ours|, |blocks[k].theirs|)))
  }

  /** `get_conflict_summary`: parses the file and summarises its blocks. */
  method GetConflictSummary(path: string, lines: seq<string>) returns (summary: Summary)
    ensures summary == SummaryOf(path, ParseFrom(lines, 0))
  {
    var conflicts := ParseConflicts(lines);
    summary := SummaryOf(path, conflicts);
  }

  /** A file handed to the report, with its lines. */
  datatype ConflictedFile = ConflictedFile(path: string, lines: seq<string>)

  const ReportTrailer :=
    "Resolution Options:\n"
    + "1. Manually edit files to resolve conflicts\n"
    + "2. Use 'ours' strategy (keep local changes)\n"
    + "3. Use 'theirs' strategy (keep remote changes)\n"
    + "4. Revert to previous version\n"

  function ReportHeader(fileCount: nat): string {
    "Merge Conflicts Detected (" + NatToString(fileCount) + " file(s))\n"
    + seq(60, _ => '=') + "\n\n"
  }

  /** The lines of one file's section, for its blocks from the `k`-th (numbered from 1) on. */
  function BlockLines(blocks: seq<BlockSummary>, k: nat): string
    decreases |blocks| - k
  {
    if k >= |blocks| then ""
    else
      "    " + NatToString(k + 1) + ". Lines " + blocks[k].lines + " "
      + "(Ours: " + NatToString(blocks[k].oursLines) + " lines, "
      + "Theirs: " + NatToString(blocks[k].theirsLines) + " lines)\n"
      + BlockLines(blocks, k + 1)
  }

  /** One file's part of the report, from its summary. */
  function FileSection(path: string, summary: Summary): string {
    "File: " + path + "\n"
    + "  Conflicts: " + NatToString(summary.conflictCount) + "\n"
    + BlockLines(summary.conflicts, 0)
    + "\n"
  }

  function Sections(files: seq<ConflictedFile>): string {
    if |files| == 0 then ""
    else
      var last := files[|files| - 1];
      Sections(files[..|files| - 1]) + FileSection(last.path, SummaryOf(last.path, ParseFrom(last.lines, 0)))
  }

  /** `create_conflict_report`: a fixed sentence when nothing is conflicted, otherwise
      a header with the file count, one section per file in order, and the options. */
  method CreateConflictReport(files: seq<ConflictedFile>) returns (report: string)
    ensures files == [] ==> report == "No conflicts detected."
    ensures files != [] ==> report == ReportHeader(|files|) + Sections(files) + ReportTrailer
  {
    if files == [] {
      return "No conflicts detected.";
    }
    report := ReportHeader(|files|);
    for i := 0 to |files|
      invariant report == ReportHeader(|files|) + Sections(files[..i])
    {
      var summary := GetConflictSummary(files[i].path, files[i].lines);
      var section := FileSection(files[i].path, summary);
      assert Sections(files[..i + 1]) == Sections(files[..i]) + section by {
        assert files[..i + 1][..i] == files[..i];
      }
      AppendAssoc(ReportHeader(|files|), Sections(files[..i]), section);
      report := report + section;
    }
    assert files[..|files|] == files;
    report := report + ReportTrailer;
  }

  /** `scan_directory_for_conflicts` over an enumeration of (path, content) pairs:
      files under a `.git` directory are skipped, the rest are kept when the
      markers are detected. */
  function ScanForConflicts(files: seq<(string, string)>): (r: seq<string>)
    ensures |r| <= |files|
    ensures forall p :: p in r <==> exists k :: 0 <= k < |files| && files[k].0 == p
                                     && ".git" !in PathParts(p) && DetectConflicts(files[k].1)
  {
    if |files| == 0 then []
    else
      var rest := ScanForConflicts(files[1..]);
      assert forall k :: 1 <= k < |files| ==> files[k] == files[1..][k - 1];
      if ".git" !in PathParts(files[0].0) && DetectConflicts(files[0].1) then [files[0].0] + rest else rest
  }
}
