/**
 What the rows of a diff projection mean: the two texts can be read off them, rows
 stand where their offsets say, and noted positions agree with the rows.
 */
module ReviewMeaning {
  import opened Wrappers
  import opened ReviewLines
  import opened ReviewProjection

  function NumberOn(row: Row, side: Side): Option<nat> {
    if side.Old? then row.oldLine else row.newLine
  }

  /** The texts of the rows that carry a line of one side. */
  function SideTexts(rows: seq<Row>, side: Side): seq<string> {
    if rows == [] then []
    else SideTexts(rows[..|rows| - 1], side) + if NumberOn(rows[|rows| - 1], side).Some? then [rows[|rows| - 1].text]
      else []
  }

  lemma RowText(input: Input, pane: Pane, row: Row, side: Side)
    requires RowShows(input, pane, row) && NumberOn(row, side).Some?
    ensures var lines := if side.Old? then input.oldLines else input.newLines;
            && 1 <= NumberOn(row, side).value <= |lines|
            && row.text == lines[NumberOn(row, side).value - 1].text
            && (if side.Old? then row.oldFrom else row.newFrom) == Some(lines[NumberOn(row, side).value - 1].from)
  {
  }

  ghost predicate Carries(pane: Pane, side: Side) {
    if side.Old? then !pane.NewOnly? else !pane.OldOnly?
  }

  lemma UptoSplit(numbers: seq<nat>, number: nat, n: nat)
    requires numbers + [number] == Upto(n)
    ensures n > 0 && number == n && numbers == Upto(n - 1)
  {
    assert |numbers| == n - 1;
    assert (numbers + [number])[n - 1] == n;
    assert numbers == (numbers + [number])[..n - 1];
  }

  lemma {:induction false} SideTextsAre(input: Input, pane: Pane, rows: seq<Row>, side: Side, n: nat)
    requires forall k :: 0 <= k < |rows| ==> RowShows(input, pane, rows[k])
    requires Numbers(rows, side) == Upto(n)
    ensures var lines := if side.Old? then input.oldLines else input.newLines;
            n <= |lines| && SideTexts(rows, side) == Texts(lines[..n])
    decreases |rows|
  {
    hide RowShows;
    var lines := if side.Old? then input.oldLines else input.newLines;
    if rows != [] {
      var init, last := rows[..|rows| - 1], rows[|rows| - 1];
      if NumberOn(last, side).Some? {
        UptoSplit(Numbers(init, side), NumberOn(last, side).value, n);
        SideTextsAre(input, pane, init, side, n - 1);
        RowText(input, pane, last, side);
        assert lines[..n] == lines[..n - 1] + [lines[n - 1]];
        TextsAppend(lines[..n - 1], lines[n - 1]);
      } else {
        SideTextsAre(input, pane, init, side, n);
      }
    }
  }

  /** Each text is restored by reading the rows of its side from top to bottom. */
  lemma RowsRestoreText(text: string, input: Input, pane: Pane, rows: seq<Row>, side: Side)
    requires LinesOf(text, if side.Old? then input.oldLines else input.newLines) && Carries(pane, side)
    requires Column(input, pane, rows, |input.oldLines|, |input.newLines|)
    ensures text == if EndsLine(text) then Join(SideTexts(rows, side)) + "\n" else Join(SideTexts(rows, side))
  {
    hide RowShows;
    var lines := if side.Old? then input.oldLines else input.newLines;
    SideTextsAre(input, pane, rows, side, |lines|);
    assert lines[..|lines|] == lines;
  }

  function AsLines(rows: seq<Row>): seq<Line> {
    seq(|rows|, k requires 0 <= k < |rows| => Line(rows[k].text, rows[k].from, k + 1))
  }

  /** The text of the projection holds every row at its offset. */
  lemma RowStandsAtOffset(rows: seq<Row>, offset: nat, k: nat)
    requires Chained(rows, offset) && k < |rows|
    ensures rows[k].from + |rows[k].text| <= |Join(RowTexts(rows))|
    ensures Join(RowTexts(rows))[rows[k].from..rows[k].from + |rows[k].text|] == rows[k].text
  {
    assert Texts(AsLines(rows)) == RowTexts(rows);
    LineAt(AsLines(rows), k);
  }

  /** Positions name exactly the lines shown, each at the offset of its row. */
  lemma {:induction false} PositionsAgree(rows: seq<Row>, side: Side, n: nat)
    requires Numbers(rows, side) == Upto(n)
    ensures forall v :: v in Positions(rows, side) <==> 1 <= v <= n
    ensures forall k :: 0 <= k < |rows| && NumberOn(rows[k], side).Some? ==>
              && 1 <= NumberOn(rows[k], side).value <= n && NumberOn(rows[k], side).value in Positions(rows, side)
              && Positions(rows, side)[NumberOn(rows[k], side).value] == rows[k].from
    decreases |rows|
  {
    if rows != [] {
      var init, last := rows[..|rows| - 1], rows[|rows| - 1];
      assert forall k :: 0 <= k < |init| ==> rows[k] == init[k];
      if NumberOn(last, side).Some? {
        UptoSplit(Numbers(init, side), NumberOn(last, side).value, n);
        PositionsAgree(init, side, n - 1);
      } else {
        PositionsAgree(init, side, n);
      }
    }
  }

  /** Line numbers of one side grow from row to row. */
  lemma {:induction false} NumbersGrow(rows: seq<Row>, side: Side, n: nat, i: nat, k: nat)
    requires Numbers(rows, side) == Upto(n) && i < k < |rows| && NumberOn(rows[i], side).Some?
    requires NumberOn(rows[k], side).Some?
    ensures NumberOn(rows[i], side).value < NumberOn(rows[k], side).value
    decreases |rows|
  {
    var init, last := rows[..|rows| - 1], rows[|rows| - 1];
    var m := if NumberOn(last, side).Some? then n - 1 else n;
    if NumberOn(last, side).Some? {
      UptoSplit(Numbers(init, side), NumberOn(last, side).value, n);
    }
    if k < |init| {
      NumbersGrow(init, side, m, i, k);
    } else {
      PositionsAgree(init, side, m);
      assert rows[i] == init[i];
    }
  }

  lemma {:induction false} LinesApart(lines: seq<Line>, i: nat, k: nat)
    requires Numbered(lines) && i < k < |lines|
    ensures lines[i].from + |lines[i].text| < lines[k].from
    decreases k
  {
    if i < k - 1 {
      LinesApart(lines, i, k - 1);
    }
  }

  // ---------------------------------------------------------------- what is highlighted

  predicate Lit(row: Row, p: int) {
    exists k :: 0 <= k < |row.changes| && row.changes[k].0 <= p < row.changes[k].1
  }

  predicate Covered(ranges: seq<(int, int)>, q: int) {
    exists k :: 0 <= k < |ranges| && ranges[k].0 <= q < ranges[k].1
  }

  /** The character diff of the two blocks marks character `q` of the side. */
  ghost predicate Marked(marks: seq<Mark>, side: Side, q: int) {
    if side.Old? then exists k :: 0 <= k < |marks| && marks[k].fromA <= q < marks[k].toA
    else exists k :: 0 <= k < |marks| && marks[k].fromB <= q < marks[k].toB
  }

  lemma {:induction false} ClipCovers(ranges: seq<(int, int)>, from: nat, length: nat, at: nat, p: int)
    requires at <= p < at + length
    ensures Covered(Clip(ranges, from, length, at), p) <==> Covered(ranges, from + p - at)
    decreases ranges
  {
    if ranges != [] {
      var init, last := ranges[..|ranges| - 1], ranges[|ranges| - 1];
      ClipCovers(init, from, length, at, p);
      assert forall q :: Covered(ranges, q) <==> Covered(init, q) || last.0 <= q < last.1 by {
        forall q ensures Covered(ranges, q) <==> Covered(init, q) || last.0 <= q < last.1 {
          CoveredMore(init, last, q);
          assert init + [last] == ranges;
        }
      }
      var lo, hi := if last.0 > from then last.0 else from, if last.1 < from + length then last.1 else from + length;
      CoveredMore(Clip(init, from, length, at), (at + lo - from, at + hi - from), p);
    }
  }

  lemma CoveredMore(init: seq<(int, int)>, last: (int, int), q: int)
    ensures Covered(init + [last], q) <==> Covered(init, q) || last.0 <= q < last.1
  {
    var all := init + [last];
    assert all[|init|] == last;
    if k :| 0 <= k < |init| && init[k].0 <= q < init[k].1 {
      assert all[k] == init[k];
    }
  }

  function Lines(input: Input, side: Side): seq<Line> {
    if side.Old? then input.oldLines else input.newLines
  }

  function BlockStart(ch: Change, side: Side): int {
    if side.Old? then ch.oldStart else ch.newStart
  }

  function BlockLines(ch: Change, side: Side): int {
    if side.Old? then ch.oldLines else ch.newLines
  }

  /** The text of the block that a change replaces, or puts in its place. */
  function BlockText(input: Input, ch: Change, side: Side): string {
    Block(Lines(input, side), BlockStart(ch, side), BlockLines(ch, side))
  }

  /** The lines of a block, numbered and placed from its start. */
  function BlockOf(lines: seq<Line>, start: nat, count: nat): seq<Line>
    requires start + count <= |lines| && (count > 0 ==> start < |lines|)
  {
    seq(count, k requires 0 <= k < count =>
      Line(lines[start + k].text,
        if lines[start].from <= lines[start + k].from then lines[start + k].from - lines[start].from else 0, k + 1))
  }

  lemma BlockNumbered(lines: seq<Line>, start: nat, count: nat)
    requires Numbered(lines) && start + count <= |lines| && count > 0
    ensures Numbered(BlockOf(lines, start, count))
    ensures forall k :: start <= k < start + count ==> lines[start].from <= lines[k].from
    ensures Texts(BlockOf(lines, start, count)) == Texts(lines[start..start + count])
  {
    forall k | start <= k < start + count ensures lines[start].from <= lines[k].from {
      if start < k {
        LinesApart(lines, start, k);
      }
    }
    var block := BlockOf(lines, start, count);
    forall k | 0 < k < count ensures block[k].from == block[k - 1].from + |block[k - 1].text| + 1 {
      assert lines[start + k].from == lines[start + k - 1].from + |lines[start + k - 1].text| + 1;
    }
  }

  lemma SliceAt(text: string, from: nat, length: nat, q: nat)
    requires from + length <= |text| && q < length
    ensures text[from..from + length][q] == text[from + q]
  {
  }

  lemma BlockHolds(lines: seq<Line>, start: nat, count: nat, n: nat, q: nat)
    requires Numbered(lines) && start <= n < start + count <= |lines|
    requires q < |lines[n].text|
    ensures lines[start].from <= lines[n].from
    ensures var at := lines[n].from - lines[start].from + q;
      at < |Block(lines, start, count)| && Block(lines, start, count)[at] == lines[n].text[q]
  {
    BlockNumbered(lines, start, count);
    var block := BlockOf(lines, start, count);
    assert block[n - start].text == lines[n].text && block[n - start].from == lines[n].from - lines[start].from;
    hide Numbered, Texts, Join, BlockOf;
    LineAt(block, n - start);
    SliceAt(Join(Texts(block)), lines[n].from - lines[start].from, |lines[n].text|, q);
  }

  lemma MarksCover(input: Input, c: nat, side: Side, q: int)
    requires c < |input.changes|
    requires var ch := input.changes[c];
      && 0 <= ch.oldStart && 0 < ch.oldLines && ch.oldStart + ch.oldLines <= |input.oldLines|
      && 0 <= ch.newStart && 0 < ch.newLines && ch.newStart + ch.newLines <= |input.newLines|
    ensures var ch := input.changes[c];
      Covered(Marks(input, c, side), Lines(input, side)[BlockStart(ch, side)].from + q) <==>
      Marked(input.differ(BlockText(input, ch, Old), BlockText(input, ch, New)), side, q)
  {
    hide Block;
    var ch := input.changes[c];
    var marks := input.differ(BlockText(input, ch, Old), BlockText(input, ch, New));
    var ranges, base := Marks(input, c, side), Lines(input, side)[BlockStart(ch, side)].from;
    assert |ranges| == |marks|;
    forall k | 0 <= k < |marks|
      ensures ranges[k] == if side.Old? then (base + marks[k].fromA, base + marks[k].toA)
        else (base + marks[k].fromB, base + marks[k].toB)
    {
    }
    hide Marks;
    if Marked(marks, side, q) {
      var k :| 0 <= k < |marks| &&
               (if side.Old? then marks[k].fromA <= q < marks[k].toA else marks[k].fromB <= q < marks[k].toB);
      assert ranges[k].0 <= base + q < ranges[k].1;
    }
  }

  /** The line `n` of a side that a deleted or added row of change `c` shows. */
  ghost predicate ShownBy(input: Input, row: Row, c: nat, side: Side, n: nat)
    requires c < |input.changes|
  {
    && n < |Lines(input, side)| && 0 <= BlockStart(input.changes[c], side) <= n
    && n < BlockStart(input.changes[c], side) + BlockLines(input.changes[c], side)
    && NumberOn(row, side) == Some(n + 1)
    && row.text == Lines(input, side)[n].text
    && row.changes == Clip(Marks(input, c, side), Lines(input, side)[n].from, |row.text|, row.from)
  }

  lemma RowIsShown(input: Input, row: Row)
    requires Sound(input)
    ensures DeletedRow(input, row) ==>
      exists c, n: nat :: 0 <= c < |input.changes| && ShownBy(input, row, c, Old, n)
    ensures AddedRow(input, row) ==>
      exists c, n: nat :: 0 <= c < |input.changes| && ShownBy(input, row, c, New, n)
  {
    hide Marks, Clip;
    if DeletedRow(input, row) {
      var c :| 0 <= c < |input.changes| && DeletedBy(input, row, c);
      assert ChangeFits(input.changes, c, |input.oldLines|, |input.newLines|);
      assert ShownBy(input, row, c, Old, row.oldLine.value - 1);
    }
    if AddedRow(input, row) {
      var c :| 0 <= c < |input.changes| && AddedBy(input, row, c);
      assert ChangeFits(input.changes, c, |input.oldLines|, |input.newLines|);
      assert ShownBy(input, row, c, New, row.newLine.value - 1);
    }
  }

  /**
   A deleted or added row lights exactly the characters that the character diff of its block marks on its side; a block
   without the other side is not compared.
   */
  lemma LitExactly(input: Input, row: Row, c: nat, side: Side, n: nat, p: nat)
    requires Sound(input) && c < |input.changes| && ShownBy(input, row, c, side, n)
    requires row.from <= p < row.from + |row.text|
    ensures var ch := input.changes[c];
      var lines := Lines(input, side);
      var q := lines[n].from - lines[BlockStart(ch, side)].from + (p - row.from);
      && 0 <= q < |BlockText(input, ch, side)| && BlockText(input, ch, side)[q] == row.text[p - row.from]
      && (Lit(row, p) <==>
            && BlockLines(ch, if side.Old? then New else Old) > 0
            && Marked(input.differ(BlockText(input, ch, Old), BlockText(input, ch, New)), side, q))
  {
    hide Clip, Marks, Block, Marked, Covered, Numbered, Fits;
    var ch := input.changes[c];
    var lines := Lines(input, side);
    ChangeInside(input, c);
    LitIsCovered(row, p);
    ClipCovers(Marks(input, c, side), lines[n].from, |row.text|, row.from, p);
    LitText(input, row, c, side, n, p);
    if ch.oldLines > 0 && ch.newLines > 0 {
      MarksCover(input, c, side, lines[n].from - lines[BlockStart(ch, side)].from + (p - row.from));
    } else {
      NoMarks(input, c);
      NothingCovered(lines[n].from + p - row.from);
    }
  }

  lemma ChangeInside(input: Input, c: nat)
    requires Sound(input) && c < |input.changes|
    ensures var ch := input.changes[c];
      && 0 <= ch.oldStart && 0 <= ch.oldLines && ch.oldStart + ch.oldLines <= |input.oldLines|
      && 0 <= ch.newStart && 0 <= ch.newLines && ch.newStart + ch.newLines <= |input.newLines|
  {
    assert ChangeFits(input.changes, c, |input.oldLines|, |input.newLines|);
  }

  lemma LitText(input: Input, row: Row, c: nat, side: Side, n: nat, p: nat)
    requires Sound(input) && c < |input.changes| && ShownBy(input, row, c, side, n)
    requires row.from <= p < row.from + |row.text|
    ensures var ch := input.changes[c];
      var lines := Lines(input, side);
      var q := lines[n].from - lines[BlockStart(ch, side)].from + (p - row.from);
      0 <= q < |BlockText(input, ch, side)| && BlockText(input, ch, side)[q] == row.text[p - row.from]
  {
    hide Clip, Marks, Block, Numbered, Fits;
    var ch := input.changes[c];
    ChangeInside(input, c);
    BlockHolds(Lines(input, side), BlockStart(ch, side), BlockLines(ch, side), n, p - row.from);
  }

  lemma LitIsCovered(row: Row, p: int)
    ensures Lit(row, p) <==> Covered(row.changes, p)
  {
  }

  lemma NothingCovered(q: int)
    ensures !Covered([], q)
  {
  }
}
