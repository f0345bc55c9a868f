/**
 The diff projection of the review editor (reviewProjection in
 portal/review-ui/editor-model.js): two texts and the line ranges Git reports become
 rows, in one column or in two panes. The bounded character diff is a parameter.
 */
module ReviewProjection {
  import opened Wrappers
  import opened ReviewLines

  datatype Kind = Context | Deletion | Addition | Blank

  datatype Side = Old | New

  datatype Row = Row(
    text: string, from: nat, oldLine: Option<nat>, newLine: Option<nat>, oldFrom: Option<nat>, newFrom: Option<nat>,
    kind: Kind, changes: seq<(int, int)>)

  /** One range reported by Git; a malformed report may hold negative numbers. */
  datatype Change = Change(oldStart: int, oldLines: int, newStart: int, newLines: int)

  /** One marked range of the character diff of a replaced block, relative to the block. */
  datatype Mark = Mark(fromA: int, toA: int, fromB: int, toB: int)

  type Differ = (string, string) -> seq<Mark>

  // ---------------------------------------------------------------- what a valid report is

  function OldEnd(changes: seq<Change>, c: nat): int
    requires c <= |changes|
  {
    if c == 0 then 0 else changes[c - 1].oldStart + changes[c - 1].oldLines
  }

  function NewEnd(changes: seq<Change>, c: nat): int
    requires c <= |changes|
  {
    if c == 0 then 0 else changes[c - 1].newStart + changes[c - 1].newLines
  }

  predicate ChangeFits(changes: seq<Change>, c: nat, m: nat, n: nat)
    requires c < |changes|
  {
    var ch := changes[c];
    && ch.oldStart >= 0 && ch.oldLines >= 0 && ch.newStart >= 0 && ch.newLines >= 0
    && ch.oldStart >= OldEnd(changes, c) && ch.newStart >= NewEnd(changes, c)
    && ch.oldStart - OldEnd(changes, c) == ch.newStart - NewEnd(changes, c)
    && OldEnd(changes, c + 1) <= m && NewEnd(changes, c + 1) <= n && (ch.oldLines != 0 || ch.newLines != 0)
  }

  /** The ranges are ordered, lie in the files, and leave equally long unchanged stretches on both sides. */
  predicate Fits(changes: seq<Change>, m: nat, n: nat) {
    && (forall c :: 0 <= c < |changes| ==> ChangeFits(changes, c, m, n))
    && m - OldEnd(changes, |changes|) == n - NewEnd(changes, |changes|)
  }

  /** End of the unchanged stretch before change `c`, or before the end of the file. */
  function StretchEnd(changes: seq<Change>, c: nat, m: nat): int
    requires c <= |changes|
  {
    if c < |changes| then changes[c].oldStart else m
  }

  /** Old line `i` stands outside every change; it lies in the stretch before change `c`. */
  predicate Unchanged(changes: seq<Change>, c: nat, m: nat, i: int) {
    c <= |changes| && OldEnd(changes, c) <= i < StretchEnd(changes, c, m)
  }

  /** The new line that an unchanged old line is shown beside. */
  function Beside(changes: seq<Change>, c: nat, i: int): int
    requires c <= |changes|
  {
    NewEnd(changes, c) + i - OldEnd(changes, c)
  }

  lemma {:induction false} EndsInside(changes: seq<Change>, m: nat, n: nat, c: nat)
    requires Fits(changes, m, n) && c <= |changes|
    ensures 0 <= OldEnd(changes, c) <= StretchEnd(changes, c, m) <= m && 0 <= NewEnd(changes, c) <= n
    ensures NewEnd(changes, c) + StretchEnd(changes, c, m) - OldEnd(changes, c) == (if c < |changes|
      then changes[c].newStart else n) <= n
  {
    if c > 0 {
      assert ChangeFits(changes, c - 1, m, n);
    }
    if c < |changes| {
      assert ChangeFits(changes, c, m, n);
    }
  }

  // ---------------------------------------------------------------- rows

  function Clip(marks: seq<(int, int)>, from: nat, length: nat, at: nat): seq<(int, int)> {
    if marks == [] then []
    else
      var init := Clip(marks[..|marks| - 1], from, length, at);
      var (a, b) := marks[|marks| - 1];
      var lo, hi := if a > from then a else from, if b < from + length then b else from + length;
      if hi > lo then init + [(at + lo - from, at + hi - from)] else init
  }

  lemma {:induction false} ClipInside(marks: seq<(int, int)>, from: nat, length: nat, at: nat)
    ensures forall k :: 0 <= k < |Clip(marks, from, length, at)| ==>
              at <= Clip(marks, from, length, at)[k].0 < Clip(marks, from, length, at)[k].1 <= at + length
  {
    if marks != [] {
      ClipInside(marks[..|marks| - 1], from, length, at);
    }
  }

  function Source(oldLine: Option<Line>, newLine: Option<Line>): Option<Line> {
    if newLine.Some? then newLine else oldLine
  }

  function MakeRow(oldLine: Option<Line>, newLine: Option<Line>, kind: Kind, marks: seq<(int, int)>, at: nat): Row {
    var source := Source(oldLine, newLine);
    Row(if source.Some? then source.value.text else "", at, Number(oldLine), Number(newLine), From(oldLine),
      From(newLine), kind,
        if source.Some? then Clip(marks, source.value.from, |source.value.text|, at) else [])
  }

  function Number(line: Option<Line>): Option<nat> {
    if line.Some? then Some(line.value.number) else None
  }

  function From(line: Option<Line>): Option<nat> {
    if line.Some? then Some(line.value.from) else None
  }

  /** The numbers a column of the rows carries, in order. */
  function Numbers(rows: seq<Row>, side: Side): seq<nat> {
    if rows == [] then []
    else
      var last := rows[|rows| - 1];
      var number := if side.Old? then last.oldLine else last.newLine;
      Numbers(rows[..|rows| - 1], side) + if number.Some? then [number.value] else []
  }

  function Upto(n: int): seq<nat> {
    if n <= 0 then [] else seq(n, k => k + 1)
  }

  /** Where the projection noted each line number. */
  function Positions(rows: seq<Row>, side: Side): map<nat, nat> {
    if rows == [] then map[]
    else
      var last := rows[|rows| - 1];
      var number := if side.Old? then last.oldLine else last.newLine;
      var init := Positions(rows[..|rows| - 1], side);
      if number.Some? then init[number.value := last.from] else init
  }

  /** Every row starts one past the end of the row before it. */
  ghost predicate Chained(rows: seq<Row>, offset: nat) {
    && (rows != [] ==> rows[0].from == 0)
    && (forall k :: 0 < k < |rows| ==> rows[k].from == rows[k - 1].from + |rows[k - 1].text| + 1)
    && offset == if rows == [] then 0 else rows[|rows| - 1].from + |rows[|rows| - 1].text| + 1
  }

  ghost predicate MarksInside(row: Row) {
    forall k :: 0 <= k < |row.changes| ==> row.from <= row.changes[k].0 < row.changes[k].1 <= row.from + |row.text|
  }

  ghost predicate Consistent(rows: seq<Row>, oldAt: map<nat, nat>, newAt: map<nat, nat>, offset: nat) {
    && Chained(rows, offset) && oldAt == Positions(rows, Old) && newAt == Positions(rows, New)
    && forall k :: 0 <= k < |rows| ==> MarksInside(rows[k])
  }

  class Projection {
    var text: string
    var rows: seq<Row>
    var oldAt: map<nat, nat>
    var newAt: map<nat, nat>
    var offset: nat

    ghost predicate Valid()
      reads this
    {
      Consistent(rows, oldAt, newAt, offset)
    }

    constructor ()
      ensures Valid() && rows == [] && text == ""
    {
      text, rows, oldAt, newAt, offset := "", [], map[], map[], 0;
    }

    method Push(oldLine: Option<Line>, newLine: Option<Line>, kind: Kind, marks: seq<(int, int)>)
      requires Valid()
      modifies this
      ensures Valid() && text == old(text) && rows == old(rows) + [MakeRow(oldLine, newLine, kind, marks, old(offset))]
    {
      hide Consistent, MakeRow, MarksInside;
      var row := BuildRow(oldLine, newLine, kind, marks, offset);
      PushedRow(rows, oldAt, newAt, offset, row);
      if oldLine.Some? {
        oldAt := oldAt[oldLine.value.number := row.from];
      }
      if newLine.Some? {
        newAt := newAt[newLine.value.number := row.from];
      }
      rows, offset := rows + [row], offset + |row.text| + 1;
    }

    /** The text of a column is that of its rows, one to a line. */
    method JoinText()
      requires Valid()
      modifies this
      ensures Valid() && rows == old(rows) && text == Join(RowTexts(rows))
    {
      text := Join(RowTexts(rows));
    }
  }

  /** The row of one or two lines, with the marks that fall inside its source line. */
  method BuildRow(oldLine: Option<Line>, newLine: Option<Line>, kind: Kind, marks: seq<(int, int)>, at: nat)
    returns (row: Row)
    ensures row == MakeRow(oldLine, newLine, kind, marks, at) && MarksInside(row)
    ensures row.from == at && row.oldLine == Number(oldLine) && row.newLine == Number(newLine)
  {
    var source := Source(oldLine, newLine);
    var clipped := [];
    if source.Some? {
      clipped := ClipMarks(marks, source.value.from, |source.value.text|, at);
    }
    row := Row(if source.Some? then source.value.text else "", at, Number(oldLine), Number(newLine), From(oldLine),
      From(newLine), kind, clipped);
  }

  function Note(at: map<nat, nat>, number: Option<nat>, from: nat): map<nat, nat> {
    if number.Some? then at[number.value := from] else at
  }

  lemma PushedRow(rows: seq<Row>, oldAt: map<nat, nat>, newAt: map<nat, nat>, offset: nat, row: Row)
    requires Consistent(rows, oldAt, newAt, offset) && row.from == offset && MarksInside(row)
    ensures Consistent(rows + [row], Note(oldAt, row.oldLine, row.from), Note(newAt, row.newLine, row.from),
      offset + |row.text| + 1)
  {
    assert (rows + [row])[..|rows|] == rows;
  }

  /** The marks that fall inside one source line, moved to where its row stands. */
  method ClipMarks(marks: seq<(int, int)>, from: nat, length: nat, at: nat) returns (clipped: seq<(int, int)>)
    ensures clipped == Clip(marks, from, length, at)
    ensures forall k :: 0 <= k < |clipped| ==> at <= clipped[k].0 < clipped[k].1 <= at + length
  {
    clipped := [];
    for i := 0 to |marks|
      invariant clipped == Clip(marks[..i], from, length, at)
    {
      assert marks[..i + 1][..i] == marks[..i];
      var lo, hi := if marks[i].0 > from then marks[i].0 else from, if marks[i].1 < from + length then marks[i].1
        else from + length;
      if hi > lo {
        clipped := clipped + [(at + lo - from, at + hi - from)];
      }
    }
    assert marks[..|marks|] == marks;
    ClipInside(marks, from, length, at);
  }

  // ---------------------------------------------------------------- what the rows show

  /** One column with both sides, or a pane with one of them. */
  datatype Pane = Both | OldOnly | NewOnly

  datatype Input = Input(oldLines: seq<Line>, newLines: seq<Line>, changes: seq<Change>, differ: Differ)

  function Block(lines: seq<Line>, from: int, count: int): string {
    if 0 <= from && 0 <= count && from + count <= |lines| then Join(Texts(lines[from..from + count])) else ""
  }

  /** The marks of one replaced block as ranges of the whole source text. */
  function Marks(input: Input, c: nat, side: Side): seq<(int, int)>
    requires c < |input.changes|
  {
    var ch := input.changes[c];
    if ch.oldLines <= 0 || ch.newLines <= 0 || !(0 <= ch.oldStart < |input.oldLines|)
      || !(0 <= ch.newStart < |input.newLines|) then []
    else
      var marks := input.differ(Block(input.oldLines, ch.oldStart, ch.oldLines),
        Block(input.newLines, ch.newStart, ch.newLines));
      seq(|marks|, k requires 0 <= k < |marks| =>
        if side.Old? then (input.oldLines[ch.oldStart].from + marks[k].fromA,
          input.oldLines[ch.oldStart].from + marks[k].toA)
        else (input.newLines[ch.newStart].from + marks[k].fromB, input.newLines[ch.newStart].from + marks[k].toB))
  }

  ghost predicate Shows(lines: seq<Line>, number: Option<nat>, from: Option<nat>) {
    if number.Some? then 1 <= number.value <= |lines| && from == Some(lines[number.value - 1].from) else from.None?
  }

  ghost predicate ContextRow(input: Input, pane: Pane, row: Row) {
    && row.changes == []
    && exists c, i :: Unchanged(input.changes, c, |input.oldLines|, i) && ContextOf(input, pane, row, c, i)
  }

  ghost predicate ContextOf(input: Input, pane: Pane, row: Row, c: nat, i: int)
    requires c <= |input.changes|
  {
    var j := Beside(input.changes, c, i);
    && 0 <= i < |input.oldLines| && 0 <= j < |input.newLines|
    && row.oldLine == (if pane.NewOnly? then None else Some(i + 1))
    && row.newLine == (if pane.OldOnly? then None else Some(j + 1))
    && row.text == input.oldLines[i].text == input.newLines[j].text
  }

  ghost predicate DeletedRow(input: Input, row: Row) {
    && row.newLine.None? && row.oldLine.Some? && Shows(input.oldLines, row.oldLine, row.oldFrom)
    && exists c :: 0 <= c < |input.changes| && DeletedBy(input, row, c)
  }

  ghost predicate DeletedBy(input: Input, row: Row, c: nat)
    requires c < |input.changes| && row.oldLine.Some? && Shows(input.oldLines, row.oldLine, row.oldFrom)
  {
    var line := input.oldLines[row.oldLine.value - 1];
    && input.changes[c].oldStart < row.oldLine.value <= OldEnd(input.changes, c + 1)
    && row.text == line.text && row.changes == Clip(Marks(input, c, Old), line.from, |line.text|, row.from)
  }

  ghost predicate AddedRow(input: Input, row: Row) {
    && row.oldLine.None? && row.newLine.Some? && Shows(input.newLines, row.newLine, row.newFrom)
    && exists c :: 0 <= c < |input.changes| && AddedBy(input, row, c)
  }

  ghost predicate AddedBy(input: Input, row: Row, c: nat)
    requires c < |input.changes| && row.newLine.Some? && Shows(input.newLines, row.newLine, row.newFrom)
  {
    var line := input.newLines[row.newLine.value - 1];
    && input.changes[c].newStart < row.newLine.value <= NewEnd(input.changes, c + 1)
    && row.text == line.text && row.changes == Clip(Marks(input, c, New), line.from, |line.text|, row.from)
  }

  /** A row shows exactly what its kind promises. */
  ghost predicate RowShows(input: Input, pane: Pane, row: Row) {
    && Shows(input.oldLines, row.oldLine, row.oldFrom) && Shows(input.newLines, row.newLine, row.newFrom)
    && match row.kind
       case Context => ContextRow(input, pane, row)
       case Deletion => !pane.NewOnly? && DeletedRow(input, row)
       case Addition => !pane.OldOnly? && AddedRow(input, row)
       case Blank => !pane.Both? && row.oldLine.None? && row.newLine.None? && row.text == "" && row.changes == []
  }

  /** The rows carry the first `a` old lines and the first `b` new lines, once each and in order. */
  ghost predicate Column(input: Input, pane: Pane, rows: seq<Row>, a: int, b: int) {
    && Numbers(rows, Old) == (if pane.NewOnly? then [] else Upto(a))
    && Numbers(rows, New) == (if pane.OldOnly? then [] else Upto(b))
    && forall k :: 0 <= k < |rows| ==> RowShows(input, pane, rows[k])
  }

  lemma UptoMore(n: nat)
    ensures Upto(n + 1) == Upto(n) + [n + 1]
  {
  }

  lemma NumbersAppend(rows: seq<Row>, row: Row, side: Side)
    ensures Numbers(rows + [row], side) ==
            Numbers(rows, side) + (var number := if side.Old? then row.oldLine else row.newLine;
              if number.Some? then [number.value] else [])
  {
    assert (rows + [row])[..|rows|] == rows;
  }

  lemma ColumnPush(input: Input, pane: Pane, rows: seq<Row>, a: int, b: int, row: Row, a1: int, b1: int)
    requires a >= 0 && b >= 0
    requires Column(input, pane, rows, a, b) && RowShows(input, pane, row)
    requires !pane.NewOnly? ==> if row.oldLine.Some? then row.oldLine.value == a + 1 == a1 else a1 == a
    requires !pane.OldOnly? ==> if row.newLine.Some? then row.newLine.value == b + 1 == b1 else b1 == b
    ensures Column(input, pane, rows + [row], a1, b1)
  {
    hide RowShows, Upto, Numbers;
    NumbersAppend(rows, row, Old);
    NumbersAppend(rows, row, New);
    UptoMore(a);
    UptoMore(b);
    OneSided(input, pane, row);
  }

  lemma OneSided(input: Input, pane: Pane, row: Row)
    requires RowShows(input, pane, row)
    ensures (pane.NewOnly? ==> row.oldLine.None?) && (pane.OldOnly? ==> row.newLine.None?)
  {
  }

  /** The panes have equally many rows; unchanged lines stand beside each other with the same text. */
  ghost predicate Aligned(left: seq<Row>, right: seq<Row>) {
    |left| == |right| && forall k :: 0 <= k < |left| ==> Level(left[k], right[k])
  }

  ghost predicate Level(a: Row, b: Row) {
    (a.kind.Context? <==> b.kind.Context?) && (a.kind.Context? ==> a.text == b.text)
  }

  // ---------------------------------------------------------------- building the projection

  /** Old line `i` of the stretch before change `c` reads the same on both sides. */
  ghost predicate AgreesAt(input: Input, c: nat, i: int)
    requires c <= |input.changes|
  {
    var j := Beside(input.changes, c, i);
    0 <= i < |input.oldLines| && 0 <= j < |input.newLines| && input.oldLines[i].text == input.newLines[j].text
  }

  /** Git and the files agree on every line Git calls unchanged. */
  ghost predicate ContextAgrees(input: Input) {
    forall c, i :: 0 <= c <= |input.changes| && Unchanged(input.changes, c, |input.oldLines|, i) ==>
      AgreesAt(input, c, i)
  }

  ghost predicate Sound(input: Input) {
    Numbered(input.oldLines) && Numbered(input.newLines) && Fits(input.changes, |input.oldLines|, |input.newLines|)
  }

  ghost predicate Drawn(input: Input, split: bool, unified: seq<Row>, left: seq<Row>, right: seq<Row>, a: int, b: int) {
    if split then unified == [] && Column(input, OldOnly, left, a, b) && Column(input, NewOnly, right, a, b)
      && Aligned(left, right)
    else left == [] && right == [] && Column(input, Both, unified, a, b)
  }

  /** The check at the start of reviewProjection. */
  method CheckRanges(changes: seq<Change>, m: nat, n: nat) returns (ok: bool)
    ensures ok <==> Fits(changes, m, n)
  {
    var oldEnd, newEnd := 0, 0;
    for c := 0 to |changes|
      invariant oldEnd == OldEnd(changes, c) && newEnd == NewEnd(changes, c)
      invariant forall k :: 0 <= k < c ==> ChangeFits(changes, k, m, n)
    {
      var ch := changes[c];
      if ch.oldStart < 0 || ch.oldLines < 0 || ch.newStart < 0 || ch.newLines < 0 || ch.oldStart < oldEnd
        || ch.newStart < newEnd
         || ch.oldStart - oldEnd != ch.newStart - newEnd || ch.oldStart + ch.oldLines > m
           || ch.newStart + ch.newLines > n
         || (ch.oldLines == 0 && ch.newLines == 0) {
        assert !ChangeFits(changes, c, m, n);
        return false;
      }
      oldEnd, newEnd := ch.oldStart + ch.oldLines, ch.newStart + ch.newLines;
    }
    ok := m - oldEnd == n - newEnd;
  }

  lemma ContextShows(input: Input, pane: Pane, c: nat, i: int, at: nat)
    requires Sound(input) && c <= |input.changes| && Unchanged(input.changes, c, |input.oldLines|, i)
    requires AgreesAt(input, c, i)
    ensures var x, y := Some(input.oldLines[i]), Some(input.newLines[Beside(input.changes, c, i)]);
            RowShows(input, pane, MakeRow(if pane.NewOnly? then None else x, if pane.OldOnly? then None else y, Context,
              [], at))
  {
    var x, y := Some(input.oldLines[i]), Some(input.newLines[Beside(input.changes, c, i)]);
    var row := MakeRow(if pane.NewOnly? then None else x, if pane.OldOnly? then None else y, Context, [], at);
    assert ContextOf(input, pane, row, c, i);
  }

  lemma DeletionShows(input: Input, pane: Pane, c: nat, i: nat, at: nat)
    requires Sound(input) && c < |input.changes| && input.changes[c].oldStart <= i < OldEnd(input.changes, c + 1)
    requires i < |input.oldLines| && !pane.NewOnly?
    ensures RowShows(input, pane, MakeRow(Some(input.oldLines[i]), None, Deletion, Marks(input, c, Old), at))
  {
    assert DeletedBy(input, MakeRow(Some(input.oldLines[i]), None, Deletion, Marks(input, c, Old), at), c);
  }

  lemma AdditionShows(input: Input, pane: Pane, c: nat, j: nat, at: nat)
    requires Sound(input) && c < |input.changes| && input.changes[c].newStart <= j < NewEnd(input.changes, c + 1)
    requires j < |input.newLines| && !pane.OldOnly?
    ensures RowShows(input, pane, MakeRow(None, Some(input.newLines[j]), Addition, Marks(input, c, New), at))
  {
    assert AddedBy(input, MakeRow(None, Some(input.newLines[j]), Addition, Marks(input, c, New), at), c);
  }

  lemma BlankShows(input: Input, pane: Pane, marks: seq<(int, int)>, at: nat)
    requires !pane.Both?
    ensures RowShows(input, pane, MakeRow(None, None, Blank, marks, at))
  {
  }

  lemma AlignedPush(left: seq<Row>, right: seq<Row>, x: Row, y: Row)
    requires Aligned(left, right) && Level(x, y)
    ensures Aligned(left + [x], right + [y])
  {
    hide Level;
  }

  lemma ContextLevel(input: Input, c: nat, i: nat, j: nat, atLeft: nat, atRight: nat)
    requires c <= |input.changes| && Unchanged(input.changes, c, |input.oldLines|, i) && AgreesAt(input, c, i)
    requires j == Beside(input.changes, c, i) && i < |input.oldLines| && j < |input.newLines|
    ensures Level(MakeRow(Some(input.oldLines[i]), None, Context, [], atLeft),
              MakeRow(None, Some(input.newLines[j]), Context, [], atRight))
  {
  }

  /** The rows of one unchanged line, beside itself or in both panes. */
  lemma ContextPush(input: Input, split: bool, unified: seq<Row>, left: seq<Row>, right: seq<Row>, c: nat, i: nat,
      j: nat, at: nat, atLeft: nat, atRight: nat)
    requires Sound(input) && c <= |input.changes| && Unchanged(input.changes, c, |input.oldLines|, i)
    requires AgreesAt(input, c, i)
    requires j == Beside(input.changes, c, i) && Drawn(input, split, unified, left, right, i, j)
    ensures i < |input.oldLines| && j < |input.newLines|
    ensures var a, b := Some(input.oldLines[i]), Some(input.newLines[j]);
            if split then Drawn(input, true, unified, left + [MakeRow(a, None, Context, [], atLeft)],
              right + [MakeRow(None, b, Context, [], atRight)], i + 1, j + 1)
            else Drawn(input, false, unified + [MakeRow(a, b, Context, [], at)], left, right, i + 1, j + 1)
  {
    hide RowShows, Column, Aligned, Level, Sound, Clip;
    LineNumbers(input);
    var a, b := Some(input.oldLines[i]), Some(input.newLines[j]);
    if split {
      var x, y := MakeRow(a, None, Context, [], atLeft), MakeRow(None, b, Context, [], atRight);
      ContextLevel(input, c, i, j, atLeft, atRight);
      ContextShows(input, OldOnly, c, i, atLeft);
      ContextShows(input, NewOnly, c, i, atRight);
      ColumnPush(input, OldOnly, left, i, j, x, i + 1, j + 1);
      ColumnPush(input, NewOnly, right, i, j, y, i + 1, j + 1);
      AlignedPush(left, right, x, y);
    } else {
      ContextShows(input, Both, c, i, at);
      ColumnPush(input, Both, unified, i, j, MakeRow(a, b, Context, [], at), i + 1, j + 1);
    }
  }

  /** Show one unchanged line. */
  method PushContext(ghost input: Input, split: bool, unified: Projection, left: Projection, right: Projection, a: Line,
      b: Line, ghost c: nat, ghost i: nat)
    requires unified != left && unified != right && left != right && unified.Valid() && left.Valid() && right.Valid()
    requires Sound(input) && c <= |input.changes| && Unchanged(input.changes, c, |input.oldLines|, i)
    requires AgreesAt(input, c, i)
    requires a == input.oldLines[i] && Beside(input.changes, c, i) >= 0
    requires b == input.newLines[Beside(input.changes, c, i)]
    requires Drawn(input, split, unified.rows, left.rows, right.rows, i, Beside(input.changes, c, i))
    modifies unified, left, right
    ensures unified.Valid() && left.Valid() && right.Valid()
    ensures Drawn(input, split, unified.rows, left.rows, right.rows, i + 1, Beside(input.changes, c, i) + 1)
  {
    hide *;
    ContextPush(input, split, unified.rows, left.rows, right.rows, c, i, Beside(input.changes, c, i), unified.offset,
      left.offset, right.offset);
    if split {
      left.Push(Some(a), None, Context, []);
      right.Push(None, Some(b), Context, []);
    } else {
      unified.Push(Some(a), Some(b), Context, []);
    }
  }

  lemma LineNumbers(input: Input)
    requires Sound(input)
    ensures forall i :: 0 <= i < |input.oldLines| ==> input.oldLines[i].number == i + 1
    ensures forall j :: 0 <= j < |input.newLines| ==> input.newLines[j].number == j + 1
  {
  }

  ghost predicate StretchAgrees(input: Input, c: nat, to: int)
    requires c <= |input.changes|
  {
    forall i :: OldEnd(input.changes, c) <= i < to ==> AgreesAt(input, c, i)
  }

  /** The unchanged lines before change `c`, or those after the last change. */
  method AddStretch(input: Input, split: bool, unified: Projection, left: Projection, right: Projection, ghost c: nat,
      a: nat, b: nat, to: nat)
    returns (ok: bool)
    requires unified != left && unified != right && left != right && unified.Valid() && left.Valid() && right.Valid()
    requires Sound(input) && c <= |input.changes| && a == OldEnd(input.changes, c) && b == NewEnd(input.changes, c)
    requires to == StretchEnd(input.changes, c, |input.oldLines|)
    requires Drawn(input, split, unified.rows, left.rows, right.rows, a, b)
    modifies unified, left, right
    ensures unified.Valid() && left.Valid() && right.Valid()
    ensures ok <==> StretchAgrees(input, c, to)
    ensures ok ==> a <= to && Drawn(input, split, unified.rows, left.rows, right.rows, to, b + to - a)
  {
    hide *;
    StretchInside(input, c);
    var i := a;
    while i < to
      invariant a <= i <= to && StretchAgrees(input, c, i)
      invariant unified.Valid() && left.Valid() && right.Valid()
      invariant Drawn(input, split, unified.rows, left.rows, right.rows, i, b + i - a)
    {
      StretchLine(input, c, i, to);
      var j := b + i - a;
      if input.oldLines[i].text != input.newLines[j].text {
        return false;
      }
      PushContext(input, split, unified, left, right, input.oldLines[i], input.newLines[j], c, i);
      i := i + 1;
    }
    ok := true;
  }

  lemma StretchInside(input: Input, c: nat)
    requires Sound(input) && c <= |input.changes|
    ensures OldEnd(input.changes, c) <= StretchEnd(input.changes, c, |input.oldLines|)
    ensures StretchAgrees(input, c, OldEnd(input.changes, c))
  {
    EndsInside(input.changes, |input.oldLines|, |input.newLines|, c);
  }

  lemma StretchLine(input: Input, c: nat, i: nat, to: int)
    requires Sound(input) && c <= |input.changes| && to == StretchEnd(input.changes, c, |input.oldLines|)
    requires OldEnd(input.changes, c) <= i < to && StretchAgrees(input, c, i)
    ensures Unchanged(input.changes, c, |input.oldLines|, i) && i < |input.oldLines|
    ensures Beside(input.changes, c, i) == NewEnd(input.changes, c) + i - OldEnd(input.changes, c)
    ensures 0 <= Beside(input.changes, c, i) < |input.newLines|
    ensures AgreesAt(input, c, i) <==> input.oldLines[i].text == input.newLines[Beside(input.changes, c, i)].text
    ensures if AgreesAt(input, c, i) then StretchAgrees(input, c, i + 1) else !StretchAgrees(input, c, to)
  {
    EndsInside(input.changes, |input.oldLines|, |input.newLines|, c);
  }

  /** The marks of a replaced block as ranges of its file; a block with one empty side has none. */
  method BlockMarks(input: Input, c: nat) returns (oldMarks: seq<(int, int)>, newMarks: seq<(int, int)>)
    requires Sound(input) && c < |input.changes|
    ensures oldMarks == Marks(input, c, Old) && newMarks == Marks(input, c, New)
  {
    hide *;
    BlockInside(input, c);
    var ch := input.changes[c];
    oldMarks, newMarks := [], [];
    if ch.oldLines > 0 && ch.newLines > 0 {
      var removed, added := input.oldLines[ch.oldStart..ch.oldStart + ch.oldLines],
        input.newLines[ch.newStart..ch.newStart + ch.newLines];
      var marks := input.differ(Join(Texts(removed)), Join(Texts(added)));
      oldMarks, newMarks := MoveMarks(marks, removed[0].from, added[0].from);
      MarksMoved(input, c, marks, oldMarks, newMarks);
    } else {
      NoMarks(input, c);
    }
  }

  lemma NoMarks(input: Input, c: nat)
    requires c < |input.changes| && (input.changes[c].oldLines <= 0 || input.changes[c].newLines <= 0)
    ensures Marks(input, c, Old) == Marks(input, c, New) == []
  {
  }

  lemma MarksMoved(input: Input, c: nat, marks: seq<Mark>, oldMarks: seq<(int, int)>, newMarks: seq<(int, int)>)
    requires c < |input.changes|
    requires var ch := input.changes[c];
      && ch.oldLines > 0 && ch.newLines > 0 && ch.oldStart >= 0 && ch.newStart >= 0
      && ch.oldStart + ch.oldLines <= |input.oldLines| && ch.newStart + ch.newLines <= |input.newLines|
      && marks == input.differ(Join(Texts(input.oldLines[ch.oldStart..ch.oldStart + ch.oldLines])),
        Join(Texts(input.newLines[ch.newStart..ch.newStart + ch.newLines])))
      && |oldMarks| == |newMarks| == |marks|
      && (forall k :: 0 <= k < |marks| ==> oldMarks[k] == (input.oldLines[ch.oldStart].from + marks[k].fromA,
        input.oldLines[ch.oldStart].from + marks[k].toA))
      && forall k :: 0 <= k < |marks| ==> newMarks[k] == (input.newLines[ch.newStart].from + marks[k].fromB,
        input.newLines[ch.newStart].from + marks[k].toB)
    ensures oldMarks == Marks(input, c, Old) && newMarks == Marks(input, c, New)
  {
    hide Join, Texts;
  }

  /** The marks of a block, moved to where its two sides stand in their files. */
  method MoveMarks(marks: seq<Mark>, oldFrom: nat, newFrom: nat)
    returns (oldMarks: seq<(int, int)>, newMarks: seq<(int, int)>)
    ensures |oldMarks| == |newMarks| == |marks|
    ensures forall k :: 0 <= k < |marks| ==> oldMarks[k] == (oldFrom + marks[k].fromA, oldFrom + marks[k].toA)
    ensures forall k :: 0 <= k < |marks| ==> newMarks[k] == (newFrom + marks[k].fromB, newFrom + marks[k].toB)
  {
    oldMarks, newMarks := [], [];
    for i := 0 to |marks|
      invariant |oldMarks| == |newMarks| == i
      invariant forall k :: 0 <= k < i ==> oldMarks[k] == (oldFrom + marks[k].fromA, oldFrom + marks[k].toA)
      invariant forall k :: 0 <= k < i ==> newMarks[k] == (newFrom + marks[k].fromB, newFrom + marks[k].toB)
    {
      oldMarks := oldMarks + [(oldFrom + marks[i].fromA, oldFrom + marks[i].toA)];
      newMarks := newMarks + [(newFrom + marks[i].fromB, newFrom + marks[i].toB)];
    }
  }

  lemma DeletionPush(input: Input, rows: seq<Row>, c: nat, i: nat, b: nat, at: nat)
    requires Sound(input) && c < |input.changes| && input.changes[c].oldStart <= i < OldEnd(input.changes, c + 1)
    requires i < |input.oldLines|
    requires Column(input, Both, rows, i, b)
    ensures Column(input, Both, rows + [MakeRow(Some(input.oldLines[i]), None, Deletion, Marks(input, c, Old), at)],
      i + 1, b)
  {
    LineNumbers(input);
    DeletionShows(input, Both, c, i, at);
    hide Column, RowShows, Marks, Sound, OldEnd;
    ColumnPush(input, Both, rows, i, b, MakeRow(Some(input.oldLines[i]), None, Deletion, Marks(input, c, Old), at),
      i + 1, b);
  }

  lemma AdditionPush(input: Input, rows: seq<Row>, c: nat, a: nat, j: nat, at: nat)
    requires Sound(input) && c < |input.changes| && input.changes[c].newStart <= j < NewEnd(input.changes, c + 1)
    requires j < |input.newLines|
    requires Column(input, Both, rows, a, j)
    ensures Column(input, Both, rows + [MakeRow(None, Some(input.newLines[j]), Addition, Marks(input, c, New), at)], a,
      j + 1)
  {
    LineNumbers(input);
    AdditionShows(input, Both, c, j, at);
    hide Column, RowShows, Marks, Sound, NewEnd;
    ColumnPush(input, Both, rows, a, j, MakeRow(None, Some(input.newLines[j]), Addition, Marks(input, c, New), at), a,
      j + 1);
  }

  lemma DrawnUnified(input: Input, unified: seq<Row>, left: seq<Row>, right: seq<Row>, a: int, b: int)
    ensures Drawn(input, false, unified, left, right, a, b) <==>
      left == [] && right == [] && Column(input, Both, unified, a, b)
  {
  }

  lemma DrawnPanes(input: Input, unified: seq<Row>, left: seq<Row>, right: seq<Row>, a: int, b: int)
    ensures Drawn(input, true, unified, left, right, a, b) <==>
      unified == [] && Drawn(input, true, [], left, right, a, b)
  {
  }

  /** One change in one column: its removed lines, then its added ones. */
  method AddBlockUnified(input: Input, unified: Projection, c: nat, a: nat, b: nat)
    requires unified.Valid() && Sound(input) && c < |input.changes| && a == input.changes[c].oldStart
    requires b == input.changes[c].newStart
    requires Column(input, Both, unified.rows, a, b)
    modifies unified
    ensures unified.Valid()
    ensures Column(input, Both, unified.rows, OldEnd(input.changes, c + 1), NewEnd(input.changes, c + 1))
  {
    hide *;
    BlockInside(input, c);
    var oldMarks, newMarks := BlockMarks(input, c);
    var a1, b1 := a + input.changes[c].oldLines, b + input.changes[c].newLines;
    for i := a to a1
      invariant unified.Valid() && Column(input, Both, unified.rows, i, b)
    {
      DeletionPush(input, unified.rows, c, i, b, unified.offset);
      unified.Push(Some(input.oldLines[i]), None, Deletion, oldMarks);
    }
    for j := b to b1
      invariant unified.Valid() && Column(input, Both, unified.rows, a1, j)
    {
      AdditionPush(input, unified.rows, c, a1, j, unified.offset);
      unified.Push(None, Some(input.newLines[j]), Addition, newMarks);
    }
  }

  function Least(x: nat, y: nat): nat {
    if x < y then x else y
  }

  /** One change in two panes: removed and added lines beside each other, the shorter side filled with blanks. */
  method AddBlockSplit(input: Input, left: Projection, right: Projection, c: nat, a: nat, b: nat)
    requires left != right && left.Valid() && right.Valid()
    requires Sound(input) && c < |input.changes| && a == input.changes[c].oldStart && b == input.changes[c].newStart
    requires Drawn(input, true, [], left.rows, right.rows, a, b)
    modifies left, right
    ensures left.Valid() && right.Valid()
    ensures Drawn(input, true, [], left.rows, right.rows, OldEnd(input.changes, c + 1), NewEnd(input.changes, c + 1))
  {
    hide *;
    BlockInside(input, c);
    var oldMarks, newMarks := BlockMarks(input, c);
    var removed, added := input.changes[c].oldLines, input.changes[c].newLines;
    DrawnSplit(input, left.rows, right.rows, a, b, removed, added);
    for i := 0 to if removed < added then added else removed
      invariant left.Valid() && right.Valid() && Aligned(left.rows, right.rows)
      invariant Column(input, OldOnly, left.rows, a + Least(i, removed), b + Least(i, added))
      invariant Column(input, NewOnly, right.rows, a + Least(i, removed), b + Least(i, added))
    {
      PushPair(input, left, right, c, i, a, b, removed, added, oldMarks, newMarks);
    }
    SplitDrawn(input, c, left.rows, right.rows);
  }

  lemma BlockInside(input: Input, c: nat)
    requires Sound(input) && c < |input.changes|
    ensures var ch := input.changes[c];
            && ch.oldStart >= 0 && ch.oldLines >= 0 && ch.newStart >= 0 && ch.newLines >= 0
            && ch.oldStart + ch.oldLines == OldEnd(input.changes, c + 1) <= |input.oldLines|
            && ch.newStart + ch.newLines == NewEnd(input.changes, c + 1) <= |input.newLines|
  {
    assert ChangeFits(input.changes, c, |input.oldLines|, |input.newLines|);
  }

  lemma DrawnSplit(input: Input, left: seq<Row>, right: seq<Row>, a: int, b: int, removed: nat, added: nat)
    requires Drawn(input, true, [], left, right, a, b)
    ensures Aligned(left, right)
    ensures Column(input, OldOnly, left, a + Least(0, removed), b + Least(0, added))
    ensures Column(input, NewOnly, right, a + Least(0, removed), b + Least(0, added))
  {
  }

  lemma SplitDrawn(input: Input, c: nat, left: seq<Row>, right: seq<Row>)
    requires Sound(input) && c < |input.changes| && Aligned(left, right)
    requires var ch := input.changes[c];
             && ch.oldLines >= 0 && ch.newLines >= 0
             && var n := if ch.oldLines < ch.newLines then ch.newLines else ch.oldLines;
             && Column(input, OldOnly, left, ch.oldStart + Least(n, ch.oldLines), ch.newStart + Least(n, ch.newLines))
             && Column(input, NewOnly, right, ch.oldStart + Least(n, ch.oldLines), ch.newStart + Least(n, ch.newLines))
    ensures Drawn(input, true, [], left, right, OldEnd(input.changes, c + 1), NewEnd(input.changes, c + 1))
  {
    hide Column, Aligned;
  }

  /** The two rows of one line of a changed block. */
  ghost predicate PairOf(input: Input, c: nat, i: nat, left: Row, right: Row, removed: nat, added: nat)
    requires c < |input.changes| && removed == input.changes[c].oldLines && added == input.changes[c].newLines
  {
    && RowShows(input, OldOnly, left) && RowShows(input, NewOnly, right) && Level(left, right)
    && left.oldLine == (if i < removed then Some(input.changes[c].oldStart + i + 1) else None)
    && right.newLine == (if i < added then Some(input.changes[c].newStart + i + 1) else None)
  }

  lemma LeftShows(input: Input, c: nat, i: nat, x: Option<Line>, at: nat)
    requires Sound(input) && c < |input.changes| && input.changes[c].oldStart >= 0
    requires OldEnd(input.changes, c + 1) <= |input.oldLines|
    requires x == if i < input.changes[c].oldLines then Some(input.oldLines[input.changes[c].oldStart + i]) else None
    ensures var row := MakeRow(x, None, if i < input.changes[c].oldLines then Deletion else Blank, Marks(input, c, Old),
      at);
            && RowShows(input, OldOnly, row)
            && row.oldLine == if i < input.changes[c].oldLines then Some(input.changes[c].oldStart + i + 1) else None
  {
    LineNumbers(input);
    hide RowShows, Marks, Sound, Clip;
    if i < input.changes[c].oldLines {
      DeletionShows(input, OldOnly, c, input.changes[c].oldStart + i, at);
    } else {
      BlankShows(input, OldOnly, Marks(input, c, Old), at);
    }
  }

  lemma RightShows(input: Input, c: nat, i: nat, y: Option<Line>, at: nat)
    requires Sound(input) && c < |input.changes| && input.changes[c].newStart >= 0
    requires NewEnd(input.changes, c + 1) <= |input.newLines|
    requires y == if i < input.changes[c].newLines then Some(input.newLines[input.changes[c].newStart + i]) else None
    ensures var row := MakeRow(None, y, if i < input.changes[c].newLines then Addition else Blank, Marks(input, c, New),
      at);
            && RowShows(input, NewOnly, row)
            && row.newLine == if i < input.changes[c].newLines then Some(input.changes[c].newStart + i + 1) else None
  {
    LineNumbers(input);
    hide RowShows, Marks, Sound, Clip;
    if i < input.changes[c].newLines {
      AdditionShows(input, NewOnly, c, input.changes[c].newStart + i, at);
    } else {
      BlankShows(input, NewOnly, Marks(input, c, New), at);
    }
  }

  lemma PairShows(input: Input, c: nat, i: nat, removed: nat, added: nat, x: Option<Line>, y: Option<Line>, atLeft: nat,
      atRight: nat)
    requires Sound(input) && c < |input.changes| && removed == input.changes[c].oldLines
    requires added == input.changes[c].newLines
    requires input.changes[c].oldStart >= 0 && input.changes[c].newStart >= 0
    requires OldEnd(input.changes, c + 1) <= |input.oldLines| && NewEnd(input.changes, c + 1) <= |input.newLines|
    requires x == if i < removed then Some(input.oldLines[input.changes[c].oldStart + i]) else None
    requires y == if i < added then Some(input.newLines[input.changes[c].newStart + i]) else None
    ensures PairOf(input, c, i, MakeRow(x, None, if i < removed then Deletion else Blank, Marks(input, c, Old), atLeft),
                   MakeRow(None, y, if i < added then Addition else Blank, Marks(input, c, New), atRight), removed,
                     added)
  {
    hide RowShows, Marks, Sound, Clip, Column;
    LeftShows(input, c, i, x, atLeft);
    RightShows(input, c, i, y, atRight);
  }

  lemma PairPush(input: Input, c: nat, i: nat, left: seq<Row>, right: seq<Row>, x: Row, y: Row, removed: nat,
      added: nat)
    requires c < |input.changes| && removed == input.changes[c].oldLines && added == input.changes[c].newLines
    requires PairOf(input, c, i, x, y, removed, added) && Aligned(left, right)
    requires var a, b := input.changes[c].oldStart, input.changes[c].newStart;
             && a >= 0 && b >= 0
             && Column(input, OldOnly, left, a + Least(i, removed), b + Least(i, added))
             && Column(input, NewOnly, right, a + Least(i, removed), b + Least(i, added))
    ensures var a, b := input.changes[c].oldStart, input.changes[c].newStart;
            && Aligned(left + [x], right + [y])
            && Column(input, OldOnly, left + [x], a + Least(i + 1, removed), b + Least(i + 1, added))
            && Column(input, NewOnly, right + [y], a + Least(i + 1, removed), b + Least(i + 1, added))
  {
    hide RowShows, Column, Aligned, Level;
    var a, b := input.changes[c].oldStart, input.changes[c].newStart;
    ColumnPush(input, OldOnly, left, a + Least(i, removed), b + Least(i, added), x, a + Least(i + 1, removed),
      b + Least(i + 1, added));
    ColumnPush(input, NewOnly, right, a + Least(i, removed), b + Least(i, added), y, a + Least(i + 1, removed),
      b + Least(i + 1, added));
    AlignedPush(left, right, x, y);
  }

  method PushPair(input: Input, left: Projection, right: Projection, ghost c: nat, i: nat, a: nat, b: nat, removed: nat,
      added: nat,
                  oldMarks: seq<(int, int)>, newMarks: seq<(int, int)>)
    requires left != right && left.Valid() && right.Valid() && Aligned(left.rows, right.rows)
    requires Sound(input) && c < |input.changes| && a == input.changes[c].oldStart && b == input.changes[c].newStart
    requires removed == input.changes[c].oldLines && added == input.changes[c].newLines
    requires oldMarks == Marks(input, c, Old) && newMarks == Marks(input, c, New)
    requires Column(input, OldOnly, left.rows, a + Least(i, removed), b + Least(i, added))
    requires Column(input, NewOnly, right.rows, a + Least(i, removed), b + Least(i, added))
    modifies left, right
    ensures left.Valid() && right.Valid() && Aligned(left.rows, right.rows)
    ensures Column(input, OldOnly, left.rows, a + Least(i + 1, removed), b + Least(i + 1, added))
    ensures Column(input, NewOnly, right.rows, a + Least(i + 1, removed), b + Least(i + 1, added))
  {
    hide *;
    BlockInside(input, c);
    var x, y := if i < removed then Some(input.oldLines[a + i]) else None, if i < added then Some(input.newLines[b + i])
      else None;
    var kindLeft, kindRight := if i < removed then Deletion else Blank, if i < added then Addition else Blank;
    PairShows(input, c, i, removed, added, x, y, left.offset, right.offset);
    PairPush(input, c, i, left.rows, right.rows, MakeRow(x, None, kindLeft, oldMarks, left.offset),
      MakeRow(None, y, kindRight, newMarks, right.offset), removed, added);
    left.Push(x, None, kindLeft, oldMarks);
    right.Push(None, y, kindRight, newMarks);
  }

  function RowTexts(rows: seq<Row>): seq<string> {
    seq(|rows|, k requires 0 <= k < |rows| => rows[k].text)
  }

  datatype View = Unified(rows: Projection) | Panes(before: Projection, after: Projection)

  /** reviewProjection: rows for exactly the lines of both texts, or an error when the report does not match them. */
  method Review(before: string, after: string, diff: Option<seq<Change>>, differ: Differ, split: bool)
    returns (r: Result<View>, input: Input)
    ensures LinesOf(before, input.oldLines) && LinesOf(after, input.newLines) && input.differ == differ
    ensures diff.Some? ==> input.changes == diff.value
    ensures r.Success? <==> diff.Some? && Fits(diff.value, |input.oldLines|, |input.newLines|) && ContextAgrees(input)
    ensures r.Success? && !split ==>
              && r.value.Unified? && r.value.rows.Valid() && r.value.rows.text == Join(RowTexts(r.value.rows.rows))
              && Column(input, Both, r.value.rows.rows, |input.oldLines|, |input.newLines|)
    ensures r.Success? && split ==>
              && r.value.Panes? && r.value.before.Valid() && r.value.after.Valid()
              && r.value.before.text == Join(RowTexts(r.value.before.rows))
                && r.value.after.text == Join(RowTexts(r.value.after.rows))
              && Column(input, OldOnly, r.value.before.rows, |input.oldLines|, |input.newLines|)
              && Column(input, NewOnly, r.value.after.rows, |input.oldLines|, |input.newLines|)
              && Aligned(r.value.before.rows, r.value.after.rows)
  {
    hide *;
    var oldLines := SourceLines(before);
    var newLines := SourceLines(after);
    var given := Input(oldLines, newLines, if diff.Some? then diff.value else [], differ);
    input := given;
    if diff.None? {
      return Refused("exact Git diff is unavailable"), input;
    }
    var fits := CheckRanges(given.changes, |oldLines|, |newLines|);
    if !fits {
      return Refused("Git diff ranges do not match the file contents"), input;
    }
    InputSound(before, after, given);
    var unified := new Projection();
    var left := new Projection();
    var right := new Projection();
    var ok := Draw(given, split, unified, left, right);
    if !ok {
      return Refused("Git diff context does not match the file contents"), input;
    }
    Shown(given, split, unified.rows, left.rows, right.rows);
    if split {
      left.JoinText();
      right.JoinText();
      r := Success(Panes(left, right));
    } else {
      unified.JoinText();
      r := Success(Unified(unified));
    }
  }

  lemma InputSound(before: string, after: string, input: Input)
    requires LinesOf(before, input.oldLines) && LinesOf(after, input.newLines)
    requires Fits(input.changes, |input.oldLines|, |input.newLines|)
    ensures Sound(input)
  {
    hide Fits, Join, Numbered;
  }

  lemma Shown(input: Input, split: bool, unified: seq<Row>, left: seq<Row>, right: seq<Row>)
    requires Drawn(input, split, unified, left, right, |input.oldLines|, |input.newLines|)
    ensures !split ==> Column(input, Both, unified, |input.oldLines|, |input.newLines|)
    ensures split ==>
              && Column(input, OldOnly, left, |input.oldLines|, |input.newLines|)
              && Column(input, NewOnly, right, |input.oldLines|, |input.newLines|) && Aligned(left, right)
  {
    hide Column, Aligned;
  }

  method Draw(input: Input, split: bool, unified: Projection, left: Projection, right: Projection) returns (ok: bool)
    requires unified != left && unified != right && left != right && unified.Valid() && left.Valid() && right.Valid()
    requires unified.rows == [] && left.rows == [] && right.rows == [] && Sound(input)
    modifies unified, left, right
    ensures unified.Valid() && left.Valid() && right.Valid()
    ensures ok <==> ContextAgrees(input)
    ensures ok ==> Drawn(input, split, unified.rows, left.rows, right.rows, |input.oldLines|, |input.newLines|)
  {
    hide *;
    var a, b := 0, 0;
    NothingDrawn(input, split, unified.rows, left.rows, right.rows);
    for c := 0 to |input.changes|
      invariant a == OldEnd(input.changes, c) && b == NewEnd(input.changes, c)
      invariant unified.Valid() && left.Valid() && right.Valid()
      invariant Drawn(input, split, unified.rows, left.rows, right.rows, a, b)
      invariant forall k :: 0 <= k < c ==> StretchAgrees(input, k, StretchEnd(input.changes, k, |input.oldLines|))
    {
      var ch := input.changes[c];
      BlockInside(input, c);
      NextStretch(input, c);
      ok := AddStretch(input, split, unified, left, right, c, a, b, ch.oldStart);
      if !ok {
        Disagrees(input, c);
        return;
      }
      AddBlock(input, split, unified, left, right, c);
      a, b := ch.oldStart + ch.oldLines, ch.newStart + ch.newLines;
    }
    NextStretch(input, |input.changes|);
    ok := AddStretch(input, split, unified, left, right, |input.changes|, a, b, |input.oldLines|);
    if ok {
      Agrees(input);
    } else {
      Disagrees(input, |input.changes|);
    }
  }

  lemma NothingDrawn(input: Input, split: bool, unified: seq<Row>, left: seq<Row>, right: seq<Row>)
    requires unified == [] && left == [] && right == []
    ensures OldEnd(input.changes, 0) == 0 && NewEnd(input.changes, 0) == 0
    ensures Drawn(input, split, unified, left, right, 0, 0)
  {
  }

  lemma NextStretch(input: Input, c: nat)
    requires Sound(input) && c <= |input.changes|
    ensures OldEnd(input.changes, c) >= 0 && NewEnd(input.changes, c) >= 0
    ensures StretchEnd(input.changes, c, |input.oldLines|) == if c < |input.changes| then input.changes[c].oldStart
      else |input.oldLines|
    ensures NewEnd(input.changes, c) + StretchEnd(input.changes, c, |input.oldLines|) - OldEnd(input.changes, c)
            == if c < |input.changes| then input.changes[c].newStart else |input.newLines|
  {
    EndsInside(input.changes, |input.oldLines|, |input.newLines|, c);
  }

  method AddBlock(input: Input, split: bool, unified: Projection, left: Projection, right: Projection, c: nat)
    requires unified != left && unified != right && left != right && unified.Valid() && left.Valid() && right.Valid()
    requires Sound(input) && c < |input.changes| && input.changes[c].oldStart >= 0 && input.changes[c].newStart >= 0
    requires Drawn(input, split, unified.rows, left.rows, right.rows, input.changes[c].oldStart,
      input.changes[c].newStart)
    modifies unified, left, right
    ensures unified.Valid() && left.Valid() && right.Valid()
    ensures OldEnd(input.changes, c + 1) >= 0 && NewEnd(input.changes, c + 1) >= 0
    ensures Drawn(input, split, unified.rows, left.rows, right.rows, OldEnd(input.changes, c + 1),
      NewEnd(input.changes, c + 1))
  {
    hide *;
    BlockInside(input, c);
    var a, b := input.changes[c].oldStart, input.changes[c].newStart;
    if split {
      DrawnPanes(input, unified.rows, left.rows, right.rows, a, b);
      AddBlockSplit(input, left, right, c, a, b);
      DrawnPanes(input, unified.rows, left.rows, right.rows, OldEnd(input.changes, c + 1),
        NewEnd(input.changes, c + 1));
    } else {
      DrawnUnified(input, unified.rows, left.rows, right.rows, a, b);
      AddBlockUnified(input, unified, c, a, b);
      DrawnUnified(input, unified.rows, left.rows, right.rows, OldEnd(input.changes, c + 1),
        NewEnd(input.changes, c + 1));
    }
  }

  lemma Disagrees(input: Input, c: nat)
    requires c <= |input.changes| && !StretchAgrees(input, c, StretchEnd(input.changes, c, |input.oldLines|))
    ensures !ContextAgrees(input)
  {
    var i :| OldEnd(input.changes, c) <= i < StretchEnd(input.changes, c, |input.oldLines|) && !AgreesAt(input, c, i);
    assert Unchanged(input.changes, c, |input.oldLines|, i);
  }

  lemma Agrees(input: Input)
    requires forall k :: 0 <= k <= |input.changes| ==>
      StretchAgrees(input, k, StretchEnd(input.changes, k, |input.oldLines|))
    ensures ContextAgrees(input)
  {
    forall c, i | 0 <= c <= |input.changes| && Unchanged(input.changes, c, |input.oldLines|, i)
      ensures AgreesAt(input, c, i)
    {
      assert StretchAgrees(input, c, StretchEnd(input.changes, c, |input.oldLines|));
    }
  }
}
