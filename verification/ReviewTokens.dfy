/**
 Token projection (projectTokens in portal/review-ui/editor-model.js): syntax tokens
 of the two complete files are clipped to the rows that show them. The editor walks
 rows and tokens with one cursor per file; the plain form meets every row with every
 token of its side.
 */
module ReviewTokens {
  import opened Wrappers
  import opened ReviewLines
  import opened ReviewProjection
  import opened ReviewMeaning

  datatype Token = Token(from: nat, to: nat, style: nat)

  /** The side a row takes its tokens from: new unless it shows only an old line. */
  function SideOf(row: Row): Option<Side> {
    if row.newLine.Some? then Some(New) else if row.oldLine.Some? then Some(Old) else None
  }

  function SourceFrom(row: Row): nat {
    var from := if row.newLine.Some? then row.newFrom else row.oldFrom;
    if from.Some? then from.value else 0
  }

  function SourceTo(row: Row): nat {
    SourceFrom(row) + |row.text|
  }

  // ---------------------------------------------------------------- the plain form

  /** The part of a token inside a row, if any. */
  function Hit(row: Row, token: Token): seq<(int, int, nat)> {
    var lo := if token.from > SourceFrom(row) then token.from else SourceFrom(row);
    var hi := if token.to < SourceTo(row) then token.to else SourceTo(row);
    if hi > lo then [(row.from + lo - SourceFrom(row), row.from + hi - SourceFrom(row), token.style)] else []
  }

  function Hits(row: Row, tokens: seq<Token>): seq<(int, int, nat)> {
    if tokens == [] then [] else Hits(row, tokens[..|tokens| - 1]) + Hit(row, tokens[|tokens| - 1])
  }

  function RowHits(row: Row, oldTokens: seq<Token>, newTokens: seq<Token>): seq<(int, int, nat)> {
    match SideOf(row)
    case None => []
    case Some(side) => Hits(row, if side.Old? then oldTokens else newTokens)
  }

  /** Every row met with every token of its side. */
  function AllHits(rows: seq<Row>, oldTokens: seq<Token>, newTokens: seq<Token>): seq<(int, int, nat)> {
    if rows == [] then []
    else AllHits(rows[..|rows| - 1], oldTokens, newTokens) + RowHits(rows[|rows| - 1], oldTokens, newTokens)
  }

  // ---------------------------------------------------------------- the two cursors

  ghost predicate SortedTokens(tokens: seq<Token>) {
    && (forall k :: 0 <= k < |tokens| ==> tokens[k].from <= tokens[k].to)
    && forall i, k :: 0 <= i < k < |tokens| ==> tokens[i].to <= tokens[k].from
  }

  /** Rows of one side show source ranges that follow each other. */
  ghost predicate SortedRows(rows: seq<Row>) {
    forall i, k :: 0 <= i < k < |rows| && SideOf(rows[i]).Some? && SideOf(rows[i]) == SideOf(rows[k]) ==>
      SourceTo(rows[i]) <= SourceFrom(rows[k])
  }

  /** Tokens before the cursor end before every row of the side that is still to come. */
  ghost predicate Passed(rows: seq<Row>, n: nat, side: Side, tokens: seq<Token>, cursor: nat)
    requires n <= |rows|
  {
    && cursor <= |tokens|
    && forall k, t :: n <= k < |rows| && SideOf(rows[k]) == Some(side) && 0 <= t < cursor ==>
      tokens[t].to <= SourceFrom(rows[k])
  }

  lemma HitsAppend(row: Row, tokens: seq<Token>, i: nat)
    requires i < |tokens|
    ensures Hits(row, tokens[..i + 1]) == Hits(row, tokens[..i]) + Hit(row, tokens[i])
  {
    assert tokens[..i + 1][..i] == tokens[..i];
  }

  /** Tokens that end before the row begins do not meet it. */
  lemma {:induction false} EarlierMiss(row: Row, tokens: seq<Token>, i: nat)
    requires i <= |tokens| && forall t :: 0 <= t < i ==> tokens[t].to <= SourceFrom(row)
    ensures Hits(row, tokens[..i]) == []
    decreases i
  {
    if i > 0 {
      EarlierMiss(row, tokens, i - 1);
      HitsAppend(row, tokens, i - 1);
    }
  }

  /** Tokens that begin after the row ends do not meet it. */
  lemma {:induction false} LaterMiss(row: Row, tokens: seq<Token>, i: nat)
    requires i <= |tokens| && forall t :: i <= t < |tokens| ==> tokens[t].from >= SourceTo(row)
    ensures Hits(row, tokens) == Hits(row, tokens[..i])
    decreases |tokens| - i
  {
    if i < |tokens| {
      LaterMiss(row, tokens, i + 1);
      HitsAppend(row, tokens, i);
      assert Hit(row, tokens[i]) == [];
    } else {
      assert tokens[..i] == tokens;
    }
  }

  /** Nothing after a token that reaches past the row meets the row. */
  lemma SpanningEnds(row: Row, tokens: seq<Token>, i: nat)
    requires SortedTokens(tokens) && i < |tokens| && tokens[i].to > SourceTo(row)
    ensures Hits(row, tokens) == Hits(row, tokens[..i + 1])
  {
    LaterMiss(row, tokens, i + 1);
  }

  lemma RestMisses(row: Row, tokens: seq<Token>, i: nat)
    requires SortedTokens(tokens) && i <= |tokens| && (i < |tokens| ==> tokens[i].from >= SourceTo(row))
    ensures Hits(row, tokens) == Hits(row, tokens[..i])
  {
    LaterMiss(row, tokens, i);
  }

  /** The inner loop, from the first token that ends inside or after the row. */
  method CollectHits(row: Row, tokens: seq<Token>, start: nat) returns (hits: seq<(int, int, nat)>, after: nat)
    requires SortedTokens(tokens) && start <= |tokens| && forall t :: 0 <= t < start ==> tokens[t].to <= SourceFrom(row)
    ensures hits == Hits(row, tokens)
    ensures start <= after <= |tokens| && forall t :: 0 <= t < after ==> tokens[t].to <= SourceTo(row)
  {
    hide *;
    EarlierMiss(row, tokens, start);
    var sourceFrom, sourceTo := SourceFrom(row), SourceTo(row);
    hits, after := [], start;
    while after < |tokens| && tokens[after].from < sourceTo
      invariant start <= after <= |tokens| && hits == Hits(row, tokens[..after])
      invariant forall t :: 0 <= t < start ==> tokens[t].to <= sourceFrom
      invariant forall t :: start <= t < after ==> tokens[t].to <= sourceTo
    {
      var token := tokens[after];
      HitsAppend(row, tokens, after);
      var lo, hi := if token.from > sourceFrom then token.from else sourceFrom, if token.to < sourceTo then token.to
        else sourceTo;
      HitIs(row, token, lo, hi);
      if hi > lo {
        hits := hits + [(row.from + lo - sourceFrom, row.from + hi - sourceFrom, token.style)];
      }
      if token.to > sourceTo {
        SpanningEnds(row, tokens, after);
        RowForward(row);
        return;
      }
      after := after + 1;
    }
    RestMisses(row, tokens, after);
    RowForward(row);
  }

  lemma RowForward(row: Row)
    ensures SourceFrom(row) <= SourceTo(row)
  {
  }

  lemma HitIs(row: Row, token: Token, lo: nat, hi: nat)
    requires lo == if token.from > SourceFrom(row) then token.from else SourceFrom(row)
    requires hi == if token.to < SourceTo(row) then token.to else SourceTo(row)
    ensures Hit(row, token) == if hi > lo then [(row.from + lo - SourceFrom(row), row.from + hi - SourceFrom(row),
      token.style)] else []
  {
  }

  /** One turn of the outer loop on the tokens of the row's side. */
  method ProjectRow(row: Row, tokens: seq<Token>, cursor: nat) returns (hits: seq<(int, int, nat)>, after: nat)
    requires SortedTokens(tokens) && cursor <= |tokens|
    requires forall t :: 0 <= t < cursor ==> tokens[t].to <= SourceFrom(row)
    ensures hits == Hits(row, tokens)
    ensures cursor <= after <= |tokens| && forall t :: 0 <= t < after ==> tokens[t].to <= SourceTo(row)
  {
    hide *;
    var i := cursor;
    while i < |tokens| && tokens[i].to <= SourceFrom(row)
      invariant cursor <= i <= |tokens| && forall t :: 0 <= t < i ==> tokens[t].to <= SourceFrom(row)
    {
      i := i + 1;
    }
    hits, after := CollectHits(row, tokens, i);
  }

  lemma StillPassed(rows: seq<Row>, n: nat, side: Side, tokens: seq<Token>, cursor: nat)
    requires n < |rows| && SortedRows(rows) && SideOf(rows[n]) == Some(side) && cursor <= |tokens|
    requires forall t :: 0 <= t < cursor ==> tokens[t].to <= SourceTo(rows[n])
    ensures Passed(rows, n + 1, side, tokens, cursor)
  {
    forall k, t | n + 1 <= k < |rows| && SideOf(rows[k]) == Some(side) && 0 <= t < cursor
      ensures tokens[t].to <= SourceFrom(rows[k])
    {
      assert SourceTo(rows[n]) <= SourceFrom(rows[k]);
    }
  }

  /** The two-cursor walk gives the plain form, also for tokens that span many rows. */
  method ProjectTokens(rows: seq<Row>, oldTokens: seq<Token>, newTokens: seq<Token>)
    returns (output: seq<(int, int, nat)>)
    requires SortedTokens(oldTokens) && SortedTokens(newTokens) && SortedRows(rows)
    ensures output == AllHits(rows, oldTokens, newTokens)
  {
    hide Hits, SortedRows, SourceTo, SourceFrom;
    output := [];
    var oldCursor, newCursor := 0, 0;
    for n := 0 to |rows|
      invariant output == AllHits(rows[..n], oldTokens, newTokens)
      invariant Passed(rows, n, Old, oldTokens, oldCursor) && Passed(rows, n, New, newTokens, newCursor)
    {
      assert rows[..n + 1][..n] == rows[..n];
      var row := rows[n];
      if row.oldLine.Some? || row.newLine.Some? {
        var hits;
        if row.newLine.None? {
          hits, oldCursor := ProjectRow(row, oldTokens, oldCursor);
          StillPassed(rows, n, Old, oldTokens, oldCursor);
        } else {
          hits, newCursor := ProjectRow(row, newTokens, newCursor);
          StillPassed(rows, n, New, newTokens, newCursor);
        }
        output := output + hits;
      }
    }
    assert rows[..|rows|] == rows;
  }

  /** The rows of every projection are sorted as the walk needs them. */
  lemma ProjectionRowsSorted(input: Input, pane: Pane, rows: seq<Row>)
    requires Numbered(input.oldLines) && Numbered(input.newLines)
    requires Column(input, pane, rows, |input.oldLines|, |input.newLines|)
    ensures SortedRows(rows)
  {
    hide Column, RowShows, Numbered, SourceTo, SourceFrom;
    forall i, k | 0 <= i < k < |rows| && SideOf(rows[i]).Some? && SideOf(rows[i]) == SideOf(rows[k])
      ensures SourceTo(rows[i]) <= SourceFrom(rows[k])
    {
      SideRowsFollow(input, pane, rows, SideOf(rows[i]).value, i, k);
    }
  }

  lemma {:induction false} SideRowsFollow(input: Input, pane: Pane, rows: seq<Row>, side: Side, i: nat, k: nat)
    requires Numbered(input.oldLines) && Numbered(input.newLines)
    requires Column(input, pane, rows, |input.oldLines|, |input.newLines|)
    requires i < k < |rows| && SideOf(rows[i]) == SideOf(rows[k]) == Some(side)
    ensures SourceTo(rows[i]) <= SourceFrom(rows[k])
  {
    hide RowShows, Numbered, Upto, Numbers;
    var lines := if side.Old? then input.oldLines else input.newLines;
    RowText(input, pane, rows[i], side);
    RowText(input, pane, rows[k], side);
    OneSided(input, pane, rows[i]);
    NumbersGrow(rows, side, |lines|, i, k);
    LinesApart(lines, NumberOn(rows[i], side).value - 1, NumberOn(rows[k], side).value - 1);
  }
}
