/**
 Context folding (contextRegions in portal/review-ui/editor-model.js): which runs of
 unchanged rows a projection hides.
 */
module ReviewFolding {
  import opened Wrappers
  import opened ReviewProjection

  datatype Region = Region(from: nat, to: nat, lines: nat, first: nat, last: nat)

  /** End of the run of context rows that contains place `start`. */
  function RunEnd(rows: seq<Row>, start: nat): (end: nat)
    requires start <= |rows|
    ensures start <= end <= |rows|
    ensures forall k :: start <= k < end ==> rows[k].kind.Context?
    ensures end == |rows| || !rows[end].kind.Context?
    decreases |rows| - start
  {
    if start == |rows| || !rows[start].kind.Context? then start else RunEnd(rows, start + 1)
  }

  function First(start: nat, margin: nat): nat {
    if start > 0 then start + margin else 0
  }

  function Last(rows: seq<Row>, end: nat, margin: nat): int {
    if end < |rows| then end - margin else end
  }

  /** Where hiding the rows from `first` up to `last` ends in the text. */
  function HiddenEnd(rows: seq<Row>, last: nat): nat
    requires 0 < last <= |rows|
  {
    if last < |rows| then rows[last].from else rows[last - 1].from + |rows[last - 1].text|
  }

  function Fold(rows: seq<Row>, start: nat, end: nat, margin: nat, minimum: nat): seq<Region>
    requires start < end <= |rows| && minimum > 0
  {
    var first, last := First(start, margin), Last(rows, end, margin);
    if last - first < minimum then []
    else
      var from, to := rows[first].from, HiddenEnd(rows, last);
      if to > from then [Region(from, to, last - first, first, last)] else []
  }

  /** The regions of the runs from `start` on. */
  function Folds(rows: seq<Row>, start: nat, margin: nat, minimum: nat): seq<Region>
    requires start <= |rows| && minimum > 0
    decreases |rows| - start
  {
    if start == |rows| then []
    else if !rows[start].kind.Context? then Folds(rows, start + 1, margin, minimum)
    else Fold(rows, start, RunEnd(rows, start), margin, minimum) + Folds(rows, RunEnd(rows, start), margin, minimum)
  }

  /** One run of context rows, without the margin next to a change. */
  method FoldRun(rows: seq<Row>, start: nat, end: nat, margin: nat, minimum: nat) returns (folded: seq<Region>)
    requires start < end <= |rows| && minimum > 0
    ensures folded == Fold(rows, start, end, margin, minimum)
  {
    folded := [];
    var first, last := start + if start > 0 then margin else 0, end - if end < |rows| then margin else 0;
    if last - first >= minimum {
      var from := rows[first].from;
      var to := if last < |rows| then rows[last].from else rows[last - 1].from + |rows[last - 1].text|;
      if to > from {
        folded := [Region(from, to, last - first, first, last)];
      }
    }
  }

  method ContextRegions(rows: seq<Row>, margin: nat, minimum: nat) returns (regions: seq<Region>)
    requires minimum > 0
    ensures regions == Folds(rows, 0, margin, minimum)
  {
    hide Fold;
    regions := [];
    var start := 0;
    while start < |rows|
      invariant start <= |rows| && regions + Folds(rows, start, margin, minimum) == Folds(rows, 0, margin, minimum)
      decreases |rows| - start
    {
      if !rows[start].kind.Context? {
        start := start + 1;
      } else {
        var end := start + 1;
        while end < |rows| && rows[end].kind.Context?
          invariant start < end <= |rows| && RunEnd(rows, start) == RunEnd(rows, end)
        {
          end := end + 1;
        }
        var folded := FoldRun(rows, start, end, margin, minimum);
        regions := regions + folded;
        start := end;
      }
    }
  }

  // ---------------------------------------------------------------- what is hidden

  /** No changed row stands within the margin of place `h`. */
  ghost predicate Far(rows: seq<Row>, margin: nat, h: int) {
    0 <= h < |rows| && forall k :: 0 <= k < |rows| && !rows[k].kind.Context? ==> k + margin < h || h + margin < k
  }

  /** A region hides at least the minimum of rows, all far from every change, and cannot be extended. */
  ghost predicate HidesFar(rows: seq<Row>, margin: nat, minimum: nat, r: Region) {
    && r.first < r.last <= |rows| && r.lines == r.last - r.first >= minimum
    && r.from == rows[r.first].from && r.to == HiddenEnd(rows, r.last) > r.from
    && (forall h :: r.first <= h < r.last ==> Far(rows, margin, h))
    && !Far(rows, margin, r.first - 1) && !Far(rows, margin, r.last)
  }

  lemma {:induction false} FoldHides(rows: seq<Row>, start: nat, margin: nat, minimum: nat)
    requires start < |rows| && minimum > 0 && rows[start].kind.Context?
    requires (start == 0 || !rows[start - 1].kind.Context?)
    ensures var end := RunEnd(rows, start);
            forall r :: r in Fold(rows, start, end, margin, minimum) ==>
              HidesFar(rows, margin, minimum, r) && start <= r.first && r.last <= end
  {
    var end := RunEnd(rows, start);
    var first, last := First(start, margin), Last(rows, end, margin);
    forall h | first <= h < last ensures Far(rows, margin, h) {
    }
    if start > 0 && last > first {
      assert !Far(rows, margin, first - 1) by {
        assert start - 1 + margin >= first - 1;
      }
    }
    if end < |rows| && last > first {
      assert !Far(rows, margin, last) by {
        assert last + margin >= end;
      }
    }
  }

  /** Regions after `start` hide only rows far from changes, are maximal, and follow each other. */
  ghost predicate Tidy(rows: seq<Row>, start: nat, margin: nat, minimum: nat, regions: seq<Region>) {
    && (forall i :: 0 <= i < |regions| ==> HidesFar(rows, margin, minimum, regions[i]) && start <= regions[i].first)
    && forall i, k :: 0 <= i < k < |regions| ==> regions[i].last < regions[k].first
  }

  lemma {:induction false} RegionsHideFarRows(rows: seq<Row>, start: nat, margin: nat, minimum: nat)
    requires start <= |rows| && minimum > 0
    requires start == 0 || start == |rows| || !rows[start - 1].kind.Context? || !rows[start].kind.Context?
    ensures Tidy(rows, start, margin, minimum, Folds(rows, start, margin, minimum))
    decreases |rows| - start
  {
    hide Far, HidesFar, Fold, Tidy;
    if start == |rows| {
      TidyNothing(rows, start, margin, minimum);
    } else if !rows[start].kind.Context? {
      RegionsHideFarRows(rows, start + 1, margin, minimum);
      TidyEarlier(rows, start, margin, minimum, Folds(rows, start + 1, margin, minimum));
    } else {
      var end := RunEnd(rows, start);
      FoldHides(rows, start, margin, minimum);
      RegionsHideFarRows(rows, end, margin, minimum);
      TidyJoin(rows, start, end, margin, minimum, Folds(rows, end, margin, minimum));
    }
  }

  lemma TidyNothing(rows: seq<Row>, start: nat, margin: nat, minimum: nat)
    ensures Tidy(rows, start, margin, minimum, [])
  {
  }

  lemma TidyEarlier(rows: seq<Row>, start: nat, margin: nat, minimum: nat, regions: seq<Region>)
    requires Tidy(rows, start + 1, margin, minimum, regions)
    ensures Tidy(rows, start, margin, minimum, regions)
  {
    hide HidesFar;
  }

  lemma TidyJoin(rows: seq<Row>, start: nat, end: nat, margin: nat, minimum: nat, rest: seq<Region>)
    requires start < end <= |rows| && minimum > 0 && (end < |rows| ==> !rows[end].kind.Context?)
    requires Tidy(rows, end, margin, minimum, rest)
    requires forall r :: r in Fold(rows, start, end, margin, minimum) ==>
      HidesFar(rows, margin, minimum, r) && start <= r.first && r.last <= end
    ensures Tidy(rows, start, margin, minimum, Fold(rows, start, end, margin, minimum) + rest)
  {
    AfterChange(rows, end, margin, minimum, rest);
    var head := Fold(rows, start, end, margin, minimum);
    assert |head| <= 1;
    assert head != [] ==> head[0] in head;
    hide HidesFar, Fold;
  }

  lemma {:induction false} AfterChange(rows: seq<Row>, end: nat, margin: nat, minimum: nat, rest: seq<Region>)
    requires Tidy(rows, end, margin, minimum, rest) && end <= |rows| && (end < |rows| ==> !rows[end].kind.Context?)
    ensures forall i :: 0 <= i < |rest| ==> end < rest[i].first
  {
    forall i | 0 <= i < |rest| ensures end < rest[i].first {
      assert HidesFar(rows, margin, minimum, rest[i]);
      assert Far(rows, margin, rest[i].first);
    }
  }

  /** Every stretch of at least the minimum of far rows is hidden, unless it has no text at all. */
  lemma {:induction false} LongStretchesAreHidden(rows: seq<Row>, offset: nat, start: nat, margin: nat, minimum: nat,
      i: nat, j: nat)
    requires Chained(rows, offset) && minimum > 0 && start <= i < j <= |rows| && j - i >= minimum
    requires start == 0 || start == |rows| || !rows[start - 1].kind.Context? || !rows[start].kind.Context?
    requires forall h :: i <= h < j ==> Far(rows, margin, h)
    requires j - i > 1 || rows[i].text != "" || j < |rows|
    ensures exists r :: r in Folds(rows, start, margin, minimum) && r.first <= i && j <= r.last
    decreases |rows| - start
  {
    forall h | i <= h < j ensures rows[h].kind.Context? {
      assert Far(rows, margin, h);
    }
    if !rows[start].kind.Context? {
      LongStretchesAreHidden(rows, offset, start + 1, margin, minimum, i, j);
    } else {
      var end := RunEnd(rows, start);
      if end <= i {
        LongStretchesAreHidden(rows, offset, end, margin, minimum, i, j);
      } else {
        assert Far(rows, margin, i) && Far(rows, margin, j - 1);
        assert start == 0 || start - 1 + margin < i;
        assert end == |rows| || j - 1 + margin < end;
        var first, last := First(start, margin), Last(rows, end, margin);
        assert first <= i && j <= last;
        OffsetsGrow(rows, offset, first, last);
        assert Fold(rows, start, end, margin, minimum) == [Region(rows[first].from, HiddenEnd(rows, last), last - first,
          first, last)];
      }
    }
  }

  lemma {:induction false} OffsetsGrow(rows: seq<Row>, offset: nat, first: nat, last: nat)
    requires Chained(rows, offset) && first < last <= |rows|
    ensures HiddenEnd(rows, last) >= rows[first].from
    ensures last - first > 1 || rows[first].text != "" || last < |rows| ==> HiddenEnd(rows, last) > rows[first].from
    decreases last
  {
    if first + 1 < last {
      OffsetsGrow(rows, offset, first, last - 1);
    }
  }

  /** The same rows, whatever their offsets. */
  ghost predicate SameRows(a: seq<Region>, b: seq<Region>) {
    |a| == |b| && forall i :: 0 <= i < |a| ==>
      a[i].first == b[i].first && a[i].last == b[i].last && a[i].lines == b[i].lines
  }

  lemma SameRowsJoin(a: seq<Region>, b: seq<Region>, x: seq<Region>, y: seq<Region>)
    requires SameRows(a, b) && SameRows(x, y)
    ensures SameRows(a + x, b + y)
  {
  }

  /** Both panes fold the same rows. */
  lemma {:induction false} PanesFoldAlike(left: seq<Row>, right: seq<Row>, offsetLeft: nat, offsetRight: nat,
      start: nat, margin: nat, minimum: nat)
    requires Chained(left, offsetLeft) && Chained(right, offsetRight) && Aligned(left, right) && start <= |left|
    requires minimum > 0
    ensures SameRows(Folds(left, start, margin, minimum), Folds(right, start, margin, minimum))
    decreases |left| - start
  {
    hide Fold, Chained;
    if start < |left| {
      assert Level(left[start], right[start]);
      hide Aligned, SameRows;
      if !left[start].kind.Context? {
        PanesFoldAlike(left, right, offsetLeft, offsetRight, start + 1, margin, minimum);
      } else {
        SameRuns(left, right, start);
        var end := RunEnd(left, start);
        PanesFoldAlike(left, right, offsetLeft, offsetRight, end, margin, minimum);
        FoldAlike(left, right, offsetLeft, offsetRight, start, end, margin, minimum);
        SameRowsJoin(Fold(left, start, end, margin, minimum), Fold(right, start, end, margin, minimum),
                     Folds(left, end, margin, minimum), Folds(right, end, margin, minimum));
      }
    }
  }

  lemma {:induction false} SameRuns(left: seq<Row>, right: seq<Row>, start: nat)
    requires Aligned(left, right) && start <= |left|
    ensures RunEnd(left, start) == RunEnd(right, start)
    decreases |left| - start
  {
    if start < |left| {
      assert Level(left[start], right[start]);
      if left[start].kind.Context? {
        SameRuns(left, right, start + 1);
      }
    }
  }

  lemma {:induction false} FoldAlike(left: seq<Row>, right: seq<Row>, offsetLeft: nat, offsetRight: nat, start: nat,
      end: nat, margin: nat, minimum: nat)
    requires Chained(left, offsetLeft) && Chained(right, offsetRight) && Aligned(left, right) && minimum > 0
    requires start < end <= |left| && end == RunEnd(left, start)
    ensures SameRows(Fold(left, start, end, margin, minimum), Fold(right, start, end, margin, minimum))
  {
    var first, last := First(start, margin), Last(left, end, margin);
    if last - first >= minimum {
      OffsetsGrow(left, offsetLeft, first, last);
      OffsetsGrow(right, offsetRight, first, last);
      assert Level(left[first], right[first]);
    }
  }
}
