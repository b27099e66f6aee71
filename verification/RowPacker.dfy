/**
 The sources page of the admin frontend packs articles into grid rows of one kind each: with a
 banner image or without.  Two buffers collect the kinds; a full buffer becomes a row, and what
 is left at the end becomes at most one short row per kind.  A row lists positions in the page's
 item list, so that two equal articles stay two.
 */
module RowPacker {
  import opened Common
  import opened RowBuffers

  datatype Source = Source(id: nat, hasBanner: bool)

  // --- The specification, on item positions ---

  /** Ascending positions of the items of one kind. */
  function PositionsOf(items: seq<Source>, kind: bool): seq<nat> {
    if items == [] then []
    else
      var n := |items| - 1;
      PositionsOf(items[..n], kind) + if items[n].hasBanner == kind then [n] else []
  }

  predicate OfKind(items: seq<Source>, row: seq<nat>, kind: bool) {
    row != [] && forall k :: 0 <= k < |row| ==> row[k] < |items| && items[row[k]].hasBanner == kind
  }

  function RowsOfKind(items: seq<Source>, rows: seq<seq<nat>>, kind: bool): seq<seq<nat>> {
    if rows == [] then []
    else
      var last := rows[|rows| - 1];
      RowsOfKind(items, rows[..|rows| - 1], kind) + if OfKind(items, last, kind) then [last] else []
  }

  /** Rows of one kind each, complete, in the order in which their last items arrive. */
  ghost predicate FullRows(items: seq<Source>, columns: nat, rows: seq<seq<nat>>) {
    && (forall r :: 0 <= r < |rows| ==>
          |rows[r]| == columns && (OfKind(items, rows[r], true) || OfKind(items, rows[r], false)))
    && (forall r, q :: 0 <= r < q < |rows| && |rows[r]| == columns == |rows[q]| > 0 ==>
          rows[r][columns - 1] < rows[q][columns - 1])
  }

  /** At most one short row per kind, the one whose first item came earlier in front. */
  ghost predicate ShortRows(items: seq<Source>, columns: nat, rows: seq<seq<nat>>) {
    && |rows| <= 2
    && (forall r :: 0 <= r < |rows| ==>
          |rows[r]| < columns && (OfKind(items, rows[r], true) || OfKind(items, rows[r], false)))
    && (|rows| == 2 ==> rows[0][0] < rows[1][0] && exists kind :: OfKind(items, rows[0], kind) && OfKind(items, rows[1], !kind))
  }

  /** The packing: full rows, then short rows, and each kind's rows spell out its items in input order. */
  ghost predicate Packed(items: seq<Source>, columns: nat, full: seq<seq<nat>>, short: seq<seq<nat>>) {
    && FullRows(items, columns, full)
    && ShortRows(items, columns, short)
    && forall kind :: Flatten(RowsOfKind(items, full + short, kind)) == PositionsOf(items, kind)
  }

  // --- Invariant of the pass over the items ---

  /** What one kind's rows and buffer hold after `n` items. */
  ghost predicate KindHolds(items: seq<Source>, n: nat, rows: seq<seq<nat>>, buffer: seq<nat>, kind: bool)
    requires n <= |items|
  {
    && Flatten(RowsOfKind(items, rows, kind)) + buffer == PositionsOf(items[..n], kind)
    && (buffer != [] ==> OfKind(items, buffer, kind))
    && (forall k :: 0 <= k < |buffer| ==> buffer[k] < n)
  }

  ghost predicate PassHolds(items: seq<Source>, n: nat, columns: nat, rows: seq<seq<nat>>,
                            withBanner: seq<nat>, without: seq<nat>)
    requires n <= |items|
  {
    && |withBanner| < columns && |without| < columns
    && FullRows(items, columns, rows)
    && Below(rows, n)
    && KindHolds(items, n, rows, withBanner, true)
    && KindHolds(items, n, rows, without, false)
  }

  lemma RowsOfKindAppend(items: seq<Source>, rows: seq<seq<nat>>, row: seq<nat>, kind: bool)
    ensures RowsOfKind(items, rows + [row], kind)
         == RowsOfKind(items, rows, kind) + if OfKind(items, row, kind) then [row] else []
  {
    assert (rows + [row])[..|rows|] == rows;
  }

  lemma AppendRowKeepsOther(items: seq<Source>, n: nat, rows: seq<seq<nat>>, row: seq<nat>, buffer: seq<nat>, kind: bool)
    requires n <= |items| && KindHolds(items, n, rows, buffer, kind) && OfKind(items, row, !kind)
    ensures KindHolds(items, n, rows + [row], buffer, kind)
  {
    RowsOfKindAppend(items, rows, row, kind);
    assert items[row[0]].hasBanner == !kind;
    assert RowsOfKind(items, rows, kind) + [] == RowsOfKind(items, rows, kind);
  }

  lemma AppendRowOfKind(items: seq<Source>, n: nat, rows: seq<seq<nat>>, buffer: seq<nat>, kind: bool)
    requires n <= |items| && KindHolds(items, n, rows, buffer, kind) && buffer != []
    ensures KindHolds(items, n, rows + [buffer], [], kind)
  {
    RowsOfKindAppend(items, rows, buffer, kind);
    FlattenAppend(RowsOfKind(items, rows, kind), [buffer]);
    assert Flatten([buffer]) == buffer + Flatten<nat>([]);
  }

  lemma PushKind(items: seq<Source>, n: nat, rows: seq<seq<nat>>, buffer: seq<nat>, kind: bool)
    requires n < |items| && KindHolds(items, n, rows, buffer, kind)
    ensures KindHolds(items, n + 1, rows, if items[n].hasBanner == kind then buffer + [n] else buffer, kind)
  {
    var flat := Flatten(RowsOfKind(items, rows, kind));
    PositionsNext(items, n, kind);
    if items[n].hasBanner == kind {
      OfKindPush(items, buffer, n, kind);
      Associate(flat, buffer, [n]);
    }
  }

  lemma Associate(xs: seq<nat>, ys: seq<nat>, zs: seq<nat>)
    ensures xs + (ys + zs) == (xs + ys) + zs
  {
  }

  lemma OfKindPush(items: seq<Source>, buffer: seq<nat>, n: nat, kind: bool)
    requires n < |items| && items[n].hasBanner == kind && (buffer != [] ==> OfKind(items, buffer, kind))
    ensures OfKind(items, buffer + [n], kind)
  {
  }

  lemma PositionsNext(items: seq<Source>, n: nat, kind: bool)
    requires n < |items|
    ensures PositionsOf(items[..n + 1], kind) == PositionsOf(items[..n], kind) + if items[n].hasBanner == kind then [n] else []
  {
    assert items[..n + 1][..n] == items[..n];
  }

  ghost predicate Below(rows: seq<seq<nat>>, n: nat) {
    forall r, k :: 0 <= r < |rows| && 0 <= k < |rows[r]| ==> rows[r][k] < n
  }

  lemma FullRowsAppend(items: seq<Source>, n: nat, columns: nat, rows: seq<seq<nat>>, row: seq<nat>, kind: bool)
    requires columns >= 1 && FullRows(items, columns, rows) && Below(rows, n)
    requires |row| == columns && row[columns - 1] == n && OfKind(items, row, kind)
    ensures FullRows(items, columns, rows + [row])
  {
  }

  lemma BelowAppend(rows: seq<seq<nat>>, n: nat, row: seq<nat>)
    requires Below(rows, n) && forall k :: 0 <= k < |row| ==> row[k] < n + 1
    ensures Below(rows, n + 1) && Below(rows + [row], n + 1)
  {
  }

  /** The buffer the new item completed becomes a row. */
  lemma CompletedRow(items: seq<Source>, n: nat, columns: nat, rows: seq<seq<nat>>,
                     buffer: seq<nat>, other: seq<nat>, kind: bool)
    requires n < |items| && columns >= 1 && items[n].hasBanner == kind
    requires FullRows(items, columns, rows) && Below(rows, n) && |buffer| + 1 == columns
    requires KindHolds(items, n, rows, buffer, kind) && KindHolds(items, n, rows, other, !kind)
    ensures var row := buffer + [n];
            && FullRows(items, columns, rows + [row]) && Below(rows + [row], n + 1)
            && KindHolds(items, n + 1, rows + [row], [], kind)
            && KindHolds(items, n + 1, rows + [row], other, !kind)
  {
    var row := buffer + [n];
    PushKind(items, n, rows, buffer, kind);
    PushKind(items, n, rows, other, !kind);
    AppendRowOfKind(items, n + 1, rows, row, kind);
    AppendRowKeepsOther(items, n + 1, rows, row, other, !kind);
    FullRowsAppend(items, n, columns, rows, row, kind);
    BelowAppend(rows, n, row);
  }

  lemma PlainPush(items: seq<Source>, n: nat, columns: nat, rows: seq<seq<nat>>, withBanner: seq<nat>, without: seq<nat>)
    requires n < |items| && PassHolds(items, n, columns, rows, withBanner, without)
    requires |Pushed(items, n, withBanner, true)| < columns && |Pushed(items, n, without, false)| < columns
    ensures PassHolds(items, n + 1, columns, rows, Pushed(items, n, withBanner, true), Pushed(items, n, without, false))
  {
    PushKind(items, n, rows, withBanner, true);
    PushKind(items, n, rows, without, false);
    BelowAppend(rows, n, []);
  }

  function Pushed(items: seq<Source>, n: nat, buffer: seq<nat>, kind: bool): seq<nat>
    requires n < |items|
  {
    if items[n].hasBanner == kind then buffer + [n] else buffer
  }

  /** One item: at most one buffer fills, so flushing adds at most that one row. */
  lemma ItemStep(items: seq<Source>, n: nat, columns: nat, rows: seq<seq<nat>>, withBanner: seq<nat>, without: seq<nat>)
    requires n < |items| && columns >= 1 && PassHolds(items, n, columns, rows, withBanner, without)
    ensures var w, p := Pushed(items, n, withBanner, true), Pushed(items, n, without, false);
            && !(|w| >= columns && |p| >= columns)
            && var (w', p', rows') := FlushFull(w, p, rows, columns);
               PassHolds(items, n + 1, columns, rows', w', p')
  {
    var w, p := Pushed(items, n, withBanner, true), Pushed(items, n, without, false);
    FlushOne(w, p, rows, columns);
    if |w| == columns {
      CompletedRow(items, n, columns, rows, withBanner, without, true);
    } else if |p| == columns {
      CompletedRow(items, n, columns, rows, without, withBanner, false);
    } else {
      FlushNone(w, p, rows, columns);
      PlainPush(items, n, columns, rows, withBanner, without);
    }
  }

  // --- The rows the page shows ---

  /** The leftovers: one short row for each non-empty buffer, the one whose first item came earlier in front. */
  function Leftovers(withBanner: seq<nat>, without: seq<nat>): seq<seq<nat>> {
    if withBanner == [] then if without == [] then [] else [without]
    else if without == [] then [withBanner]
    else if withBanner[0] <= without[0] then [withBanner, without]
    else [without, withBanner]
  }

  lemma LeftoversAreShort(items: seq<Source>, n: nat, columns: nat, rows: seq<seq<nat>>, withBanner: seq<nat>, without: seq<nat>)
    requires n == |items| && PassHolds(items, n, columns, rows, withBanner, without)
    ensures ShortRows(items, columns, Leftovers(withBanner, without))
  {
    var short := Leftovers(withBanner, without);
    if withBanner != [] && without != [] {
      assert OfKind(items, withBanner, true) && OfKind(items, without, false);
      assert items[withBanner[0]].hasBanner && !items[without[0]].hasBanner;
    }
  }

  /** Taking the buffers as rows, in either order, leaves nothing unplaced. */
  lemma LeftoversComplete(items: seq<Source>, n: nat, columns: nat, rows: seq<seq<nat>>,
                          withBanner: seq<nat>, without: seq<nat>)
    requires n == |items| && PassHolds(items, n, columns, rows, withBanner, without)
    ensures forall kind :: Flatten(RowsOfKind(items, rows + Leftovers(withBanner, without), kind)) == PositionsOf(items, kind)
  {
    var short := Leftovers(withBanner, without);
    assert items[..n] == items;
    if withBanner != [] && without != [] {
      if withBanner[0] <= without[0] {
        BothAppended(items, n, rows, withBanner, without, true);
        assert rows + [withBanner] + [without] == rows + short;
      } else {
        BothAppended(items, n, rows, without, withBanner, false);
        assert rows + [without] + [withBanner] == rows + short;
      }
    } else if withBanner != [] {
      AppendRowOfKind(items, n, rows, withBanner, true);
      AppendRowKeepsOther(items, n, rows, withBanner, without, false);
    } else if without != [] {
      AppendRowOfKind(items, n, rows, without, false);
      AppendRowKeepsOther(items, n, rows, without, withBanner, true);
    } else {
      assert rows + short == rows;
    }
  }

  lemma BothAppended(items: seq<Source>, n: nat, rows: seq<seq<nat>>, first: seq<nat>, second: seq<nat>, kind: bool)
    requires n <= |items| && first != [] && second != []
    requires KindHolds(items, n, rows, first, kind) && KindHolds(items, n, rows, second, !kind)
    ensures KindHolds(items, n, rows + [first] + [second], [], kind)
    ensures KindHolds(items, n, rows + [first] + [second], [], !kind)
  {
    AppendRowOfKind(items, n, rows, first, kind);
    AppendRowKeepsOther(items, n, rows, first, second, !kind);
    AppendRowOfKind(items, n, rows + [first], second, !kind);
    AppendRowKeepsOther(items, n, rows + [first], second, [], kind);
  }

  ghost predicate IsPacking(items: seq<Source>, columns: nat, rows: seq<seq<nat>>) {
    exists full, short :: rows == full + short && Packed(items, columns, full, short)
  }

  lemma LeftoversPack(items: seq<Source>, n: nat, columns: nat, rows: seq<seq<nat>>, withBanner: seq<nat>, without: seq<nat>)
    requires n == |items| && PassHolds(items, n, columns, rows, withBanner, without)
    ensures IsPacking(items, columns, rows + Leftovers(withBanner, without))
  {
    LeftoversAreShort(items, n, columns, rows, withBanner, without);
    LeftoversComplete(items, n, columns, rows, withBanner, without);
    assert Packed(items, columns, rows, Leftovers(withBanner, without));
  }

  function Flushed(rows: seq<seq<nat>>, withBanner: seq<nat>, without: seq<nat>, columns: nat): seq<seq<nat>>
    requires columns >= 1
  {
    var w, p := Chunks(withBanner, columns), Chunks(without, columns);
    if withBanner != [] && without != [] && withBanner[0] > without[0] then rows + p + w else rows + w + p
  }

  lemma FlushedIsLeftovers(rows: seq<seq<nat>>, withBanner: seq<nat>, without: seq<nat>, columns: nat)
    requires |withBanner| < columns && |without| < columns
    ensures Flushed(rows, withBanner, without, columns) == rows + Leftovers(withBanner, without)
  {
    ChunksOfShort(withBanner, columns);
    ChunksOfShort(without, columns);
  }

  /** Flushing both leftovers, the earlier first item in front, completes the packing. */
  lemma FlushedLeftovers(items: seq<Source>, n: nat, columns: nat, rows: seq<seq<nat>>, withBanner: seq<nat>, without: seq<nat>)
    requires n == |items| && columns >= 1 && PassHolds(items, n, columns, rows, withBanner, without)
    ensures IsPacking(items, columns, Flushed(rows, withBanner, without, columns))
  {
    FlushedIsLeftovers(rows, withBanner, without, columns);
    LeftoversPack(items, n, columns, rows, withBanner, without);
  }

  method OrderedSourceRows(items: seq<Source>, columns: nat) returns (rows: seq<seq<nat>>)
    requires columns >= 1
    ensures IsPacking(items, columns, rows)
  {
    var withBanner: seq<nat>, without: seq<nat> := [], [];
    rows := [];
    for index := 0 to |items|
      invariant PassHolds(items, index, columns, rows, withBanner, without)
    {
      ItemStep(items, index, columns, rows, withBanner, without);
      ghost var w, p := Pushed(items, index, withBanner, true), Pushed(items, index, without, false);
      if items[index].hasBanner {
        withBanner := withBanner + [index];
      } else {
        without := without + [index];
      }
      assert withBanner == w && without == p;
      // At most one buffer is full here, so the comparison of first positions is never reached.
      assert !(|withBanner| >= columns && |without| >= columns);
      withBanner, without, rows := FlushFullRows(withBanner, without, rows, columns);
    }
    FlushedLeftovers(items, |items|, columns, rows, withBanner, without);
    if withBanner != [] && without != [] {
      if withBanner[0] <= without[0] {
        rows := FlushRemainingBuffer(withBanner, rows, columns);
        rows := FlushRemainingBuffer(without, rows, columns);
      } else {
        rows := FlushRemainingBuffer(without, rows, columns);
        rows := FlushRemainingBuffer(withBanner, rows, columns);
      }
    } else {
      rows := FlushRemainingBuffer(withBanner, rows, columns);
      rows := FlushRemainingBuffer(without, rows, columns);
    }
  }
}
