/**
 What a packing is: how many rows it has, that it shows every item once, and that there is no other.
 */
module RowPackerLaws {
  import opened Common
  import opened RowPacker

  // --- How many rows ---

  lemma {:induction false} RowsOfKindConcat(items: seq<Source>, xs: seq<seq<nat>>, ys: seq<seq<nat>>, kind: bool)
    ensures RowsOfKind(items, xs + ys, kind) == RowsOfKind(items, xs, kind) + RowsOfKind(items, ys, kind)
  {
    if ys == [] {
      assert xs + ys == xs;
    } else {
      var n := |ys| - 1;
      RowsOfKindConcat(items, xs, ys[..n], kind);
      assert (xs + ys)[..|xs + ys| - 1] == xs + ys[..n];
    }
  }

  /** Every row is of exactly one kind. */
  lemma {:induction false} KindsShareRows(items: seq<Source>, rows: seq<seq<nat>>)
    requires forall r :: 0 <= r < |rows| ==> OfKind(items, rows[r], true) || OfKind(items, rows[r], false)
    ensures |rows| == |RowsOfKind(items, rows, true)| + |RowsOfKind(items, rows, false)|
  {
    if rows != [] {
      var n := |rows| - 1;
      KindsShareRows(items, rows[..n]);
      assert items[rows[n][0]].hasBanner || !items[rows[n][0]].hasBanner;
    }
  }

  predicate AllOfLength(rows: seq<seq<nat>>, columns: nat) {
    forall r :: 0 <= r < |rows| ==> |rows[r]| == columns
  }

  lemma {:induction false} FullRowsOfKind(items: seq<Source>, columns: nat, rows: seq<seq<nat>>, kind: bool)
    requires AllOfLength(rows, columns)
    ensures AllOfLength(RowsOfKind(items, rows, kind), columns)
  {
    if rows != [] {
      FullRowsOfKind(items, columns, rows[..|rows| - 1], kind);
    }
  }

  /** How many times `columns` goes into `n`. */
  function FullCount(n: nat, columns: nat): nat
    requires columns >= 1
  {
    if n < columns then 0 else 1 + FullCount(n - columns, columns)
  }

  /** The quotient rounded up. */
  function CeilDiv(n: nat, columns: nat): nat
    requires columns >= 1
  {
    FullCount(n + columns - 1, columns)
  }

  lemma {:induction false} FullCountIsQuotient(n: nat, columns: nat)
    requires columns >= 1
    ensures FullCount(n, columns) == n / columns
  {
    if n >= columns {
      FullCountIsQuotient(n - columns, columns);
      DivStep(n - columns, columns);
    }
  }

  lemma DivStep(n: nat, columns: nat)
    requires columns >= 1
    ensures (n + columns) / columns == n / columns + 1
  {
    var q := (n + columns) / columns - n / columns;
    var r := (n + columns) % columns - n % columns;
    Multiples(columns, q);
    assert columns == columns * q + r;
  }

  lemma Multiples(columns: nat, q: int)
    ensures q >= 2 ==> columns * q >= columns * 2
    ensures q <= 0 ==> columns * q <= 0
  {
  }

  /** Rows of `columns` entries and one shorter row: as many as the entries need. */
  lemma {:induction false} CeilOfRows(columns: nat, full: seq<seq<nat>>, left: nat)
    requires AllOfLength(full, columns) && left < columns
    ensures CeilDiv(|Flatten(full)| + left, columns) == |full| + (if left > 0 then 1 else 0)
    ensures FullCount(|Flatten(full)| + left, columns) == |full|
  {
    if full != [] {
      assert |Flatten(full)| == columns + |Flatten(full[1..])|;
      CeilOfRows(columns, full[1..], left);
      assert CeilDiv(|Flatten(full)| + left, columns) == 1 + CeilDiv(|Flatten(full[1..])| + left, columns);
    } else if left > 0 {
      assert FullCount(left + columns - 1, columns) == 1 + FullCount(left - 1, columns);
    }
  }

  lemma OneKind(items: seq<Source>, row: seq<nat>)
    ensures !(OfKind(items, row, true) && OfKind(items, row, false))
  {
    assert row != [] && row[0] < |items| ==> items[row[0]].hasBanner || !items[row[0]].hasBanner;
  }

  lemma OneRowByKind(items: seq<Source>, row: seq<nat>)
    ensures RowsOfKind(items, [row], true) == if OfKind(items, row, true) then [row] else []
    ensures RowsOfKind(items, [row], false) == if OfKind(items, row, false) then [row] else []
  {
    assert [row] == [] + [row];
    RowsOfKindAppend(items, [], row, true);
    RowsOfKindAppend(items, [], row, false);
  }

  lemma TwoRowsByKind(items: seq<Source>, first: seq<nat>, second: seq<nat>, kind: bool)
    ensures RowsOfKind(items, [first, second], kind)
         == (if OfKind(items, first, kind) then [first] else []) + (if OfKind(items, second, kind) then [second] else [])
  {
    assert [first, second] == [first] + [second];
    RowsOfKindAppend(items, [first], second, kind);
    OneRowByKind(items, first);
  }

  lemma ShortPairKinds(items: seq<Source>, first: seq<nat>, second: seq<nat>, of: bool)
    requires OfKind(items, first, of) && OfKind(items, second, !of)
    ensures !OfKind(items, first, !of) && !OfKind(items, second, of)
  {
    OneKind(items, first);
    OneKind(items, second);
  }

  /** Of one kind there is at most one short row, and it is shorter than a full one. */
  lemma ShortRowsOfKind(items: seq<Source>, columns: nat, short: seq<seq<nat>>, kind: bool)
    requires ShortRows(items, columns, short)
    ensures var rows := RowsOfKind(items, short, kind);
            |rows| <= 1 && (rows != [] ==> 0 < |rows[0]| < columns)
  {
    if |short| == 1 {
      assert short == [short[0]];
      OneRowByKind(items, short[0]);
    } else if |short| == 2 {
      assert short == [short[0], short[1]];
      TwoRowsByKind(items, short[0], short[1], kind);
      var of :| OfKind(items, short[0], of) && OfKind(items, short[1], !of);
      ShortPairKinds(items, short[0], short[1], of);
    }
  }

  lemma KindSplits(items: seq<Source>, full: seq<seq<nat>>, short: seq<seq<nat>>, kind: bool)
    requires Flatten(RowsOfKind(items, full + short, kind)) == PositionsOf(items, kind)
    ensures Flatten(RowsOfKind(items, full, kind)) + Flatten(RowsOfKind(items, short, kind)) == PositionsOf(items, kind)
    ensures RowsOfKind(items, full + short, kind) == RowsOfKind(items, full, kind) + RowsOfKind(items, short, kind)
  {
    RowsOfKindConcat(items, full, short, kind);
    FlattenAppend(RowsOfKind(items, full, kind), RowsOfKind(items, short, kind));
  }

  lemma FlattenOne(row: seq<nat>)
    ensures Flatten([row]) == row
  {
    assert Flatten([row]) == row + Flatten<nat>([]);
  }

  lemma AtMostOneRow(rows: seq<seq<nat>>)
    requires |rows| <= 1
    ensures Flatten(rows) == if rows == [] then [] else rows[0]
  {
    if rows != [] {
      FlattenOne(rows[0]);
      assert rows == [rows[0]];
    }
  }

  /** One kind's rows: its items cut into full rows and at most one short row. */
  lemma KindRowCount(items: seq<Source>, columns: nat, full: seq<seq<nat>>, short: seq<seq<nat>>, kind: bool)
    requires columns >= 1 && AllOfLength(full, columns) && ShortRows(items, columns, short)
    requires Flatten(RowsOfKind(items, full + short, kind)) == PositionsOf(items, kind)
    ensures var n := |PositionsOf(items, kind)|;
            && |RowsOfKind(items, full + short, kind)| == CeilDiv(n, columns)
            && |RowsOfKind(items, full, kind)| == FullCount(n, columns)
  {
    KindSplits(items, full, short, kind);
    FullRowsOfKind(items, columns, full, kind);
    ShortRowsOfKind(items, columns, short, kind);
    CountRows(columns, RowsOfKind(items, full, kind), RowsOfKind(items, short, kind));
  }

  lemma CountRows(columns: nat, full: seq<seq<nat>>, short: seq<seq<nat>>)
    requires columns >= 1 && AllOfLength(full, columns)
    requires |short| <= 1 && (short != [] ==> 0 < |short[0]| < columns)
    ensures var n := |Flatten(full) + Flatten(short)|;
            |full + short| == CeilDiv(n, columns) && |full| == FullCount(n, columns)
  {
    AtMostOneRow(short);
    CeilOfRows(columns, full, |Flatten(short)|);
  }

  lemma PackedRowsHaveKinds(items: seq<Source>, columns: nat, full: seq<seq<nat>>, short: seq<seq<nat>>)
    requires FullRows(items, columns, full) && ShortRows(items, columns, short)
    ensures |full + short| == |RowsOfKind(items, full + short, true)| + |RowsOfKind(items, full + short, false)|
  {
    KindsShareRows(items, full + short);
  }

  /** A packing has as many rows as full and short rows of each kind need. */
  lemma RowCount(items: seq<Source>, columns: nat, rows: seq<seq<nat>>)
    requires columns >= 1 && IsPacking(items, columns, rows)
    ensures |rows| == CeilDiv(|PositionsOf(items, true)|, columns) + CeilDiv(|PositionsOf(items, false)|, columns)
  {
    var full, short :| rows == full + short && Packed(items, columns, full, short);
    KindRowCount(items, columns, full, short, true);
    KindRowCount(items, columns, full, short, false);
    PackedRowsHaveKinds(items, columns, full, short);
  }

  lemma FlattenLast(rows: seq<seq<nat>>, row: seq<nat>)
    ensures Flatten(rows + [row]) == Flatten(rows) + row
  {
    FlattenAppend(rows, [row]);
    FlattenOne(row);
  }

  predicate Kinded(items: seq<Source>, rows: seq<seq<nat>>) {
    forall r :: 0 <= r < |rows| ==> OfKind(items, rows[r], true) || OfKind(items, rows[r], false)
  }

  lemma RowContents(items: seq<Source>, rows: seq<seq<nat>>, row: seq<nat>, kind: bool)
    requires row != []
    ensures Flatten(RowsOfKind(items, rows + [row], kind))
         == Flatten(RowsOfKind(items, rows, kind)) + if OfKind(items, row, kind) then row else []
  {
    RowsOfKindAppend(items, rows, row, kind);
    FlattenLast(RowsOfKind(items, rows, kind), row);
    assert RowsOfKind(items, rows, kind) + [] == RowsOfKind(items, rows, kind);
  }

  lemma ShareStep<T>(all: seq<T>, left: seq<T>, right: seq<T>, row: seq<T>, l: seq<T>, r: seq<T>)
    requires multiset(all) == multiset(left) + multiset(right)
    requires (l == row && r == []) || (l == [] && r == row)
    ensures multiset(all + row) == multiset(left + l) + multiset(right + r)
  {
  }

  lemma KindedStep(items: seq<Source>, rows: seq<seq<nat>>)
    requires Kinded(items, rows) && rows != []
    ensures var n := |rows| - 1;
            && Kinded(items, rows[..n]) && rows[n] != []
            && (OfKind(items, rows[n], true) <==> !OfKind(items, rows[n], false))
  {
    OneKind(items, rows[|rows| - 1]);
  }

  lemma {:induction false} KindsShareContents(items: seq<Source>, rows: seq<seq<nat>>)
    requires Kinded(items, rows)
    ensures multiset(Flatten(rows))
         == multiset(Flatten(RowsOfKind(items, rows, true))) + multiset(Flatten(RowsOfKind(items, rows, false)))
  {
    if rows != [] {
      var n := |rows| - 1;
      KindedStep(items, rows);
      KindsShareContents(items, rows[..n]);
      assert rows == rows[..n] + [rows[n]];
      ShareRow(items, rows[..n], rows[n]);
    }
  }

  lemma ShareRow(items: seq<Source>, rows: seq<seq<nat>>, row: seq<nat>)
    requires row != [] && (OfKind(items, row, true) <==> !OfKind(items, row, false))
    requires multiset(Flatten(rows))
          == multiset(Flatten(RowsOfKind(items, rows, true))) + multiset(Flatten(RowsOfKind(items, rows, false)))
    ensures multiset(Flatten(rows + [row]))
         == multiset(Flatten(RowsOfKind(items, rows + [row], true))) + multiset(Flatten(RowsOfKind(items, rows + [row], false)))
  {
    FlattenLast(rows, row);
    RowContents(items, rows, row, true);
    RowContents(items, rows, row, false);
    ShareStep(Flatten(rows), Flatten(RowsOfKind(items, rows, true)), Flatten(RowsOfKind(items, rows, false)), row,
              if OfKind(items, row, true) then row else [], if OfKind(items, row, false) then row else []);
  }

  lemma {:induction false} PositionsOnce(items: seq<Source>, kind: bool, k: nat)
    ensures Count(PositionsOf(items, kind), k) == if k < |items| && items[k].hasBanner == kind then 1 else 0
  {
    if items != [] {
      PositionsOnce(items[..|items| - 1], kind, k);
    }
  }

  lemma ContentsAreTheItems(items: seq<Source>, rows: seq<seq<nat>>)
    requires Kinded(items, rows)
    requires forall kind :: Flatten(RowsOfKind(items, rows, kind)) == PositionsOf(items, kind)
    ensures multiset(Flatten(rows)) == multiset(PositionsOf(items, true)) + multiset(PositionsOf(items, false))
  {
    KindsShareContents(items, rows);
  }

  /** Every item is in exactly one place of exactly one row, and nothing else is shown. */
  lemma EveryItemOnce(items: seq<Source>, columns: nat, rows: seq<seq<nat>>, k: nat)
    requires IsPacking(items, columns, rows)
    ensures Count(Flatten(rows), k) == if k < |items| then 1 else 0
  {
    CountOfKinds(items, columns, rows, k);
    PositionsOnce(items, true, k);
    PositionsOnce(items, false, k);
  }

  lemma CountOfKinds(items: seq<Source>, columns: nat, rows: seq<seq<nat>>, k: nat)
    requires IsPacking(items, columns, rows)
    ensures Count(Flatten(rows), k) == Count(PositionsOf(items, true), k) + Count(PositionsOf(items, false), k)
  {
    var full, short :| rows == full + short && Packed(items, columns, full, short);
    RowsHaveKinds(items, columns, full, short);
    ItemOnceIn(items, full + short, k);
  }

  function Count(s: seq<nat>, k: nat): nat {
    multiset(s)[k]
  }

  lemma ItemOnceIn(items: seq<Source>, rows: seq<seq<nat>>, k: nat)
    requires Kinded(items, rows)
    requires forall kind :: Flatten(RowsOfKind(items, rows, kind)) == PositionsOf(items, kind)
    ensures Count(Flatten(rows), k) == Count(PositionsOf(items, true), k) + Count(PositionsOf(items, false), k)
  {
    ContentsAreTheItems(items, rows);
    CountInBoth(Flatten(rows), PositionsOf(items, true), PositionsOf(items, false), k);
  }

  lemma CountInBoth(all: seq<nat>, left: seq<nat>, right: seq<nat>, x: nat)
    requires multiset(all) == multiset(left) + multiset(right)
    ensures Count(all, x) == Count(left, x) + Count(right, x)
  {
  }

  lemma RowsHaveKinds(items: seq<Source>, columns: nat, full: seq<seq<nat>>, short: seq<seq<nat>>)
    requires FullRows(items, columns, full) && ShortRows(items, columns, short)
    ensures Kinded(items, full + short)
  {
  }

  // --- Uniqueness ---

  /** Full rows of one kind and the shorter rest are determined by what they spell out. */
  lemma {:induction false} CutIsUnique(columns: nat, xs: seq<seq<nat>>, x: seq<nat>, ys: seq<seq<nat>>, y: seq<nat>)
    requires columns >= 1 && AllOfLength(xs, columns) && AllOfLength(ys, columns) && |x| < columns && |y| < columns
    requires Flatten(xs) + x == Flatten(ys) + y
    ensures xs == ys && x == y
  {
    if xs != [] && ys != [] {
      assert Flatten(xs) + x == xs[0] + (Flatten(xs[1..]) + x);
      assert Flatten(ys) + y == ys[0] + (Flatten(ys[1..]) + y);
      assert xs[0] == (Flatten(xs) + x)[..columns] == ys[0];
      assert Flatten(xs[1..]) + x == (Flatten(xs) + x)[columns..] == Flatten(ys[1..]) + y;
      CutIsUnique(columns, xs[1..], x, ys[1..], y);
    } else {
      CutLength(columns, xs);
      CutLength(columns, ys);
      assert |Flatten(xs)| + |x| == |Flatten(xs) + x| == |Flatten(ys)| + |y|;
      assert Flatten<nat>([]) + x == x && Flatten<nat>([]) + y == y;
    }
  }

  lemma CutLength(columns: nat, xs: seq<seq<nat>>)
    requires AllOfLength(xs, columns)
    ensures xs != [] ==> |Flatten(xs)| >= columns
  {
  }

  lemma KindIsUnique(items: seq<Source>, columns: nat, full: seq<seq<nat>>, short: seq<seq<nat>>,
                     full': seq<seq<nat>>, short': seq<seq<nat>>, kind: bool)
    requires columns >= 1 && AllOfLength(full, columns) && ShortRows(items, columns, short)
    requires AllOfLength(full', columns) && ShortRows(items, columns, short')
    requires Flatten(RowsOfKind(items, full + short, kind)) == PositionsOf(items, kind)
    requires Flatten(RowsOfKind(items, full' + short', kind)) == PositionsOf(items, kind)
    ensures RowsOfKind(items, full, kind) == RowsOfKind(items, full', kind)
    ensures RowsOfKind(items, short, kind) == RowsOfKind(items, short', kind)
  {
    var s, s' := RowsOfKind(items, short, kind), RowsOfKind(items, short', kind);
    KindSplits(items, full, short, kind);
    KindSplits(items, full', short', kind);
    FullRowsOfKind(items, columns, full, kind);
    FullRowsOfKind(items, columns, full', kind);
    ShortRowsOfKind(items, columns, short, kind);
    ShortRowsOfKind(items, columns, short', kind);
    RowsAreUnique(columns, RowsOfKind(items, full, kind), s, RowsOfKind(items, full', kind), s');
  }

  lemma RowsAreUnique(columns: nat, full: seq<seq<nat>>, short: seq<seq<nat>>, full': seq<seq<nat>>, short': seq<seq<nat>>)
    requires columns >= 1 && AllOfLength(full, columns) && AllOfLength(full', columns)
    requires |short| <= 1 && (short != [] ==> 0 < |short[0]| < columns)
    requires |short'| <= 1 && (short' != [] ==> 0 < |short'[0]| < columns)
    requires Flatten(full) + Flatten(short) == Flatten(full') + Flatten(short')
    ensures full == full' && short == short'
  {
    AtMostOneRow(short);
    AtMostOneRow(short');
    CutIsUnique(columns, full, Flatten(short), full', Flatten(short'));
  }

  /** A row picked out as one of its kind stands among the rows. */
  lemma {:induction false} PickedRow(items: seq<Source>, rows: seq<seq<nat>>, row: seq<nat>, kind: bool)
    requires row in RowsOfKind(items, rows, kind)
    ensures row in rows
  {
    var n := |rows| - 1;
    if !(OfKind(items, rows[n], kind) && row == rows[n]) {
      PickedRow(items, rows[..n], row, kind);
    }
  }

  lemma SplitLast(items: seq<Source>, rows: seq<seq<nat>>, kind: bool)
    requires rows != []
    ensures var n := |rows| - 1;
            RowsOfKind(items, rows, kind)
              == RowsOfKind(items, rows[..n], kind) + if OfKind(items, rows[n], kind) then [rows[n]] else []
  {
  }

  /** The last of the full rows is not before any full row. */
  lemma LastIsLatest(items: seq<Source>, columns: nat, rows: seq<seq<nat>>, row: seq<nat>)
    requires columns >= 1 && rows != [] && FullRows(items, columns, rows) && row in rows
    ensures |row| == columns == |rows[|rows| - 1]|
    ensures row == rows[|rows| - 1] || row[columns - 1] < rows[|rows| - 1][columns - 1]
  {
  }

  lemma FullRowsPrefix(items: seq<Source>, columns: nat, rows: seq<seq<nat>>)
    requires rows != [] && FullRows(items, columns, rows)
    ensures FullRows(items, columns, rows[..|rows| - 1])
  {
  }

  ghost predicate SameKinds(items: seq<Source>, xs: seq<seq<nat>>, ys: seq<seq<nat>>) {
    forall kind :: RowsOfKind(items, xs, kind) == RowsOfKind(items, ys, kind)
  }

  lemma {:induction false} LastOccurs(items: seq<Source>, columns: nat, xs: seq<seq<nat>>, ys: seq<seq<nat>>)
    requires columns >= 1 && xs != [] && FullRows(items, columns, xs) && SameKinds(items, xs, ys)
    ensures ys != [] && xs[|xs| - 1] in ys
  {
    var x := xs[|xs| - 1];
    var kind := OfKind(items, x, true);
    SplitLast(items, xs, kind);
    assert OfKind(items, x, kind);
    var picked := RowsOfKind(items, xs, kind);
    assert picked[|picked| - 1] == x;
    assert x in RowsOfKind(items, ys, kind);
    PickedRow(items, ys, x, kind);
  }

  lemma Cancel<T>(xs: seq<T>, ys: seq<T>, tail: seq<T>)
    requires xs + tail == ys + tail
    ensures xs == ys
  {
    assert |xs| == |ys|;
    assert xs == (xs + tail)[..|xs|];
  }

  lemma SamePrefixes(items: seq<Source>, xs: seq<seq<nat>>, ys: seq<seq<nat>>)
    requires xs != [] && ys != [] && SameKinds(items, xs, ys) && xs[|xs| - 1] == ys[|ys| - 1]
    ensures SameKinds(items, xs[..|xs| - 1], ys[..|ys| - 1])
  {
    var m, n := |xs| - 1, |ys| - 1;
    forall kind ensures RowsOfKind(items, xs[..m], kind) == RowsOfKind(items, ys[..n], kind) {
      SplitLast(items, xs, kind);
      SplitLast(items, ys, kind);
      Cancel(RowsOfKind(items, xs[..m], kind), RowsOfKind(items, ys[..n], kind),
             if OfKind(items, xs[m], kind) then [xs[m]] else []);
    }
  }

  lemma LastRowsAgree(items: seq<Source>, columns: nat, xs: seq<seq<nat>>, ys: seq<seq<nat>>)
    requires columns >= 1 && FullRows(items, columns, xs) && FullRows(items, columns, ys) && SameKinds(items, xs, ys)
    requires xs != []
    ensures ys != [] && xs[|xs| - 1] == ys[|ys| - 1]
  {
    LastOccurs(items, columns, xs, ys);
    LastOccurs(items, columns, ys, xs);
    LastIsLatest(items, columns, xs, ys[|ys| - 1]);
    LastIsLatest(items, columns, ys, xs[|xs| - 1]);
  }

  /** Interleaving by last position is the only order the full rows can have. */
  lemma {:induction false} MergeIsUnique(items: seq<Source>, columns: nat, xs: seq<seq<nat>>, ys: seq<seq<nat>>)
    requires columns >= 1 && FullRows(items, columns, xs) && FullRows(items, columns, ys) && SameKinds(items, xs, ys)
    ensures xs == ys
  {
    if xs == [] && ys == [] {
    } else if xs == [] {
      LastOccurs(items, columns, ys, xs);
    } else {
      LastRowsAgree(items, columns, xs, ys);
      var m, n := |xs| - 1, |ys| - 1;
      SamePrefixes(items, xs, ys);
      FullRowsPrefix(items, columns, xs);
      FullRowsPrefix(items, columns, ys);
      MergeIsUnique(items, columns, xs[..m], ys[..n]);
      assert xs == xs[..m] + [xs[m]] && ys == ys[..n] + [ys[n]];
    }
  }

  lemma SameLeftovers(items: seq<Source>, columns: nat, xs: seq<seq<nat>>, ys: seq<seq<nat>>)
    requires ShortRows(items, columns, xs) && ShortRows(items, columns, ys) && SameKinds(items, xs, ys)
    ensures xs == ys
  {
    ShortByKinds(items, columns, xs);
    ShortByKinds(items, columns, ys);
  }

  lemma PairByKinds(items: seq<Source>, first: seq<nat>, second: seq<nat>, of: bool)
    requires OfKind(items, first, of) && OfKind(items, second, !of)
    ensures RowsOfKind(items, [first, second], of) == [first]
    ensures RowsOfKind(items, [first, second], !of) == [second]
  {
    TwoRowsByKind(items, first, second, of);
    TwoRowsByKind(items, first, second, !of);
    ShortPairKinds(items, first, second, of);
  }

  /** Short rows are the two kinds' short rows, the earlier first position in front. */
  lemma ShortByKinds(items: seq<Source>, columns: nat, short: seq<seq<nat>>)
    requires ShortRows(items, columns, short)
    ensures var w, p := RowsOfKind(items, short, true), RowsOfKind(items, short, false);
            short == if |w| == 1 && |p| == 1 && p[0] != [] && w[0] != [] && p[0][0] < w[0][0] then p + w else w + p
  {
    if |short| == 1 {
      OneRowByKind(items, short[0]);
      assert short == [short[0]];
    } else if |short| == 2 {
      assert short == [short[0], short[1]];
      var of :| OfKind(items, short[0], of) && OfKind(items, short[1], !of);
      PairByKinds(items, short[0], short[1], of);
    }
  }

  lemma KindsAreUnique(items: seq<Source>, columns: nat, f: seq<seq<nat>>, s: seq<seq<nat>>, f': seq<seq<nat>>, s': seq<seq<nat>>)
    requires columns >= 1 && Packed(items, columns, f, s) && Packed(items, columns, f', s')
    ensures SameKinds(items, f, f') && SameKinds(items, s, s')
  {
    forall kind ensures RowsOfKind(items, f, kind) == RowsOfKind(items, f', kind)
                        && RowsOfKind(items, s, kind) == RowsOfKind(items, s', kind)
    {
      KindIsUnique(items, columns, f, s, f', s', kind);
    }
  }

  /** The packing is the only one: the items and the column count determine every row. */
  lemma PackingIsUnique(items: seq<Source>, columns: nat, xs: seq<seq<nat>>, ys: seq<seq<nat>>)
    requires columns >= 1 && IsPacking(items, columns, xs) && IsPacking(items, columns, ys)
    ensures xs == ys
  {
    var f, s :| xs == f + s && Packed(items, columns, f, s);
    var f', s' :| ys == f' + s' && Packed(items, columns, f', s');
    KindsAreUnique(items, columns, f, s, f', s');
    MergeIsUnique(items, columns, f, f');
    SameLeftovers(items, columns, s, s');
  }

  // --- The rows one by one ---

  lemma {:induction false} PositionsAscend(items: seq<Source>, kind: bool, a: nat, b: nat)
    requires a < b < |PositionsOf(items, kind)|
    ensures PositionsOf(items, kind)[a] < PositionsOf(items, kind)[b] < |items|
    ensures items[PositionsOf(items, kind)[a]].hasBanner == kind && items[PositionsOf(items, kind)[b]].hasBanner == kind
  {
    var n := |items| - 1;
    var before := PositionsOf(items[..n], kind);
    if b < |before| {
      PositionsAscend(items[..n], kind, a, b);
    } else {
      PositionIsOfKind(items[..n], kind, a);
    }
  }

  lemma {:induction false} PositionIsOfKind(items: seq<Source>, kind: bool, a: nat)
    requires a < |PositionsOf(items, kind)|
    ensures PositionsOf(items, kind)[a] < |items| && items[PositionsOf(items, kind)[a]].hasBanner == kind
  {
    var n := |items| - 1;
    if a < |PositionsOf(items[..n], kind)| {
      PositionIsOfKind(items[..n], kind, a);
    }
  }

  lemma {:induction false} PickedAt(items: seq<Source>, rows: seq<seq<nat>>, r: nat, kind: bool)
    requires r < |rows| && OfKind(items, rows[r], kind)
    ensures var k := |RowsOfKind(items, rows[..r], kind)|;
            k < |RowsOfKind(items, rows, kind)| && RowsOfKind(items, rows, kind)[k] == rows[r]
  {
    var n := |rows| - 1;
    SplitLast(items, rows, kind);
    if r < n {
      PickedAt(items, rows[..n], r, kind);
      assert rows[..n][..r] == rows[..r];
    }
  }

  lemma {:induction false} PickedLater(items: seq<Source>, rows: seq<seq<nat>>, r: nat, q: nat, kind: bool)
    requires r < q <= |rows| && OfKind(items, rows[r], kind)
    ensures |RowsOfKind(items, rows[..r], kind)| < |RowsOfKind(items, rows[..q], kind)|
  {
    SplitLast(items, rows[..q], kind);
    assert rows[..q][..q - 1] == rows[..q - 1];
    if r < q - 1 {
      PickedLater(items, rows, r, q - 1, kind);
    }
  }

  lemma {:induction false} FlattenedAt(rows: seq<seq<nat>>, k: nat, a: nat)
    requires k < |rows| && a < |rows[k]|
    ensures |Flatten(rows[..k])| + a < |Flatten(rows)| && Flatten(rows)[|Flatten(rows[..k])| + a] == rows[k][a]
  {
    if k > 0 {
      FlattenedAt(rows[1..], k - 1, a);
      assert rows[1..][..k - 1] == rows[..k][1..];
    }
  }

  lemma FlattenedLater(rows: seq<seq<nat>>, k: nat, l: nat)
    requires k < l < |rows|
    ensures |Flatten(rows[..k])| + |rows[k]| <= |Flatten(rows[..l])|
  {
    assert rows[..l] == rows[..k] + [rows[k]] + rows[k + 1..l];
    FlattenLast(rows[..k], rows[k]);
    FlattenAppend(rows[..k] + [rows[k]], rows[k + 1..l]);
  }

  /** Where the entry of a row stands among the positions of its kind. */
  lemma EntryPlace(items: seq<Source>, columns: nat, rows: seq<seq<nat>>, r: nat, a: nat, kind: bool) returns (p: nat)
    requires IsPacking(items, columns, rows) && r < |rows| && a < |rows[r]| && OfKind(items, rows[r], kind)
    ensures p < |PositionsOf(items, kind)| && PositionsOf(items, kind)[p] == rows[r][a]
    ensures var own, k := RowsOfKind(items, rows, kind), |RowsOfKind(items, rows[..r], kind)|;
            k < |own| && own[k] == rows[r] && p == |Flatten(own[..k])| + a
  {
    PickedAt(items, rows, r, kind);
    FlattenedAt(RowsOfKind(items, rows, kind), |RowsOfKind(items, rows[..r], kind)|, a);
    p := |Flatten(RowsOfKind(items, rows, kind)[..|RowsOfKind(items, rows[..r], kind)|])| + a;
    KindSpellsOut(items, columns, rows, kind);
  }

  lemma KindSpellsOut(items: seq<Source>, columns: nat, rows: seq<seq<nat>>, kind: bool)
    requires IsPacking(items, columns, rows)
    ensures Flatten(RowsOfKind(items, rows, kind)) == PositionsOf(items, kind)
  {
    var full, short :| rows == full + short && Packed(items, columns, full, short);
  }

  /** Within a row and over later rows of its kind, the items keep their order on the page. */
  lemma KindKeepsOrder(items: seq<Source>, columns: nat, rows: seq<seq<nat>>, r: nat, a: nat, q: nat, b: nat, kind: bool)
    requires IsPacking(items, columns, rows) && r < |rows| && q < |rows| && a < |rows[r]| && b < |rows[q]|
    requires OfKind(items, rows[r], kind) && OfKind(items, rows[q], kind) && (r < q || (r == q && a < b))
    ensures rows[r][a] < rows[q][b]
  {
    var m := EntryPlace(items, columns, rows, r, a, kind);
    var n := EntryPlace(items, columns, rows, q, b, kind);
    if r < q {
      PickedLater(items, rows, r, q, kind);
      FlattenedLater(RowsOfKind(items, rows, kind), |RowsOfKind(items, rows[..r], kind)|, |RowsOfKind(items, rows[..q], kind)|);
    }
    PositionsAscend(items, kind, m, n);
  }

  /** Every row is non-empty, not too long, and of items with the same kind of image. */
  lemma RowIsUniform(items: seq<Source>, columns: nat, rows: seq<seq<nat>>, r: nat, a: nat, b: nat)
    requires columns >= 1 && IsPacking(items, columns, rows) && r < |rows| && a < |rows[r]| && b < |rows[r]|
    ensures 0 < |rows[r]| <= columns && rows[r][a] < |items| && rows[r][b] < |items|
    ensures items[rows[r][a]].hasBanner == items[rows[r][b]].hasBanner
  {
    var full, short :| rows == full + short && Packed(items, columns, full, short);
    RowsHaveKinds(items, columns, full, short);
  }

  /**
   Of two rows the earlier is full unless it is the last but one; two full rows are in the order of
   their last items, and two short rows, of different kinds, in the order of their first items.
   */
  lemma RowsAreOrdered(items: seq<Source>, columns: nat, rows: seq<seq<nat>>, r: nat, q: nat)
    requires columns >= 1 && IsPacking(items, columns, rows) && r < q < |rows|
    ensures |rows[r]| > 0 && |rows[q]| > 0
    ensures |rows[r]| < columns ==> r + 2 == |rows| && |rows[q]| < columns
    ensures |rows[r]| == columns == |rows[q]| ==> rows[r][columns - 1] < rows[q][columns - 1]
    ensures |rows[r]| < columns ==>
              && rows[r][0] < rows[q][0] < |items|
              && items[rows[r][0]].hasBanner != items[rows[q][0]].hasBanner
  {
    var full, short :| rows == full + short && Packed(items, columns, full, short);
    RowsHaveKinds(items, columns, full, short);
    if |rows[r]| < columns {
      assert r == |full| && q == |full| + 1 && rows[r] == short[0] && rows[q] == short[1];
      var of :| OfKind(items, short[0], of) && OfKind(items, short[1], !of);
    }
  }
}
