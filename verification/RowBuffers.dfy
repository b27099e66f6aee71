/** The two flushing loops of the row packer, over buffers of item positions. */
module RowBuffers {
  function FlushFull(withBanner: seq<nat>, without: seq<nat>, rows: seq<seq<nat>>, columns: nat)
    : (seq<nat>, seq<nat>, seq<seq<nat>>)
    requires columns >= 1
    decreases |withBanner| + |without|
  {
    if |withBanner| >= columns && |without| >= columns then
      if withBanner[0] <= without[0]
      then FlushFull(withBanner[columns..], without, rows + [withBanner[..columns]], columns)
      else FlushFull(withBanner, without[columns..], rows + [without[..columns]], columns)
    else if |withBanner| >= columns then
      FlushFull(withBanner[columns..], without, rows + [withBanner[..columns]], columns)
    else if |without| >= columns then
      FlushFull(withBanner, without[columns..], rows + [without[..columns]], columns)
    else (withBanner, without, rows)
  }

  method FlushFullRows(withBanner: seq<nat>, without: seq<nat>, rows: seq<seq<nat>>, columns: nat)
    returns (withBanner': seq<nat>, without': seq<nat>, rows': seq<seq<nat>>)
    requires columns >= 1
    ensures (withBanner', without', rows') == FlushFull(withBanner, without, rows, columns)
  {
    withBanner', without', rows' := withBanner, without, rows;
    while |withBanner'| >= columns || |without'| >= columns
      invariant FlushFull(withBanner', without', rows', columns) == FlushFull(withBanner, without, rows, columns)
      decreases |withBanner'| + |without'|
    {
      if |withBanner'| >= columns && |without'| >= columns {
        if withBanner'[0] <= without'[0] {
          rows' := rows' + [withBanner'[..columns]];
          withBanner' := withBanner'[columns..];
        } else {
          rows' := rows' + [without'[..columns]];
          without' := without'[columns..];
        }
      } else if |withBanner'| >= columns {
        rows' := rows' + [withBanner'[..columns]];
        withBanner' := withBanner'[columns..];
      } else {
        rows' := rows' + [without'[..columns]];
        without' := without'[columns..];
      }
    }
  }

  /** Chunks of at most `columns` entries, in order. */
  function Chunks(buffer: seq<nat>, columns: nat): seq<seq<nat>>
    requires columns >= 1
  {
    if buffer == [] then []
    else if |buffer| <= columns then [buffer]
    else [buffer[..columns]] + Chunks(buffer[columns..], columns)
  }

  lemma ChunksSplit(rest: seq<nat>, columns: nat, take: nat)
    requires columns >= 1 && rest != [] && take == if |rest| < columns then |rest| else columns
    ensures Chunks(rest, columns) == [rest[..take]] + Chunks(rest[take..], columns)
  {
    if |rest| <= columns {
      assert rest[..take] == rest && rest[take..] == [];
    }
  }

  method FlushRemainingBuffer(buffer: seq<nat>, rows: seq<seq<nat>>, columns: nat) returns (rows': seq<seq<nat>>)
    requires columns >= 1
    ensures rows' == rows + Chunks(buffer, columns)
  {
    rows' := rows;
    var rest := buffer;
    while rest != []
      invariant rows' + Chunks(rest, columns) == rows + Chunks(buffer, columns)
      decreases |rest|
    {
      // splice(0, columns) takes what is there when the buffer is shorter.
      var take := if |rest| < columns then |rest| else columns;
      ChunksSplit(rest, columns, take);
      assert rows' + ([rest[..take]] + Chunks(rest[take..], columns)) == (rows' + [rest[..take]]) + Chunks(rest[take..], columns);
      rows' := rows' + [rest[..take]];
      rest := rest[take..];
    }
  }

  lemma FlushNone(w: seq<nat>, p: seq<nat>, rows: seq<seq<nat>>, columns: nat)
    requires |w| < columns && |p| < columns
    ensures FlushFull(w, p, rows, columns) == (w, p, rows)
  {
  }

  lemma FlushOne(w: seq<nat>, p: seq<nat>, rows: seq<seq<nat>>, columns: nat)
    requires columns >= 1
    ensures |w| == columns > |p| ==> FlushFull(w, p, rows, columns) == ([], p, rows + [w])
    ensures |p| == columns > |w| ==> FlushFull(w, p, rows, columns) == (w, [], rows + [p])
  {
    if |w| == columns > |p| {
      assert w[..columns] == w && w[columns..] == [];
      FlushNone([], p, rows + [w], columns);
    } else if |p| == columns > |w| {
      assert p[..columns] == p && p[columns..] == [];
      FlushNone(w, [], rows + [p], columns);
    }
  }

  lemma ChunksOfShort(buffer: seq<nat>, columns: nat)
    requires |buffer| < columns
    ensures Chunks(buffer, columns) == if buffer == [] then [] else [buffer]
  {
  }
}
