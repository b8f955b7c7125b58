/** One worksheet of the output: the header and data writes of a query
    result, the per-column width counters they raise, and the capped column
    widths set at the end. The spreadsheet library is represented by the log
    of the writes it receives, in call order, and by the list of widths given
    to `set_column` for columns 0, 1, 2, ... */
module Worksheet {
  import opened Cells

  /** One `worksheet.write(row, col, value, format)` call. */
  datatype CellWrite = CellWrite(row: nat, col: nat, value: Value, format: Format)

  /** The widest a column is ever set to. */
  const MaxColumnWidth: nat := 100

  // ---------------------------------------------------------------------
  // The write log a result set produces

  /** The header row: column `i`'s name at `(0, i)` in the header format. */
  function HeaderWrites(names: seq<string>): seq<CellWrite>
  {
    seq(|names|, i requires 0 <= i < |names| => CellWrite(0, i, Text(names[i]), HeaderFormat))
  }

  /** The writes of one data row, cell by cell from column 0. */
  function RowWrites(row: seq<Value>, rowNum: nat): seq<CellWrite>
  {
    seq(|row|, j requires 0 <= j < |row| => CellWrite(rowNum, j, row[j], Classify(row[j]).format))
  }

  /** The writes of all data rows; row `i` of the result lands on sheet row `i + 1`. */
  function DataWrites(rows: seq<seq<Value>>): seq<CellWrite>
    decreases |rows|
  {
    if rows == [] then []
    else DataWrites(rows[..|rows| - 1]) + RowWrites(rows[|rows| - 1], |rows|)
  }

  /** The number of cells in the given rows. */
  function CellCount(rows: seq<seq<Value>>): nat
    decreases |rows|
  {
    if rows == [] then 0 else CellCount(rows[..|rows| - 1]) + |rows[|rows| - 1]|
  }

  /** `a` is written before `b` in row-major order. */
  predicate Precedes(a: CellWrite, b: CellWrite)
  {
    a.row < b.row || (a.row == b.row && a.col < b.col)
  }

  predicate RowMajor(log: seq<CellWrite>)
  {
    forall i, j :: 0 <= i < j < |log| ==> Precedes(log[i], log[j])
  }

  // ---------------------------------------------------------------------
  // Width tracking

  function Max(a: nat, b: nat): nat { if a < b then b else a }

  function Min(a: nat, b: nat): nat { if a < b then a else b }

  /** What a row contributes to column `c`: the width of its cell there, or
      nothing when the row is shorter. */
  function Contribution(row: seq<Value>, c: nat): nat
  {
    if c < |row| then Classify(row[c]).width else 0
  }

  /** The counter of column `c` once the given rows have been written: it
      starts at the length of the column's name and is raised to each larger
      width a cell contributes. */
  function Tracked(name: string, rows: seq<seq<Value>>, c: nat): nat
    decreases |rows|
  {
    if rows == [] then |name|
    else Max(Tracked(name, rows[..|rows| - 1], c), Contribution(rows[|rows| - 1], c))
  }

  /** The width the final loop gives a column whose counter is `tracked`. */
  function FinalWidth(tracked: nat): (w: nat)
    ensures w == Min(tracked + 1, MaxColumnWidth)
    ensures 1 <= w <= MaxColumnWidth
  {
    if tracked < MaxColumnWidth then tracked + 1 else MaxColumnWidth
  }

  // ---------------------------------------------------------------------
  // The loops

  /** The header loop and the data loop: every cell is written in turn and
      the width counter of its column is raised when the cell is wider. */
  method WriteResult(names: seq<string>, rows: seq<seq<Value>>)
    returns (writes: seq<CellWrite>, lengths: seq<nat>)
    requires forall i :: 0 <= i < |rows| ==> |rows[i]| <= |names|
    ensures writes == HeaderWrites(names) + DataWrites(rows)
    ensures |lengths| == |names|
    ensures forall c :: 0 <= c < |names| ==> lengths[c] == Tracked(names[c], rows, c)
  {
    lengths := seq(|names|, c requires 0 <= c < |names| => |names[c]|);
    writes := [];
    for i := 0 to |names|
      invariant writes == HeaderWrites(names)[..i]
    {
      writes := writes + [CellWrite(0, i, Text(names[i]), HeaderFormat)];
    }
    assert HeaderWrites(names)[..|names|] == HeaderWrites(names);
    for i := 0 to |rows|
      invariant |lengths| == |names|
      invariant writes == HeaderWrites(names) + DataWrites(rows[..i])
      invariant forall c :: 0 <= c < |names| ==> lengths[c] == Tracked(names[c], rows[..i], c)
    {
      var rowWrites, raised := WriteRow(rows[i], i + 1, lengths);
      writes, lengths := writes + rowWrites, raised;
      DataWritesStep(rows, i);
      forall c | 0 <= c < |names|
        ensures lengths[c] == Tracked(names[c], rows[..i + 1], c)
      {
        TrackedStep(names[c], rows, i, c);
      }
    }
    assert rows[..|rows|] == rows;
  }

  /** One turn of the data loop: the cells of row `rowNum` are written from
      column 0, and each column's counter is raised to the cell's width when
      that is larger. */
  method WriteRow(row: seq<Value>, rowNum: nat, lengths: seq<nat>)
    returns (writes: seq<CellWrite>, raised: seq<nat>)
    requires |row| <= |lengths|
    ensures writes == RowWrites(row, rowNum)
    ensures |raised| == |lengths|
    ensures forall c :: 0 <= c < |lengths| ==> raised[c] == Max(lengths[c], Contribution(row, c))
  {
    writes, raised := [], lengths;
    for j := 0 to |row|
      invariant |raised| == |lengths|
      invariant writes == RowWrites(row, rowNum)[..j]
      invariant forall c :: 0 <= c < j ==> raised[c] == Max(lengths[c], Contribution(row, c))
      invariant forall c :: j <= c < |lengths| ==> raised[c] == lengths[c]
    {
      var p := Classify(row[j]);
      writes := writes + [CellWrite(rowNum, j, row[j], p.format)];
      if p.width > raised[j] {
        raised := raised[j := p.width];
      }
    }
    assert RowWrites(row, rowNum)[..|row|] == RowWrites(row, rowNum);
  }

  /** One more row appends that row's writes to the log, at the next sheet row. */
  lemma DataWritesStep(rows: seq<seq<Value>>, i: nat)
    requires i < |rows|
    ensures DataWrites(rows[..i + 1]) == DataWrites(rows[..i]) + RowWrites(rows[i], i + 1)
  {
    assert rows[..i + 1][..i] == rows[..i];
  }

  /** One more row raises a counter to that row's contribution, if larger. */
  lemma TrackedStep(name: string, rows: seq<seq<Value>>, i: nat, c: nat)
    requires i < |rows|
    ensures Tracked(name, rows[..i + 1], c) == Max(Tracked(name, rows[..i], c), Contribution(rows[i], c))
  {
    assert rows[..i + 1][..i] == rows[..i];
  }

  /** The width loop: column `i` is set to its capped counter. */
  method ColumnWidths(lengths: seq<nat>) returns (widths: seq<nat>)
    ensures |widths| == |lengths|
    ensures forall i :: 0 <= i < |lengths| ==> widths[i] == FinalWidth(lengths[i])
  {
    widths := [];
    for i := 0 to |lengths|
      invariant |widths| == i
      invariant forall k :: 0 <= k < i ==> widths[k] == FinalWidth(lengths[k])
    {
      var length;
      if lengths[i] < MaxColumnWidth {
        length := lengths[i] + 1;
      } else {
        length := MaxColumnWidth;
      }
      widths := widths + [length];
    }
  }

  // ---------------------------------------------------------------------
  // Properties of the write log

  lemma {:induction false} DataWritesLength(rows: seq<seq<Value>>)
    ensures |DataWrites(rows)| == CellCount(rows)
    decreases |rows|
  {
    if rows != [] {
      DataWritesLength(rows[..|rows| - 1]);
    }
  }

  /** Cell `j` of result row `i` is the write at position
      `CellCount(rows[..i]) + j` of the data log, at sheet row `i + 1`,
      column `j`, with the format the dispatch picks for it. */
  lemma {:induction false} DataWriteAt(rows: seq<seq<Value>>, i: nat, j: nat)
    requires i < |rows| && j < |rows[i]|
    ensures CellCount(rows[..i]) + j < |DataWrites(rows)|
    ensures DataWrites(rows)[CellCount(rows[..i]) + j]
            == CellWrite(i + 1, j, rows[i][j], Classify(rows[i][j]).format)
    decreases |rows|
  {
    var front := rows[..|rows| - 1];
    DataWritesLength(front);
    if i == |rows| - 1 {
      assert rows[..i] == front;
    } else {
      assert front[..i] == rows[..i] && front[i] == rows[i];
      DataWriteAt(front, i, j);
    }
  }

  /** Every data write lies on rows `1 ..= |rows|`, so none touches the header
      row, and none uses the header format. */
  lemma {:induction false} DataWritesBelowHeader(rows: seq<seq<Value>>)
    ensures forall k :: 0 <= k < |DataWrites(rows)| ==>
      1 <= DataWrites(rows)[k].row <= |rows| && DataWrites(rows)[k].format != HeaderFormat
    decreases |rows|
  {
    if rows != [] {
      DataWritesBelowHeader(rows[..|rows| - 1]);
    }
  }

  lemma {:induction false} DataWritesRowMajor(rows: seq<seq<Value>>)
    ensures RowMajor(DataWrites(rows))
    decreases |rows|
  {
    if rows != [] {
      var front := rows[..|rows| - 1];
      DataWritesRowMajor(front);
      DataWritesBelowHeader(front);
      var a, b := DataWrites(front), RowWrites(rows[|rows| - 1], |rows|);
      assert forall k :: 0 <= k < |b| ==> b[k].row == |rows| && b[k].col == k;
      assert forall i, j :: 0 <= i < |a| <= j < |a| + |b| ==> Precedes((a + b)[i], (a + b)[j]);
    }
  }

  /** The whole log of a result set is in row-major order, so no cell is
      written twice: the header row comes first and the data never lands on it. */
  lemma WriteLogRowMajor(names: seq<string>, rows: seq<seq<Value>>)
    ensures RowMajor(HeaderWrites(names) + DataWrites(rows))
    ensures forall i, j :: 0 <= i < j < |HeaderWrites(names) + DataWrites(rows)| ==>
      var log := HeaderWrites(names) + DataWrites(rows);
      (log[i].row, log[i].col) != (log[j].row, log[j].col)
  {
    var h, d := HeaderWrites(names), DataWrites(rows);
    DataWritesRowMajor(rows);
    DataWritesBelowHeader(rows);
    assert forall i, j :: 0 <= i < |h| <= j < |h| + |d| ==> Precedes((h + d)[i], (h + d)[j]);
  }

  /** The layout of a result set's log: the header cells come first, and
      everything after them is on a data row, below row 0, and not in the
      header format. Where each data
      cell lands is `LayoutAt`. */
  lemma WriteLogLayout(names: seq<string>, rows: seq<seq<Value>>)
    ensures |HeaderWrites(names) + DataWrites(rows)| == |names| + CellCount(rows)
    ensures forall k :: 0 <= k < |names| ==>
      (HeaderWrites(names) + DataWrites(rows))[k] == CellWrite(0, k, Text(names[k]), HeaderFormat)
    ensures forall k :: |names| <= k < |names| + CellCount(rows) ==>
      1 <= (HeaderWrites(names) + DataWrites(rows))[k].row <= |rows| &&
      (HeaderWrites(names) + DataWrites(rows))[k].format != HeaderFormat
  {
    var h, d := HeaderWrites(names), DataWrites(rows);
    var log := h + d;
    DataWritesLength(rows);
    assert |h| == |names| && |log| == |names| + CellCount(rows);
    forall k | 0 <= k < |names|
      ensures log[k] == CellWrite(0, k, Text(names[k]), HeaderFormat)
    {
      assert log[k] == h[k];
    }
    DataWritesBelowHeader(rows);
    forall k | |names| <= k < |names| + CellCount(rows)
      ensures 1 <= log[k].row <= |rows| && log[k].format != HeaderFormat
    {
      assert log[k] == d[k - |names|];
    }
  }

  /** Cell `j` of result row `i` is the write at position
      `|names| + CellCount(rows[..i]) + j` of the whole log. */
  lemma LayoutAt(names: seq<string>, rows: seq<seq<Value>>, i: nat, j: nat)
    requires i < |rows| && j < |rows[i]|
    ensures |HeaderWrites(names) + DataWrites(rows)| == |names| + CellCount(rows)
    ensures |names| + CellCount(rows[..i]) + j < |names| + CellCount(rows)
    ensures (HeaderWrites(names) + DataWrites(rows))[|names| + CellCount(rows[..i]) + j]
        == CellWrite(i + 1, j, rows[i][j], Classify(rows[i][j]).format)
  {
    var h, d := HeaderWrites(names), DataWrites(rows);
    DataWritesLength(rows);
    DataWriteAt(rows, i, j);
    var x := CellCount(rows[..i]) + j;
    assert (h + d)[|h| + x] == d[x];
  }

  // ---------------------------------------------------------------------
  // Properties of the width counters

  /** The counter is at least the name's length and at least every width a
      cell of the column contributes. */
  lemma {:induction false} TrackedIsUpperBound(name: string, rows: seq<seq<Value>>, c: nat)
    ensures Tracked(name, rows, c) >= |name|
    ensures forall i :: 0 <= i < |rows| && c < |rows[i]| ==>
      Tracked(name, rows, c) >= Classify(rows[i][c]).width
    decreases |rows|
  {
    if rows != [] {
      var front := rows[..|rows| - 1];
      TrackedIsUpperBound(name, front, c);
      assert forall i :: 0 <= i < |front| ==> front[i] == rows[i];
    }
  }

  /** The counter is the name's length or the width of some cell of the
      column: it is never larger than what was seen. */
  lemma {:induction false} TrackedIsAttained(name: string, rows: seq<seq<Value>>, c: nat)
    ensures Tracked(name, rows, c) == |name| ||
      exists i :: 0 <= i < |rows| && c < |rows[i]| && Tracked(name, rows, c) == Classify(rows[i][c]).width
    decreases |rows|
  {
    if rows != [] {
      var front := rows[..|rows| - 1];
      TrackedIsAttained(name, front, c);
      if Tracked(name, rows, c) != Tracked(name, front, c) {
        var last := |rows| - 1;
        assert c < |rows[last]| && Tracked(name, rows, c) == Classify(rows[last][c]).width;
      } else if Tracked(name, rows, c) != |name| {
        var i :| 0 <= i < |front| && c < |front[i]| && Tracked(name, front, c) == Classify(front[i][c]).width;
        assert front[i] == rows[i];
      }
    }
  }

  /** The counter never decreases as more rows are written. */
  lemma {:induction false} TrackedMonotone(name: string, rows: seq<seq<Value>>, k: nat, c: nat)
    requires k <= |rows|
    ensures Tracked(name, rows[..k], c) <= Tracked(name, rows, c)
    decreases |rows|
  {
    if k < |rows| {
      var front := rows[..|rows| - 1];
      assert front[..k] == rows[..k];
      TrackedMonotone(name, front, k, c);
    } else {
      assert rows[..k] == rows;
    }
  }

  /** The width a column ends with is the capped maximum: at least one more
      than the name and than every cell, unless that exceeds the cap, and
      exactly one more than one of them when below the cap. */
  lemma {:induction false} ColumnFitsEveryCell(name: string, rows: seq<seq<Value>>, c: nat)
    ensures FinalWidth(Tracked(name, rows, c)) >= Min(|name| + 1, MaxColumnWidth)
    ensures forall i :: 0 <= i < |rows| && c < |rows[i]| ==>
      FinalWidth(Tracked(name, rows, c)) >= Min(Classify(rows[i][c]).width + 1, MaxColumnWidth)
    ensures FinalWidth(Tracked(name, rows, c)) < MaxColumnWidth ==>
      FinalWidth(Tracked(name, rows, c)) == |name| + 1 ||
      exists i :: 0 <= i < |rows| && c < |rows[i]| &&
        FinalWidth(Tracked(name, rows, c)) == Classify(rows[i][c]).width + 1
  {
    TrackedIsUpperBound(name, rows, c);
    TrackedIsAttained(name, rows, c);
  }
}
