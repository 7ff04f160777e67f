/**
 * The worksheet built by the PDF upload route: extracted rows are appended
 * in order, then every column gets a presentation width derived from the
 * text of its truthy cells (server.js, `/upload-pdf`).
 */
module Workbook {
  import opened Wrappers

  /** A cell as the table extractor hands it over; None is an empty cell. */
  type Cell = Option<string>
  type Row = seq<Cell>

  /** The width a column starts from before any cell is looked at. */
  const MinContentWidth: nat := 10
  /** What is added on top of the widest cell. */
  const WidthPadding: nat := 2

  /** JavaScript truthiness of a cell value: absent cells and "" are falsy. */
  predicate Truthy(c: Cell) {
    c.Some? && c.value != ""
  }

  /** Length of the cell's text (`value.toString().length`). */
  function TextLength(c: Cell): nat {
    if c.Some? then |c.value| else 0
  }

  function Max(a: nat, b: nat): nat {
    if a < b then b else a
  }

  /** Length of the longest truthy cell, 0 when there is none. */
  function Longest(cells: seq<Cell>): (r: nat)
    ensures forall i :: 0 <= i < |cells| && Truthy(cells[i]) ==> TextLength(cells[i]) <= r
    ensures r == 0 || exists i :: 0 <= i < |cells| && Truthy(cells[i]) && TextLength(cells[i]) == r
  {
    if cells == [] then 0
    else
      var init, last := cells[..|cells| - 1], cells[|cells| - 1];
      assert forall i :: 0 <= i < |init| ==> init[i] == cells[i];
      if Truthy(last) then Max(Longest(init), TextLength(last)) else Longest(init)
  }

  /**
   * The width a column of these cells receives: the larger of 10 and the
   * longest truthy cell, plus 2.
   */
  function Width(cells: seq<Cell>): (w: nat)
    ensures w >= MinContentWidth + WidthPadding
    ensures forall i :: 0 <= i < |cells| && Truthy(cells[i]) ==> TextLength(cells[i]) + WidthPadding <= w
    ensures w == MinContentWidth + WidthPadding
         || exists i :: 0 <= i < |cells| && Truthy(cells[i]) && TextLength(cells[i]) + WidthPadding == w
  {
    Max(MinContentWidth, Longest(cells)) + WidthPadding
  }

  /** Number of columns of a sheet: the length of its longest row. */
  function ColumnCount(rows: seq<Row>): (n: nat)
    ensures forall i :: 0 <= i < |rows| ==> |rows[i]| <= n
    ensures n == 0 || exists i :: 0 <= i < |rows| && |rows[i]| == n
  {
    if rows == [] then 0
    else
      var init := rows[..|rows| - 1];
      assert forall i :: 0 <= i < |init| ==> init[i] == rows[i];
      Max(ColumnCount(init), |rows[|rows| - 1]|)
  }

  /** The cell of a row in column j; a row shorter than that has an empty cell there. */
  function CellAt(row: Row, j: nat): Cell {
    if j < |row| then row[j] else None
  }

  /** Column j of the sheet, top to bottom, empty cells included. */
  function Column(rows: seq<Row>, j: nat): seq<Cell> {
    seq(|rows|, i requires 0 <= i < |rows| => CellAt(rows[i], j))
  }

  /**
   * The widths the sheet's columns receive, left to right: one per column,
   * each at least 12, wide enough for every truthy cell of its column plus 2,
   * and either 12 or exactly some truthy cell of the column plus 2.
   */
  function ColumnWidths(rows: seq<Row>): (w: seq<nat>)
    ensures |w| == ColumnCount(rows)
    ensures forall j :: 0 <= j < |w| ==> w[j] >= MinContentWidth + WidthPadding
    ensures forall i, j :: 0 <= i < |rows| && 0 <= j < |rows[i]| && Truthy(rows[i][j]) ==>
      TextLength(rows[i][j]) + WidthPadding <= w[j]
    ensures forall j :: 0 <= j < |w| ==>
      (w[j] == MinContentWidth + WidthPadding ||
       exists i :: 0 <= i < |rows| && j < |rows[i]| && Truthy(rows[i][j]) && TextLength(rows[i][j]) + WidthPadding == w[j])
  {
    var w := seq(ColumnCount(rows), (j: int) requires 0 <= j => Width(Column(rows, j)));
    assert forall i, j :: 0 <= i < |rows| && 0 <= j < |rows[i]| ==> Column(rows, j)[i] == rows[i][j];
    w
  }

  lemma LongestSnoc(cells: seq<Cell>, c: Cell)
    ensures Longest(cells + [c]) == if Truthy(c) then Max(Longest(cells), TextLength(c)) else Longest(cells)
  {
  }

  /** A falsy cell, wherever it stands in a column, never changes the column's width. */
  lemma {:induction false} FalsyCellKeepsWidth(above: seq<Cell>, c: Cell, below: seq<Cell>)
    requires !Truthy(c)
    ensures Width(above + [c] + below) == Width(above + below)
  {
    FalsyCellKeepsLongest(above, c, below);
  }

  lemma {:induction false} FalsyCellKeepsLongest(above: seq<Cell>, c: Cell, below: seq<Cell>)
    requires !Truthy(c)
    ensures Longest(above + [c] + below) == Longest(above + below)
    decreases |below|
  {
    if below == [] {
      assert above + [c] + below == above + [c];
      assert above + below == above;
      LongestSnoc(above, c);
    } else {
      var init, last := below[..|below| - 1], below[|below| - 1];
      FalsyCellKeepsLongest(above, c, init);
      assert above + [c] + below == (above + [c] + init) + [last];
      assert above + below == (above + init) + [last];
      LongestSnoc(above + [c] + init, last);
      LongestSnoc(above + init, last);
    }
  }

  /** Adding a cell anywhere in a column never makes the column narrower. */
  lemma CellNeverShrinksWidth(above: seq<Cell>, c: Cell, below: seq<Cell>)
    ensures Width(above + below) <= Width(above + [c] + below)
  {
    var small, big := above + below, above + [c] + below;
    var w := Width(small);
    if w != MinContentWidth + WidthPadding {
      var i :| 0 <= i < |small| && Truthy(small[i]) && TextLength(small[i]) + WidthPadding == w;
      var k := if i < |above| then i else i + 1;
      assert big[k] == small[i];
    }
  }

  /** Appending a row never removes a column and never makes a column narrower. */
  lemma AddedRowNeverShrinksWidths(rows: seq<Row>, row: Row, j: nat)
    requires j < ColumnCount(rows)
    ensures ColumnCount(rows) <= ColumnCount(rows + [row])
    ensures ColumnWidths(rows)[j] <= ColumnWidths(rows + [row])[j]
  {
  }

  /**
   * The `eachCell` pass over one column: start at 10 and raise the running
   * maximum to the text length of every truthy cell.
   */
  method MaxCellLength(cells: seq<Cell>) returns (maxLength: nat)
    ensures maxLength + WidthPadding == Width(cells)
  {
    maxLength := MinContentWidth;
    for i := 0 to |cells|
      invariant maxLength == Max(MinContentWidth, Longest(cells[..i]))
    {
      assert cells[..i + 1] == cells[..i] + [cells[i]];
      LongestSnoc(cells[..i], cells[i]);
      if Truthy(cells[i]) {
        maxLength := Max(maxLength, |cells[i].value|);
      }
    }
    assert cells[..|cells|] == cells;
  }

  /** A worksheet: the rows added so far and the widths given to its columns. */
  class Worksheet {
    const name: string
    var rows: seq<Row>
    var widths: seq<nat>

    constructor (name: string)
      ensures this.name == name && rows == [] && widths == []
    {
      this.name := name;
      rows := [];
      widths := [];
    }

    /** `sheet.addRow(row)`: the row goes after all rows added before it. */
    method AddRow(row: Row)
      modifies this`rows
      ensures rows == old(rows) + [row]
    {
      rows := rows + [row];
    }

    /**
     * The auto-fit pass: every column's width is set from its cells. A sheet
     * in which no cell was ever created has no column list at all, and
     * iterating it fails (false) before any width is set.
     */
    method FitColumns() returns (ok: bool)
      modifies this`widths
      ensures ok <==> ColumnCount(rows) > 0
      ensures ok ==> widths == ColumnWidths(rows)
      ensures !ok ==> widths == old(widths)
    {
      var n := ColumnCount(rows);
      if n == 0 {
        return false;
      }
      ok := true;
      widths := [];
      for j := 0 to n
        invariant |widths| == j
        invariant forall k :: 0 <= k < j ==> widths[k] == Width(Column(rows, k))
      {
        var maxLength := MaxCellLength(Column(rows, j));
        widths := widths + [maxLength + WidthPadding];
      }
    }
  }
}
