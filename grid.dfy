/**
 * The layout of the test grid's program: cells emitted row by row from the bottom,
 * left to right within a row. Generic over what each cell emits, so the order
 * is stated and proved once, apart from the contents of a cell.
 */
module Grid {
  /** The first `cols` cells of row `row`, left to right. */
  function RowCells(cell: (nat, nat) -> seq<string>, row: nat, cols: nat): seq<string> {
    if cols == 0 then [] else RowCells(cell, row, cols - 1) + cell(cols - 1, row)
  }

  /** The first `rows` rows, bottom-up, each of `n` cells. */
  function Rows(cell: (nat, nat) -> seq<string>, n: nat, rows: nat): seq<string> {
    if rows == 0 then [] else Rows(cell, n, rows - 1) + RowCells(cell, rows - 1, n)
  }

  lemma {:induction false} RowCellsLength(cell: (nat, nat) -> seq<string>, len: nat, row: nat, cols: nat)
    requires forall c: nat, r: nat :: |cell(c, r)| == len
    ensures |RowCells(cell, row, cols)| == cols * len
  {
    if cols > 0 {
      RowCellsLength(cell, len, row, cols - 1);
      assert (cols - 1) * len + len == cols * len;
    }
  }

  lemma {:induction false} RowsLength(cell: (nat, nat) -> seq<string>, len: nat, n: nat, rows: nat)
    requires forall c: nat, r: nat :: |cell(c, r)| == len
    ensures |Rows(cell, n, rows)| == rows * (n * len)
  {
    if rows > 0 {
      RowsLength(cell, len, n, rows - 1);
      RowCellsLength(cell, len, rows - 1, n);
      assert (rows - 1) * (n * len) + n * len == rows * (n * len);
    }
  }

  lemma AppendAssoc(a: seq<string>, b: seq<string>, c: seq<string>)
    ensures a + b + c == a + (b + c)
  {
  }

  lemma RowCellsStep(cell: (nat, nat) -> seq<string>, row: nat, c: nat)
    ensures RowCells(cell, row, c + 1) == RowCells(cell, row, c) + cell(c, row)
  {
  }

  lemma RowsStep(cell: (nat, nat) -> seq<string>, n: nat, r: nat)
    ensures Rows(cell, n, r + 1) == Rows(cell, n, r) + RowCells(cell, r, n)
  {
  }

  /** Cells `i` to `j - 1` of row `row`. */
  function RowCellsFrom(cell: (nat, nat) -> seq<string>, row: nat, i: nat, j: nat): seq<string>
    requires i <= j
    decreases j - i
  {
    if i == j then [] else RowCellsFrom(cell, row, i, j - 1) + cell(j - 1, row)
  }

  /** Rows `i` to `j - 1`. */
  function RowsFrom(cell: (nat, nat) -> seq<string>, n: nat, i: nat, j: nat): seq<string>
    requires i <= j
    decreases j - i
  {
    if i == j then [] else RowsFrom(cell, n, i, j - 1) + RowCells(cell, j - 1, n)
  }

  /** A row splits after any of its cells. */
  lemma {:induction false} RowCellsSplit(cell: (nat, nat) -> seq<string>, row: nat, i: nat, j: nat)
    requires i <= j
    ensures RowCells(cell, row, j) == RowCells(cell, row, i) + RowCellsFrom(cell, row, i, j)
    decreases j - i
  {
    if i < j {
      RowCellsSplit(cell, row, i, j - 1);
      AppendAssoc(RowCells(cell, row, i), RowCellsFrom(cell, row, i, j - 1), cell(j - 1, row));
    }
  }

  /** The grid splits after any of its rows. */
  lemma {:induction false} RowsSplit(cell: (nat, nat) -> seq<string>, n: nat, i: nat, j: nat)
    requires i <= j
    ensures Rows(cell, n, j) == Rows(cell, n, i) + RowsFrom(cell, n, i, j)
    decreases j - i
  {
    if i < j {
      RowsSplit(cell, n, i, j - 1);
      AppendAssoc(Rows(cell, n, i), RowsFrom(cell, n, i, j - 1), RowCells(cell, j - 1, n));
    }
  }

  /**
   * Within its row, cell (`col`, `row`) comes right after the rows below and the
   * cells to its left, and right before the rest of its row.
   */
  lemma RowPlacement(cell: (nat, nat) -> seq<string>, n: nat, col: nat, row: nat)
    requires col < n
    ensures Rows(cell, n, row + 1)
      == Rows(cell, n, row) + RowCells(cell, row, col) + cell(col, row) + RowCellsFrom(cell, row, col + 1, n)
  {
    RowsStep(cell, n, row);
    RowCellsSplit(cell, row, col + 1, n);
    RowCellsStep(cell, row, col);
    AppendAssoc(Rows(cell, n, row), RowCells(cell, row, col) + cell(col, row), RowCellsFrom(cell, row, col + 1, n));
    AppendAssoc(Rows(cell, n, row), RowCells(cell, row, col), cell(col, row));
  }

  /**
   * Row-major order: in `rows` rows of `n` cells, cell (`col`, `row`) comes right
   * after the rows below it and the cells to its left in its own row, and right
   * before the rest of its row and the rows above it.
   */
  lemma RowMajor(cell: (nat, nat) -> seq<string>, n: nat, rows: nat, col: nat, row: nat)
    requires col < n && row < rows
    ensures Rows(cell, n, rows)
      == Rows(cell, n, row) + RowCells(cell, row, col) + cell(col, row)
         + RowCellsFrom(cell, row, col + 1, n) + RowsFrom(cell, n, row + 1, rows)
  {
    RowPlacement(cell, n, col, row);
    RowsSplit(cell, n, row + 1, rows);
  }
}
