/**
 * The material test grid (client/src/components/TestGeneratorPanel.tsx): a square
 * of `gridSize` x `gridSize` cells, speed rising along X from column to column and
 * power rising along Y from row to row, each cell cut as a 10 mm square outline or
 * filled by one-way scan lines 0.5 mm apart, 2 mm between cells. `str` stands for
 * the way a number is written into a template string.
 */
module TestGenerator {
  import opened Text
  import opened Grid

  datatype Mode = Cut | Fill

  /** The panel's inputs; the grid size is a whole number of rows and columns. */
  datatype GridParams = GridParams(
    minSpeed: real, maxSpeed: real,
    minPower: real, maxPower: real,
    gridSize: nat, mode: Mode)

  /** The panel's initial inputs: 500..3000 mm/min, 10..80 %, 5 x 5, cut. */
  const DefaultParams := GridParams(500.0, 3000.0, 10.0, 80.0, 5, Cut)

  const CellSize: int := 10
  const Spacing: int := 2
  /** The number of scan lines of a filled cell: 0, 0.5, ... 9.5 mm. */
  const ScanCount: nat := 20

  const Header: seq<string> := ["; Laser Test Pattern", "G21", "G90", "M5", "G0 Z0"]
  const Trailer: seq<string> := ["M5", "G0 X0 Y0"]

  /**
   * The value at step `i` of a ramp from `lo` to `hi` over `n` steps. With a single
   * step the ramp stays at `lo` (see `Ramp` in README's findings).
   */
  function Ramp(lo: real, hi: real, n: nat, i: nat): real {
    if n <= 1 then lo else lo + (i as real) * ((hi - lo) / ((n - 1) as real))
  }

  /**
   * A ramp starts at its first end, reaches its second end at the last step and
   * stays between the two, rising or falling.
   */
  lemma RampBounds(lo: real, hi: real, n: nat, i: nat)
    requires i < n
    ensures Ramp(lo, hi, n, 0) == lo
    ensures n > 1 ==> Ramp(lo, hi, n, n - 1) == hi
    ensures (if lo <= hi then lo else hi) <= Ramp(lo, hi, n, i) <= (if lo <= hi then hi else lo)
  {
    if n > 1 {
      var step := (hi - lo) / ((n - 1) as real);
      assert step * ((n - 1) as real) == hi - lo;
      if lo <= hi {
        assert 0.0 <= step;
        assert (i as real) * step <= ((n - 1) as real) * step;
      } else {
        assert step < 0.0;
        assert (i as real) * step >= ((n - 1) as real) * step;
      }
    }
  }

  /** A JavaScript number, as far as the step computation needs one. */
  datatype JsNumber = Finite(v: real) | Infinity(negative: bool) | NaN

  /** `a / b`; a zero divisor is +0. */
  function JsDivide(a: real, b: real): JsNumber {
    if b != 0.0 then Finite(a / b)
    else if a == 0.0 then NaN
    else Infinity(a < 0.0)
  }

  /** `a * b` for a finite `a`. */
  function JsTimes(a: real, b: JsNumber): JsNumber {
    match b
    case Finite(v) => Finite(a * v)
    case Infinity(negative) => if a == 0.0 then NaN else Infinity(negative != (a < 0.0))
    case NaN => NaN
  }

  /** `a + b` for a finite `a`. */
  function JsPlus(a: real, b: JsNumber): JsNumber {
    match b
    case Finite(v) => Finite(a + v)
    case _ => b
  }

  /** `${x}` */
  function JsText(x: JsNumber, str: real -> string): string {
    match x
    case Finite(v) => str(v)
    case Infinity(negative) => if negative then "-Infinity" else "Infinity"
    case NaN => "NaN"
  }

  /** `Math.floor((power / 100) * 1000)` */
  function SValueAsWritten(power: JsNumber): JsNumber {
    match power
    case Finite(v) => Finite(SValue(v) as real)
    case _ => power
  }

  /** `lo + i * ((hi - lo) / (n - 1))`, the ramp as the generator writes it. */
  function RampAsWritten(lo: real, hi: real, n: nat, i: nat): JsNumber {
    JsPlus(lo, JsTimes(i as real, JsDivide(hi - lo, (n as real) - 1.0)))
  }

  /** With two or more rows and columns the ramp as written is `Ramp`. */
  lemma RampAsWrittenAgrees(lo: real, hi: real, n: nat, i: nat)
    requires n > 1
    ensures RampAsWritten(lo, hi, n, i) == Finite(Ramp(lo, hi, n, i))
  {
  }

  /**
   * A 1 x 1 grid divides by zero: the single cell's speed and power are NaN and its
   * laser line reads `M3 SNaN`, whatever the inputs.
   */
  lemma SingleCellAsWritten(p: GridParams, str: real -> string)
    requires p.gridSize == 1
    ensures RampAsWritten(p.minSpeed, p.maxSpeed, p.gridSize, 0) == NaN
    ensures RampAsWritten(p.minPower, p.maxPower, p.gridSize, 0) == NaN
    ensures "M3 S" + JsText(SValueAsWritten(RampAsWritten(p.minPower, p.maxPower, p.gridSize, 0)), str) == "M3 SNaN"
  {
  }

  /** With the ramp held at its low end, the single cell is lit at the minimum power. */
  lemma SingleCellCorrected(p: GridParams, str: real -> string)
    requires p.gridSize == 1
    ensures SpeedAt(p, 0) == p.minSpeed && PowerAt(p, 0) == p.minPower
    ensures CellText(p, 0, 0, str)[1] == "M3 S" + str(SValue(p.minPower) as real)
  {
    CellStart(p, 0, 0, str);
  }

  function SpeedAt(p: GridParams, col: nat): real {
    Ramp(p.minSpeed, p.maxSpeed, p.gridSize, col)
  }

  function PowerAt(p: GridParams, row: nat): real {
    Ramp(p.minPower, p.maxPower, p.gridSize, row)
  }

  /** The spindle value for a power percentage, 1000 being full power. */
  function SValue(power: real): int {
    (power / 100.0 * 1000.0).Floor
  }

  /** The corner of a cell: 12 mm per column and per row. */
  function CellOrigin(i: nat): int {
    i * (CellSize + Spacing)
  }

  /** Scan line `j` of a filled cell at (x, y), `j` * 0.5 mm up: a rapid to the left edge, a cut to the right. */
  function ScanLine(x: int, y: int, speed: real, j: nat, str: real -> string): seq<string> {
    var cy := (y as real) + (j as real) * 0.5;
    ["G0 X" + str(x as real) + " Y" + str(cy),
     "G1 X" + str((x + CellSize) as real) + " Y" + str(cy) + " F" + str(speed)]
  }

  /** The first `k` scan lines of a filled cell, two G-code lines each. */
  function ScanLines(x: int, y: int, speed: real, k: nat, str: real -> string): (r: seq<string>)
    ensures |r| == 2 * k
  {
    seq(2 * k, i requires 0 <= i < 2 * k => ScanLine(x, y, speed, i / 2, str)[i % 2])
  }

  /** One more scan line appends its two lines. */
  lemma ScanLinesStep(x: int, y: int, speed: real, k: nat, str: real -> string)
    ensures ScanLines(x, y, speed, k + 1, str) == ScanLines(x, y, speed, k, str) + ScanLine(x, y, speed, k, str)
  {
    var a := ScanLines(x, y, speed, k + 1, str);
    var b := ScanLines(x, y, speed, k, str) + ScanLine(x, y, speed, k, str);
    forall i | 0 <= i < 2 * k + 2
      ensures a[i] == b[i]
    {
      if i >= 2 * k {
        assert i / 2 == k;
      }
    }
  }

  /** The square outline of a cut cell, from its corner counter-clockwise back to it. */
  function Outline(x: int, y: int, speed: real, str: real -> string): seq<string> {
    [ "G0 X" + str(x as real) + " Y" + str(y as real),
      "G1 X" + str((x + CellSize) as real) + " Y" + str(y as real) + " F" + str(speed),
      "G1 X" + str((x + CellSize) as real) + " Y" + str((y + CellSize) as real) + " F" + str(speed),
      "G1 X" + str(x as real) + " Y" + str((y + CellSize) as real) + " F" + str(speed),
      "G1 X" + str(x as real) + " Y" + str(y as real) + " F" + str(speed) ]
  }

  /** What a cell draws: its outline, or a move to its corner and its scan lines. */
  function Shape(mode: Mode, x: int, y: int, speed: real, str: real -> string): seq<string> {
    match mode
    case Cut => Outline(x, y, speed, str)
    case Fill => ["G0 X" + str(x as real) + " Y" + str(y as real)] + ScanLines(x, y, speed, ScanCount, str)
  }

  /** The number of lines of one cell: 8 for an outline, 44 for a fill. */
  function CellLength(mode: Mode): nat {
    if mode == Cut then 8 else 4 + 2 * ScanCount
  }

  /** The lines of the cell in column `col` and row `row`: a comment, laser on, the shape, laser off. */
  function CellText(p: GridParams, col: nat, row: nat, str: real -> string): (r: seq<string>)
    ensures |r| == CellLength(p.mode)
  {
    var speed := SpeedAt(p, col);
    var power := PowerAt(p, row);
    var x := CellOrigin(col);
    var y := CellOrigin(row);
    ["; Cell " + str(col as real) + "," + str(row as real) + ": S" + str(speed.Floor as real)
       + " mm/min, P" + str(power.Floor as real) + "%",
     "M3 S" + str(SValue(power) as real)]
    + Shape(p.mode, x, y, speed, str)
    + ["M5"]
  }

  /** Every cell of the grid, by column and row. */
  function Cells(p: GridParams, str: real -> string): (nat, nat) -> seq<string> {
    (col: nat, row: nat) => CellText(p, col, row, str)
  }

  /** The whole program: header, every cell, laser off and back to the origin. */
  function GridLines(p: GridParams, str: real -> string): seq<string> {
    Header + Rows(Cells(p, str), p.gridSize, p.gridSize) + Trailer
  }

  /** The program has the header, `gridSize`² cells and the trailer, and nothing else. */
  lemma GridLength(p: GridParams, str: real -> string)
    ensures |GridLines(p, str)| == |Header| + p.gridSize * (p.gridSize * CellLength(p.mode)) + |Trailer|
  {
    assert forall c: nat, r: nat :: |Cells(p, str)(c, r)| == CellLength(p.mode);
    RowsLength(Cells(p, str), CellLength(p.mode), p.gridSize, p.gridSize);
  }

  /**
   * In the program, cell (`col`, `row`) follows the header, the rows below it and the
   * cells to its left, and precedes the rest of the grid and the trailer.
   */
  lemma CellPlacement(p: GridParams, col: nat, row: nat, str: real -> string)
    requires col < p.gridSize && row < p.gridSize
    ensures var cell := Cells(p, str);
      var n := p.gridSize;
      GridLines(p, str)
      == Header + Rows(cell, n, row) + RowCells(cell, row, col) + CellText(p, col, row, str)
         + RowCellsFrom(cell, row, col + 1, n) + RowsFrom(cell, n, row + 1, n) + Trailer
  {
    var cell := Cells(p, str);
    var n := p.gridSize;
    RowMajor(cell, n, n, col, row);
    var before := Rows(cell, n, row) + RowCells(cell, row, col) + cell(col, row);
    var after := RowCellsFrom(cell, row, col + 1, n) + RowsFrom(cell, n, row + 1, n);
    AppendAssoc(before, RowCellsFrom(cell, row, col + 1, n), RowsFrom(cell, n, row + 1, n));
    calc {
      GridLines(p, str);
      Header + (before + after) + Trailer;
      { AppendAssoc(Header, before, after); }
      Header + before + after + Trailer;
      { AppendAssoc(Header, Rows(cell, n, row) + RowCells(cell, row, col), cell(col, row));
        AppendAssoc(Header, Rows(cell, n, row), RowCells(cell, row, col));
        AppendAssoc(Header + before, RowCellsFrom(cell, row, col + 1, n), RowsFrom(cell, n, row + 1, n)); }
      Header + Rows(cell, n, row) + RowCells(cell, row, col) + CellText(p, col, row, str)
        + RowCellsFrom(cell, row, col + 1, n) + RowsFrom(cell, n, row + 1, n) + Trailer;
    }
  }

  /**
   * A cell opens with its comment, lights the laser at its row's power, starts at its
   * corner, 12 mm per column and per row, and ends with the laser off.
   */
  lemma CellStart(p: GridParams, col: nat, row: nat, str: real -> string)
    ensures |CellText(p, col, row, str)| > 2
    ensures StartsWith(CellText(p, col, row, str)[0], "; Cell ")
    ensures CellText(p, col, row, str)[1] == "M3 S" + str(SValue(PowerAt(p, row)) as real)
    ensures CellText(p, col, row, str)[2] == "G0 X" + str((12 * col) as real) + " Y" + str((12 * row) as real)
    ensures CellText(p, col, row, str)[CellLength(p.mode) - 1] == "M5"
  {
  }

  /**
   * After the move to its corner, a cut cell traces the 10 mm square counter-clockwise
   * and closes it at the corner.
   */
  lemma CutCellOutline(p: GridParams, col: nat, row: nat, str: real -> string)
    requires p.mode == Cut
    ensures var lines := CellText(p, col, row, str);
      var x := 12 * col;
      var y := 12 * row;
      var f := " F" + str(SpeedAt(p, col));
      && lines[3] == "G1 X" + str((x + 10) as real) + " Y" + str(y as real) + f
      && lines[4] == "G1 X" + str((x + 10) as real) + " Y" + str((y + 10) as real) + f
      && lines[5] == "G1 X" + str(x as real) + " Y" + str((y + 10) as real) + f
      && lines[6] == "G1 X" + str(x as real) + " Y" + str(y as real) + f
  {
    var lines := CellText(p, col, row, str);
    var outline := Outline(CellOrigin(col), CellOrigin(row), SpeedAt(p, col), str);
    assert lines[3] == outline[1] && lines[4] == outline[2] && lines[5] == outline[3] && lines[6] == outline[4];
  }

  /** Scan line `j` is the pair of lines at `2 * j` among the first `k`. */
  lemma ScanLinesAt(x: int, y: int, speed: real, k: nat, j: nat, str: real -> string)
    requires j < k
    ensures ScanLines(x, y, speed, k, str)[2 * j..2 * j + 2] == ScanLine(x, y, speed, j, str)
  {
    var r := ScanLines(x, y, speed, k, str);
    assert (2 * j) / 2 == j && (2 * j + 1) / 2 == j;
    assert r[2 * j] == ScanLine(x, y, speed, j, str)[0];
    assert r[2 * j + 1] == ScanLine(x, y, speed, j, str)[1];
  }

  /** Between its rapid to the corner and the final `M5`, a filled cell is its scan lines. */
  lemma FillCellBody(p: GridParams, col: nat, row: nat, str: real -> string)
    requires p.mode == Fill
    ensures CellText(p, col, row, str)[3..3 + 2 * ScanCount]
      == ScanLines(CellOrigin(col), CellOrigin(row), SpeedAt(p, col), ScanCount, str)
  {
    var text := CellText(p, col, row, str);
    var scan := ScanLines(CellOrigin(col), CellOrigin(row), SpeedAt(p, col), ScanCount, str);
    assert text[3..3 + 2 * ScanCount] == scan;
  }

  /** After the move to its corner, a filled cell sweeps scan line `j` at `j` * 0.5 mm up, for each of its 20 scan lines in turn. */
  lemma FillCellScans(p: GridParams, col: nat, row: nat, str: real -> string)
    requires p.mode == Fill
    ensures var lines := CellText(p, col, row, str);
      forall j :: 0 <= j < ScanCount ==>
        lines[3 + 2 * j..5 + 2 * j] == ScanLine(12 * col, 12 * row, SpeedAt(p, col), j, str)
  {
    var lines := CellText(p, col, row, str);
    var scan := ScanLines(CellOrigin(col), CellOrigin(row), SpeedAt(p, col), ScanCount, str);
    FillCellBody(p, col, row, str);
    forall j | 0 <= j < ScanCount
      ensures lines[3 + 2 * j..5 + 2 * j] == ScanLine(12 * col, 12 * row, SpeedAt(p, col), j, str)
    {
      ScanLinesAt(CellOrigin(col), CellOrigin(row), SpeedAt(p, col), ScanCount, j, str);
      PairInSlice(lines, 3, scan, j);
    }
  }

  /** A pair of lines inside an embedded block sits at the block's offset. */
  lemma PairInSlice(lines: seq<string>, off: nat, body: seq<string>, j: nat)
    requires off + |body| <= |lines| && lines[off..off + |body|] == body && 2 * j + 2 <= |body|
    ensures lines[off + 2 * j..off + 2 * j + 2] == body[2 * j..2 * j + 2]
  {
    assert body[2 * j] == lines[off + 2 * j] && body[2 * j + 1] == lines[off + 2 * j + 1];
  }

  /** The scan lines of a filled cell, built by stepping `fy` from 0 by 0.5 while it is below 10. */
  method FillScan(x: int, y: int, speed: real, str: real -> string) returns (lines: seq<string>)
    ensures lines == ScanLines(x, y, speed, ScanCount, str)
  {
    lines := [];
    var fy := 0.0;
    ghost var k: nat := 0;
    while fy < CellSize as real
      invariant k <= ScanCount && fy == (k as real) * 0.5
      invariant lines == ScanLines(x, y, speed, k, str)
      decreases ScanCount - k
    {
      var startX := x;
      var endX := x + CellSize;
      var currentY := (y as real) + fy;
      lines := lines + ["G0 X" + str(startX as real) + " Y" + str(currentY)];
      lines := lines + ["G1 X" + str(endX as real) + " Y" + str(currentY) + " F" + str(speed)];
      ScanLinesStep(x, y, speed, k, str);
      fy := fy + 0.5;
      k := k + 1;
    }
  }

  /** The lines of one cell, as the body of the column loop emits them. */
  method Cell(p: GridParams, col: nat, row: nat, str: real -> string) returns (lines: seq<string>)
    ensures lines == CellText(p, col, row, str)
  {
    var power := PowerAt(p, row);
    var speed := SpeedAt(p, col);
    var x := col * (CellSize + Spacing);
    var y := row * (CellSize + Spacing);
    lines := ["; Cell " + str(col as real) + "," + str(row as real) + ": S" + str(speed.Floor as real)
              + " mm/min, P" + str(power.Floor as real) + "%"];
    var sVal := (power / 100.0 * 1000.0).Floor;
    lines := lines + ["M3 S" + str(sVal as real)];
    var shape: seq<string>;
    if p.mode == Cut {
      shape := ["G0 X" + str(x as real) + " Y" + str(y as real)];
      shape := shape + ["G1 X" + str((x + CellSize) as real) + " Y" + str(y as real) + " F" + str(speed)];
      shape := shape + ["G1 X" + str((x + CellSize) as real) + " Y" + str((y + CellSize) as real) + " F" + str(speed)];
      shape := shape + ["G1 X" + str(x as real) + " Y" + str((y + CellSize) as real) + " F" + str(speed)];
      shape := shape + ["G1 X" + str(x as real) + " Y" + str(y as real) + " F" + str(speed)];
      assert shape == Outline(x, y, speed, str);
    } else {
      shape := ["G0 X" + str(x as real) + " Y" + str(y as real)];
      var scan := FillScan(x, y, speed, str);
      shape := shape + scan;
    }
    lines := lines + shape + ["M5"];
    assert lines == CellText(p, col, row, str);
  }

  /** The column loop of `generateGrid`: the cells of row `row` appended to `gcode`, left to right. */
  method EmitRow(p: GridParams, row: nat, str: real -> string, gcode: seq<string>) returns (out: seq<string>)
    ensures out == gcode + RowCells(Cells(p, str), row, p.gridSize)
  {
    ghost var cell := Cells(p, str);
    out := gcode;
    var col := 0;
    while col < p.gridSize
      invariant 0 <= col <= p.gridSize
      invariant out == gcode + RowCells(cell, row, col)
    {
      var lines := Cell(p, col, row, str);
      out := out + lines;
      AppendAssoc(gcode, RowCells(cell, row, col), cell(col, row));
      RowCellsStep(cell, row, col);
      col := col + 1;
    }
  }

  /** The row loop of `generateGrid`: every row appended to `gcode`, bottom-up. */
  method EmitRows(p: GridParams, str: real -> string, gcode: seq<string>) returns (out: seq<string>)
    ensures out == gcode + Rows(Cells(p, str), p.gridSize, p.gridSize)
  {
    ghost var cell := Cells(p, str);
    out := gcode;
    var row := 0;
    while row < p.gridSize
      invariant 0 <= row <= p.gridSize
      invariant out == gcode + Rows(cell, p.gridSize, row)
    {
      out := EmitRow(p, row, str, out);
      AppendAssoc(gcode, Rows(cell, p.gridSize, row), RowCells(cell, row, p.gridSize));
      RowsStep(cell, p.gridSize, row);
      row := row + 1;
    }
  }

  /** `generateGrid`: the header, the rows, laser off and back to the origin; the lines joined by newlines. */
  method GenerateGrid(p: GridParams, str: real -> string) returns (text: string)
    ensures text == Join(GridLines(p, str), '\n')
  {
    var gcode := Header;
    gcode := EmitRows(p, str, gcode);
    ghost var grid := gcode;
    gcode := gcode + ["M5"];
    gcode := gcode + ["G0 X0 Y0"];
    assert gcode == grid + Trailer;
    text := Join(gcode, '\n');
  }
}
