/**
 * The preview parser of the G-code viewer
 * (client/src/components/Visualizer/GCodeViewer.tsx): each line moves the
 * current point by its X, Y and Z words and, when it has any, the point is added
 * to the cut path or to the travel path depending on the modal G0/G1 state.
 * Rendering the two paths is not modelled. `num` stands for `parseFloat`.
 */
module GCodeViewer {
  import opened Text

  datatype Vec3 = Vec3(x: real, y: real, z: real)

  /** The current point and whether the line has moved it. */
  datatype Cursor = Cursor(pos: Vec3, moved: bool)

  /** The parser's state: current point, modal cut flag, and the two point lists. */
  datatype ViewState = ViewState(pos: Vec3, isCut: bool, moves: seq<Vec3>, cuts: seq<Vec3>)

  const Start := ViewState(Vec3(0.0, 0.0, 0.0), false, [], [])

  /**
   * The modal state after a line, tested on the line as written: `G0` anywhere
   * (so also `G01`) means travel; else `G1`, `G2` or `G3` means cut; else unchanged.
   */
  function CutMode(isCut: bool, line: string): bool {
    if Contains(line, "G0") then false
    else if Contains(line, "G1") || Contains(line, "G2") || Contains(line, "G3") then true
    else isCut
  }

  /** `line.toUpperCase().split(' ')` */
  function Words(line: string): seq<string> {
    Split(ToUpper(line), ' ')
  }

  /** One word: an X, Y or Z word sets that coordinate to the number after its letter. */
  function ApplyWord(c: Cursor, p: string, num: string -> real): Cursor {
    var c1 := if StartsWith(p, "X") then Cursor(c.pos.(x := num(p[1..])), true) else c;
    var c2 := if StartsWith(p, "Y") then Cursor(c1.pos.(y := num(p[1..])), true) else c1;
    if StartsWith(p, "Z") then Cursor(c2.pos.(z := num(p[1..])), true) else c2
  }

  /** The words of a line applied left to right. */
  function ApplyWords(c: Cursor, ps: seq<string>, num: string -> real): Cursor
    decreases |ps|
  {
    if ps == [] then c else ApplyWord(ApplyWords(c, ps[..|ps| - 1], num), ps[|ps| - 1], num)
  }

  predicate IsCoordinateWord(p: string) {
    StartsWith(p, "X") || StartsWith(p, "Y") || StartsWith(p, "Z")
  }

  predicate HasCoordinateWord(ps: seq<string>) {
    exists k :: 0 <= k < |ps| && IsCoordinateWord(ps[k])
  }

  /**
   * Upper-casing makes the letter test case-insensitive: a word of the line as
   * written is a coordinate word exactly when it starts with x, y or z in either case.
   */
  lemma CoordinateWordAnyCase(w: string)
    ensures IsCoordinateWord(ToUpper(w)) <==> w != [] && w[0] in "xXyYzZ"
  {
    UpperInitial(w, 'X');
    UpperInitial(w, 'Y');
    UpperInitial(w, 'Z');
    assert "X" == ['X'] && "Y" == ['Y'] && "Z" == ['Z'];
  }

  /** A line moves the point exactly when one of its words is a coordinate word. */
  lemma {:induction false} ApplyWordsMoved(c: Cursor, ps: seq<string>, num: string -> real)
    ensures ApplyWords(c, ps, num).moved == (c.moved || HasCoordinateWord(ps))
    decreases |ps|
  {
    if ps != [] {
      var n := |ps| - 1;
      ApplyWordsMoved(c, ps[..n], num);
      assert forall k :: 0 <= k < n ==> ps[..n][k] == ps[k];
      if HasCoordinateWord(ps) && !IsCoordinateWord(ps[n]) {
        var k :| 0 <= k < |ps| && IsCoordinateWord(ps[k]);
        assert ps[..n][k] == ps[k];
      }
    }
  }

  /** A line without an X word carries x over. */
  lemma {:induction false} NoXWordKeepsX(c: Cursor, ps: seq<string>, num: string -> real)
    requires forall k :: 0 <= k < |ps| ==> !StartsWith(ps[k], "X")
    ensures ApplyWords(c, ps, num).pos.x == c.pos.x
    decreases |ps|
  {
    if ps != [] {
      var n := |ps| - 1;
      assert forall k :: 0 <= k < n ==> ps[..n][k] == ps[k];
      NoXWordKeepsX(c, ps[..n], num);
    }
  }

  /** The last X word of a line sets x, whatever X words came before it. */
  lemma {:induction false} LastXWordWins(c: Cursor, ps: seq<string>, k: nat, num: string -> real)
    requires k < |ps| && StartsWith(ps[k], "X")
    requires forall j :: k < j < |ps| ==> !StartsWith(ps[j], "X")
    ensures ApplyWords(c, ps, num).pos.x == num(ps[k][1..])
    decreases |ps|
  {
    var n := |ps| - 1;
    if k < n {
      assert forall j :: k < j < n ==> ps[..n][j] == ps[j];
      LastXWordWins(c, ps[..n], k, num);
    }
  }

  /** One line: the modal state, then the words; a point is recorded only when the line moved it. */
  function Step(st: ViewState, line: string, num: string -> real): ViewState {
    var isCut := CutMode(st.isCut, line);
    var c := ApplyWords(Cursor(st.pos, false), Words(line), num);
    if !c.moved then st.(pos := c.pos, isCut := isCut)
    else if isCut then ViewState(c.pos, isCut, st.moves, st.cuts + [c.pos])
    else ViewState(c.pos, isCut, st.moves + [c.pos], st.cuts)
  }

  /** The parser's state after the lines, from the origin in travel mode. */
  function Parse(lines: seq<string>, num: string -> real): ViewState
    decreases |lines|
  {
    if lines == [] then Start else Step(Parse(lines[..|lines| - 1], num), lines[|lines| - 1], num)
  }

  /** The number of lines that carry a coordinate word. */
  function MovingLines(lines: seq<string>): (n: nat)
    ensures n <= |lines|
  {
    if lines == [] then 0
    else MovingLines(lines[..|lines| - 1]) + (if HasCoordinateWord(Words(lines[|lines| - 1])) then 1 else 0)
  }

  /** Every line with a coordinate word yields exactly one point, on one of the two paths. */
  lemma {:induction false} OnePointPerMovingLine(lines: seq<string>, num: string -> real)
    ensures |Parse(lines, num).moves| + |Parse(lines, num).cuts| == MovingLines(lines)
    decreases |lines|
  {
    if lines != [] {
      var n := |lines| - 1;
      OnePointPerMovingLine(lines[..n], num);
      ApplyWordsMoved(Cursor(Parse(lines[..n], num).pos, false), Words(lines[n]), num);
    }
  }

  /** Points are only ever appended: the paths of a prefix are prefixes of the paths. */
  lemma {:induction false} PathsGrowInLineOrder(lines: seq<string>, i: nat, num: string -> real)
    requires i <= |lines|
    ensures var a := Parse(lines[..i], num);
      var b := Parse(lines, num);
      && |a.moves| <= |b.moves| && b.moves[..|a.moves|] == a.moves
      && |a.cuts| <= |b.cuts| && b.cuts[..|a.cuts|] == a.cuts
    decreases |lines|
  {
    if i == |lines| {
      assert lines[..i] == lines;
    } else {
      var n := |lines| - 1;
      PathsGrowInLineOrder(lines[..n], i, num);
      assert lines[..n][..i] == lines[..i];
    }
  }

  /** `G01` is travel, like `G0`; a lower-case `g1` does not switch to cutting. */
  lemma ModalExamples()
    ensures !CutMode(true, "G01 X5")
    ensures CutMode(false, "G1 X5")
    ensures !CutMode(false, "g1 x5")
  {
    assert StartsWith("G01 X5", "G0");
    assert StartsWith("G1 X5", "G1");
    ContainsFirstChar("G1 X5"[1..], "G0");
    ContainsFirstChar("g1 x5", "G0");
    ContainsFirstChar("g1 x5", "G1");
    ContainsFirstChar("g1 x5", "G2");
    ContainsFirstChar("g1 x5", "G3");
  }

  /** The `useMemo` parser: every line, in order; the words of each line, in order. */
  method ParseGCode(gcode: seq<string>, num: string -> real) returns (moves: seq<Vec3>, cuts: seq<Vec3>)
    ensures moves == Parse(gcode, num).moves && cuts == Parse(gcode, num).cuts
  {
    moves, cuts := [], [];
    var cx, cy, cz := 0.0, 0.0, 0.0;
    var isCut := false;
    var i := 0;
    while i < |gcode|
      invariant 0 <= i <= |gcode|
      invariant Parse(gcode[..i], num) == ViewState(Vec3(cx, cy, cz), isCut, moves, cuts)
    {
      var line := gcode[i];
      var parts := Split(ToUpper(line), ' ');
      var hasMove := false;
      if Contains(line, "G0") {
        isCut := false;
      } else if Contains(line, "G1") || Contains(line, "G2") || Contains(line, "G3") {
        isCut := true;
      }
      var j := 0;
      while j < |parts|
        invariant 0 <= j <= |parts|
        invariant ApplyWords(Cursor(Parse(gcode[..i], num).pos, false), parts[..j], num) == Cursor(Vec3(cx, cy, cz), hasMove)
      {
        var p := parts[j];
        assert parts[..j + 1][..j] == parts[..j];
        if StartsWith(p, "X") {
          cx := num(p[1..]);
          hasMove := true;
        }
        if StartsWith(p, "Y") {
          cy := num(p[1..]);
          hasMove := true;
        }
        if StartsWith(p, "Z") {
          cz := num(p[1..]);
          hasMove := true;
        }
        j := j + 1;
      }
      assert parts[..j] == parts;
      if hasMove {
        if isCut {
          cuts := cuts + [Vec3(cx, cy, cz)];
        } else {
          moves := moves + [Vec3(cx, cy, cz)];
        }
      }
      assert gcode[..i + 1][..i] == gcode[..i];
      i := i + 1;
    }
    assert gcode[..i] == gcode;
  }
}
