/**
 * The client's top-level component (client/src/App.tsx): the status it polls from
 * the server, the G-code job it holds, and the commands it posts to `/command` for
 * the laser test and the framing of a job. Posting is modelled as appending the
 * command to `posted`; whether the server accepts it is not the client's concern,
 * as every failure is only logged. Timers are sequential steps. `str` stands for
 * the way a number is written into a template string and `num` for `parseFloat`,
 * `None` being NaN.
 */
module App {
  import opened Wrappers
  import opened Text
  import opened MachineInterface

  /** The fields of a `/status` reply, each present or absent, as `res.json()` yields them. */
  datatype Polled = Polled(
    state: Option<MachineState>,
    pos: Option<Position>,
    feedrate: Option<real>,
    spindle: Option<real>,
    logs: Option<seq<string>>,
    ports: Option<string>,
    limits: Option<Limits>,
    macros: Option<seq<string>>,
    ip: Option<string>)

  /** What the client shows: a status and the server address once a reply carried one. */
  datatype ClientStatus = ClientStatus(status: MachineStatus, ip: Option<string>)

  /** Disconnected at the origin, no feed, no spindle, no log lines. */
  const InitialClientStatus := ClientStatus(InitialStatus, None)

  /**
   * The body the server sends for `/status`: the controller's whole status plus the
   * address, or only the Disconnected state plus the address. Absent optional fields
   * are left out of the JSON text.
   */
  function Received(report: Option<MachineStatus>, ip: string): (d: Polled)
    ensures d.ip == Some(ip) && d.state.Some?
    ensures report.None? ==> d == Polled(Some(Disconnected), None, None, None, None, None, None, None, Some(ip))
  {
    match report
    case None => Polled(Some(Disconnected), None, None, None, None, None, None, None, Some(ip))
    case Some(s) =>
      Polled(Some(s.state), Some(s.pos), Some(s.feedrate), Some(s.spindle), Some(s.logs),
             s.ports, s.limits, s.macros, Some(ip))
  }

  function OrElse<T>(a: Option<T>, b: Option<T>): Option<T> {
    if a.Some? then a else b
  }

  /**
   * `{ ...prev, ...data, pos: data.pos || prev.pos || origin }`: every field the reply
   * carries replaces the previous one. The client status always has a position, so
   * the last fallback is never taken.
   */
  function Overlay(prev: ClientStatus, data: Polled): (r: ClientStatus)
    ensures r.status.state == data.state.GetOr(prev.status.state)
    ensures r.status.pos == data.pos.GetOr(prev.status.pos)
    ensures r.status.feedrate == data.feedrate.GetOr(prev.status.feedrate)
    ensures r.status.spindle == data.spindle.GetOr(prev.status.spindle)
    ensures r.status.logs == data.logs.GetOr(prev.status.logs)
    ensures r.status.ports == OrElse(data.ports, prev.status.ports)
    ensures r.status.limits == OrElse(data.limits, prev.status.limits)
    ensures r.status.macros == OrElse(data.macros, prev.status.macros)
    ensures r.ip == OrElse(data.ip, prev.ip)
  {
    var s := prev.status;
    ClientStatus(
      MachineStatus(
        data.state.GetOr(s.state),
        data.pos.GetOr(s.pos),
        data.feedrate.GetOr(s.feedrate),
        data.spindle.GetOr(s.spindle),
        data.logs.GetOr(s.logs),
        OrElse(data.ports, s.ports),
        OrElse(data.limits, s.limits),
        OrElse(data.macros, s.macros)),
      OrElse(data.ip, prev.ip))
  }

  /**
   * A connected machine's report replaces the whole status, except that a pin state,
   * limits or macros the report lacks are kept from before.
   */
  lemma PollConnected(prev: ClientStatus, s: MachineStatus, ip: string)
    ensures var r := Overlay(prev, Received(Some(s), ip));
      && r.status == s.(ports := OrElse(s.ports, prev.status.ports),
                        limits := OrElse(s.limits, prev.status.limits),
                        macros := OrElse(s.macros, prev.status.macros))
      && r.ip == Some(ip)
  {
  }

  /** A report carrying every optional field is shown exactly as sent. */
  lemma PollComplete(prev: ClientStatus, s: MachineStatus, ip: string)
    requires s.ports.Some? && s.limits.Some? && s.macros.Some?
    ensures Overlay(prev, Received(Some(s), ip)) == ClientStatus(s, Some(ip))
  {
    PollConnected(prev, s, ip);
  }

  /** Without a machine only the state changes: position, log and the rest stay as last seen. */
  lemma PollDisconnected(prev: ClientStatus, ip: string)
    ensures Overlay(prev, Received(None, ip)) == ClientStatus(prev.status.(state := Disconnected), Some(ip))
  {
  }

  /** Polling the same reply twice shows what polling it once shows. */
  lemma OverlayIdempotent(prev: ClientStatus, data: Polled)
    ensures Overlay(Overlay(prev, data), data) == Overlay(prev, data)
  {
  }

  /** `Math.floor((powerPct / 100) * 1000)` */
  function LaserS(powerPct: real): int {
    (powerPct / 100.0 * 1000.0).Floor
  }

  /** `M3 S<S>` when S is positive, else `M5`. */
  function LaserCommand(powerPct: real): (cmd: string)
    ensures cmd == "M5" <==> LaserS(powerPct) <= 0
  {
    if LaserS(powerPct) > 0 then "M3 S" + IntText(LaserS(powerPct)) else "M5"
  }

  /** The laser is fired for any power of a tenth of a percent or more, and turned off below that. */
  lemma LaserThreshold(powerPct: real)
    ensures LaserCommand(powerPct) == "M5" <==> powerPct < 0.1
  {
    if powerPct >= 0.1 {
      assert powerPct / 100.0 * 1000.0 >= 1.0;
    } else {
      assert powerPct / 100.0 * 1000.0 < 1.0;
    }
  }

  /** The S word of a firing command reads back as a thousand times the power fraction, rounded down. */
  lemma LaserSWord(powerPct: real)
    requires powerPct >= 0.1
    ensures var cmd := LaserCommand(powerPct);
      && StartsWith(cmd, "M3 S")
      && (forall k :: 4 <= k < |cmd| ==> IsDigit(cmd[k]))
      && DigitsValue(cmd[4..]) == LaserS(powerPct)
  {
    LaserThreshold(powerPct);
    var s := LaserS(powerPct);
    var cmd := LaserCommand(powerPct);
    assert cmd == "M3 S" + NatText(s);
    assert cmd[4..] == NatText(s);
    DigitsValueOfNatText(s);
  }

  /** The commands of a laser test: the firing command, then `M5` once the duration has elapsed. */
  function LaserTestCommands(powerPct: real, duration: real): (cmds: seq<string>)
    ensures |cmds| == if duration > 0.0 then 2 else 1
    ensures cmds[0] == LaserCommand(powerPct)
    ensures duration > 0.0 ==> cmds[1] == "M5"
  {
    [LaserCommand(powerPct)] + (if duration > 0.0 then ["M5"] else [])
  }

  /** A character of `[\d.-]`. */
  predicate IsNumChar(c: char) {
    IsDigit(c) || c == '.' || c == '-'
  }

  /** The longest prefix of `s` made of `[\d.-]` characters (the greedy `[\d.-]+`). */
  function NumRun(s: string): (r: string)
    ensures |r| <= |s| && r == s[..|r|]
    ensures forall k :: 0 <= k < |r| ==> IsNumChar(r[k])
    ensures |r| < |s| ==> !IsNumChar(s[|r|])
  {
    if s != [] && IsNumChar(s[0]) then [s[0]] + NumRun(s[1..]) else []
  }

  /** The pattern `letter[\d.-]` begins at `i`. */
  predicate MatchesAt(s: string, letter: char, i: nat) {
    i + 1 < |s| && s[i] == letter && IsNumChar(s[i + 1])
  }

  /** The leftmost position at or after `i` where the pattern begins. */
  function FirstMatch(s: string, letter: char, i: nat): (r: Option<nat>)
    ensures r.Some? ==> i <= r.value && MatchesAt(s, letter, r.value)
    ensures r.Some? ==> forall j :: i <= j < r.value ==> !MatchesAt(s, letter, j)
    ensures r.None? ==> forall j :: i <= j ==> !MatchesAt(s, letter, j)
    decreases |s| - i
  {
    if i + 1 >= |s| then None
    else if MatchesAt(s, letter, i) then Some(i)
    else FirstMatch(s, letter, i + 1)
  }

  /**
   * `/X([\d.-]+)/.exec(line)` and its group, for the letter `X` or `Y`: absent when
   * the letter is never followed by such a character, otherwise the run after the
   * leftmost letter that is.
   */
  function Capture(line: string, letter: char): (r: Option<string>)
    ensures r.None? <==> forall j :: 0 <= j < |line| ==> !MatchesAt(line, letter, j)
    ensures r.Some? ==> r.value != [] && forall k :: 0 <= k < |r.value| ==> IsNumChar(r.value[k])
  {
    match FirstMatch(line, letter, 0)
    case None => None
    case Some(i) => Some(NumRun(line[i + 1..]))
  }

  /** The group is the whole run of number characters after the leftmost matching letter. */
  lemma CaptureAt(line: string, letter: char, i: nat)
    requires MatchesAt(line, letter, i)
    requires forall j :: 0 <= j < i ==> !MatchesAt(line, letter, j)
    ensures Capture(line, letter) == Some(NumRun(line[i + 1..]))
  {
    var f := FirstMatch(line, letter, 0);
  }

  /** `G0 X1.5` gives 1.5 for X. */
  lemma CaptureExampleX()
    ensures Capture("G0 X1.5", 'X') == Some("1.5")
  {
    CaptureAt("G0 X1.5", 'X', 3);
    assert "G0 X1.5"[4..] == "1.5";
    assert NumRun("5") == "5";
    assert NumRun(".5") == ".5";
    assert NumRun("1.5") == "1.5";
  }

  /** `G1 X10.5 Y-3` gives -3 for Y. */
  lemma CaptureExampleY()
    ensures Capture("G1 X10.5 Y-3", 'Y') == Some("-3")
  {
    CaptureAt("G1 X10.5 Y-3", 'Y', 9);
    assert "G1 X10.5 Y-3"[10..] == "-3";
    assert NumRun("-3") == "-3";
  }

  /** An `X` not followed by a number character is passed over. */
  lemma CaptureExampleSkip()
    ensures Capture("XA X7", 'X') == Some("7")
  {
    CaptureAt("XA X7", 'X', 3);
    assert "XA X7"[4..] == "7";
    assert NumRun("7") == "7";
  }

  /** The pattern is case-sensitive: `x` is not `X`. */
  lemma CaptureExampleCase()
    ensures Capture("g1 x5", 'X') == None
  {
  }

  /** The number a line gives for a letter, if the pattern matches and the text parses. */
  function ValueOf(line: string, letter: char, num: string -> Option<real>): Option<real> {
    match Capture(line, letter)
    case None => None
    case Some(t) => num(t)
  }

  function Present(v: Option<real>): seq<real> {
    if v.Some? then [v.value] else []
  }

  /** The numbers found after `letter` on every line, in line order. */
  function Values(lines: seq<string>, letter: char, num: string -> Option<real>): seq<real>
    decreases |lines|
  {
    if lines == [] then []
    else Values(lines[..|lines| - 1], letter, num) + Present(ValueOf(lines[|lines| - 1], letter, num))
  }

  /** The least and greatest of some numbers. */
  datatype Span = Span(lo: real, hi: real)

  /** The span once `v` is taken into account: `if (v < min) min = v; if (v > max) max = v`. */
  function Extend(b: Option<Span>, v: real): Option<Span> {
    match b
    case None => Some(Span(v, v))
    case Some(s) => Some(Span(if v < s.lo then v else s.lo, if v > s.hi then v else s.hi))
  }

  /** The running minimum and maximum over `vs`; `None` while nothing was seen (both still infinite). */
  function Bounds(vs: seq<real>): Option<Span>
    decreases |vs|
  {
    if vs == [] then None else Extend(Bounds(vs[..|vs| - 1]), vs[|vs| - 1])
  }

  /**
   * The bounds exist exactly when there is a number; then both are among the numbers
   * and every number lies between them.
   */
  lemma {:induction false} BoundsTight(vs: seq<real>)
    ensures Bounds(vs).None? <==> vs == []
    ensures Bounds(vs).Some? ==>
      var b := Bounds(vs).value;
      && b.lo in vs && b.hi in vs
      && forall k :: 0 <= k < |vs| ==> b.lo <= vs[k] <= b.hi
    decreases |vs|
  {
    if vs != [] {
      var n := |vs| - 1;
      BoundsTight(vs[..n]);
      assert vs == vs[..n] + [vs[n]];
      if vs[..n] != [] {
        var a := Bounds(vs[..n]).value;
        assert a.lo in vs && a.hi in vs;
      }
    }
  }

  function Rapid(x: real, y: real, str: real -> string): string {
    "G0 X" + str(x) + " Y" + str(y)
  }

  /** The corners the frame visits, as (x, y): around the box and back to the first. */
  function Corners(sx: Span, sy: Span): seq<(real, real)> {
    [(sx.lo, sy.lo), (sx.lo, sy.hi), (sx.hi, sy.hi), (sx.hi, sy.lo), (sx.lo, sy.lo)]
  }

  /** Low power on, a rapid move to each corner in turn, laser off. */
  function FrameCommands(sx: Span, sy: Span, str: real -> string): (cmds: seq<string>)
    ensures |cmds| == 7 && cmds[0] == "M3 S10" && cmds[6] == "M5"
    ensures forall k :: 0 <= k < 5 ==> cmds[k + 1] == Rapid(Corners(sx, sy)[k].0, Corners(sx, sy)[k].1, str)
  {
    var c := Corners(sx, sy);
    ["M3 S10"] + seq(5, k requires 0 <= k < 5 => Rapid(c[k].0, c[k].1, str)) + ["M5"]
  }

  /**
   * The frame is a closed rectangle: it ends where it starts, each move changes only
   * one coordinate, and it visits all four corners of the box.
   */
  lemma FrameIsClosedRectangle(sx: Span, sy: Span)
    ensures var c := Corners(sx, sy);
      && c[0] == c[4]
      && (forall k :: 0 <= k < 4 ==> c[k].0 == c[k + 1].0 || c[k].1 == c[k + 1].1)
      && (set k | 0 <= k < 5 :: c[k]) == {(sx.lo, sy.lo), (sx.lo, sy.hi), (sx.hi, sy.hi), (sx.hi, sy.lo)}
  {
    var c := Corners(sx, sy);
    assert c[0] == (sx.lo, sy.lo) && c[1] == (sx.lo, sy.hi) && c[2] == (sx.hi, sy.hi) && c[3] == (sx.hi, sy.lo);
  }

  /** What `handleFrame` sends for a job: nothing for no job or no X or Y value, else the frame. */
  function FrameFor(gcode: seq<string>, str: real -> string, num: string -> Option<real>): seq<string> {
    if gcode == [] then []
    else match (Bounds(Values(gcode, 'X', num)), Bounds(Values(gcode, 'Y', num)))
      case (Some(sx), Some(sy)) => FrameCommands(sx, sy, str)
      case _ => []
  }

  /** The frame encloses every X and Y value of the job and touches the extreme ones. */
  lemma FrameEnclosesJob(gcode: seq<string>, str: real -> string, num: string -> Option<real>)
    requires FrameFor(gcode, str, num) != []
    ensures var xs := Values(gcode, 'X', num);
      var ys := Values(gcode, 'Y', num);
      var sx := Bounds(xs).value;
      var sy := Bounds(ys).value;
      && FrameFor(gcode, str, num) == FrameCommands(sx, sy, str)
      && sx.lo in xs && sx.hi in xs && sy.lo in ys && sy.hi in ys
      && (forall k :: 0 <= k < |xs| ==> sx.lo <= xs[k] <= sx.hi)
      && (forall k :: 0 <= k < |ys| ==> sy.lo <= ys[k] <= sy.hi)
  {
    BoundsTight(Values(gcode, 'X', num));
    BoundsTight(Values(gcode, 'Y', num));
  }

  /** A job without any X value, or without any Y value, is not framed. */
  lemma NoFrameWithoutBothAxes(gcode: seq<string>, str: real -> string, num: string -> Option<real>)
    requires Values(gcode, 'X', num) == [] || Values(gcode, 'Y', num) == []
    ensures FrameFor(gcode, str, num) == []
  {
    BoundsTight(Values(gcode, 'X', num));
    BoundsTight(Values(gcode, 'Y', num));
  }

  lemma ValuesStep(lines: seq<string>, i: nat, letter: char, num: string -> Option<real>)
    requires i < |lines|
    ensures Values(lines[..i + 1], letter, num) == Values(lines[..i], letter, num) + Present(ValueOf(lines[i], letter, num))
  {
    assert lines[..i + 1][..i] == lines[..i];
  }

  lemma BoundsStep(vs: seq<real>, v: Option<real>)
    ensures Bounds(vs + Present(v)) == if v.Some? then Extend(Bounds(vs), v.value) else Bounds(vs)
  {
    if v.Some? {
      assert (vs + [v.value])[..|vs|] == vs;
    } else {
      assert vs + Present(v) == vs;
    }
  }

  /** The bounds held in the loop's variables: `found` false stands for the infinite start values. */
  function Tracked(found: bool, lo: real, hi: real): Option<Span> {
    if found then Some(Span(lo, hi)) else None
  }

  /** `if (v < min) min = v; if (v > max) max = v;` for one parsed value, NaN (`None`) changing nothing. */
  method Track(found: bool, lo: real, hi: real, v: Option<real>) returns (found': bool, lo': real, hi': real)
    ensures Tracked(found', lo', hi') == if v.Some? then Extend(Tracked(found, lo, hi), v.value) else Tracked(found, lo, hi)
  {
    found', lo', hi' := found, lo, hi;
    if v.Some? {
      if !found || v.value < lo { lo' := v.value; }
      if !found || v.value > hi { hi' := v.value; }
      found' := true;
    }
  }

  /**
   * The scan of `handleFrame`: for every line, the number after the first `X` and
   * after the first `Y` that are followed by number characters widen the bounds.
   */
  method ScanBounds(gcode: seq<string>, num: string -> Option<real>)
    returns (foundX: bool, minX: real, maxX: real, foundY: bool, minY: real, maxY: real)
    ensures Tracked(foundX, minX, maxX) == Bounds(Values(gcode, 'X', num))
    ensures Tracked(foundY, minY, maxY) == Bounds(Values(gcode, 'Y', num))
  {
    foundX, minX, maxX := false, 0.0, 0.0;
    foundY, minY, maxY := false, 0.0, 0.0;
    var i := 0;
    while i < |gcode|
      invariant 0 <= i <= |gcode|
      invariant Tracked(foundX, minX, maxX) == Bounds(Values(gcode[..i], 'X', num))
      invariant Tracked(foundY, minY, maxY) == Bounds(Values(gcode[..i], 'Y', num))
    {
      var line := gcode[i];
      ValuesStep(gcode, i, 'X', num);
      ValuesStep(gcode, i, 'Y', num);
      BoundsStep(Values(gcode[..i], 'X', num), ValueOf(line, 'X', num));
      BoundsStep(Values(gcode[..i], 'Y', num), ValueOf(line, 'Y', num));
      var matchX := Capture(line, 'X');
      var matchY := Capture(line, 'Y');
      var vx := if matchX.Some? then num(matchX.value) else None;
      var vy := if matchY.Some? then num(matchY.value) else None;
      foundX, minX, maxX := Track(foundX, minX, maxX, vx);
      foundY, minY, maxY := Track(foundY, minY, maxY, vy);
      i := i + 1;
    }
    assert gcode[..i] == gcode;
  }

  class App {
    var status: ClientStatus
    /** The job, one entry per line. */
    var gcode: seq<string>
    var activeTab: Option<string>
    /** Every command posted to `/command`, in order. */
    var posted: seq<string>
    /** Every alert shown, in order. */
    var alerts: seq<string>

    constructor ()
      ensures status == InitialClientStatus && gcode == [] && activeTab == Some("connection")
      ensures posted == [] && alerts == []
    {
      status := InitialClientStatus;
      gcode := [];
      activeTab := Some("connection");
      posted := [];
      alerts := [];
    }

    /** Stores the generated program as its lines and switches to the job view. */
    method GcodeGenerated(generated: string)
      modifies this
      ensures gcode == Split(generated, '\n') && Join(gcode, '\n') == generated
      ensures activeTab == Some("gcode")
      ensures status == old(status) && posted == old(posted) && alerts == old(alerts)
    {
      gcode := Split(generated, '\n');
      activeTab := Some("gcode");
      JoinSplit(generated, '\n');
    }

    /** One poll: the reply, or `None` when the request or its JSON failed, which changes nothing. */
    method FetchStatus(reply: Option<Polled>)
      modifies this
      ensures status == if reply.Some? then Overlay(old(status), reply.value) else old(status)
      ensures gcode == old(gcode) && activeTab == old(activeTab) && posted == old(posted) && alerts == old(alerts)
    {
      if reply.Some? {
        status := Overlay(status, reply.value);
      }
    }

    /** `handleCommand`: posts the command. */
    method Command(cmd: string)
      modifies this
      ensures posted == old(posted) + [cmd]
      ensures status == old(status) && gcode == old(gcode) && activeTab == old(activeTab) && alerts == old(alerts)
    {
      posted := posted + [cmd];
    }

    /** Fires the laser at the given power, and turns it off again after a positive duration. */
    method LaserTest(powerPct: real, duration: real)
      modifies this
      ensures posted == old(posted) + LaserTestCommands(powerPct, duration)
      ensures status == old(status) && gcode == old(gcode) && activeTab == old(activeTab) && alerts == old(alerts)
    {
      var sVal := (powerPct / 100.0 * 1000.0).Floor;
      var cmd := if sVal > 0 then "M3 S" + IntText(sVal) else "M5";
      Command(cmd);
      if duration > 0.0 {
        Command("M5");
      }
    }

    /**
     * Frames the job: scans every line for its X and Y numbers, then sends the
     * frame one command after another, or alerts when an axis has no number.
     */
    method Frame(str: real -> string, num: string -> Option<real>)
      modifies this
      ensures posted == old(posted) + FrameFor(gcode, str, num)
      ensures alerts == if old(gcode) != [] && FrameFor(gcode, str, num) == []
                        then old(alerts) + ["Could not determine bounds from G-code"] else old(alerts)
      ensures status == old(status) && gcode == old(gcode) && activeTab == old(activeTab)
    {
      if |gcode| == 0 {
        return;
      }
      var foundX, minX, maxX, foundY, minY, maxY := ScanBounds(gcode, num);
      if !foundX || !foundY {
        alerts := alerts + ["Could not determine bounds from G-code"];
        return;
      }
      SendAll(FrameCommands(Span(minX, maxX), Span(minY, maxY), str));
    }

    /** Posts the commands one after another, each once the previous one has been posted. */
    method SendAll(cmds: seq<string>)
      modifies this
      ensures posted == old(posted) + cmds
      ensures status == old(status) && gcode == old(gcode) && activeTab == old(activeTab) && alerts == old(alerts)
    {
      var k := 0;
      while k < |cmds|
        invariant 0 <= k <= |cmds|
        invariant posted == old(posted) + cmds[..k]
        invariant status == old(status) && gcode == old(gcode) && activeTab == old(activeTab) && alerts == old(alerts)
      {
        Command(cmds[k]);
        assert cmds[..k + 1] == cmds[..k] + [cmds[k]];
        k := k + 1;
      }
      assert cmds[..k] == cmds;
    }
  }
}
