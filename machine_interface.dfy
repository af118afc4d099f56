/**
 * The status record every controller keeps (server/src/machine/MachineInterface.ts):
 * position, machine state, feed and spindle, the operator log, and the optional
 * pin-state token, axis limits and macro list. Numbers are idealised as reals.
 */
module MachineInterface {
  import opened Wrappers
  import opened Text

  datatype Axis = X | Y | Z

  /** `axis.toUpperCase()` */
  function AxisLetter(a: Axis): char {
    match a
    case X => 'X'
    case Y => 'Y'
    case Z => 'Z'
  }

  /** The lower-case axis name used as a key (`stepper_x`, `pos[axis]`). */
  function AxisName(a: Axis): string {
    match a
    case X => "x"
    case Y => "y"
    case Z => "z"
  }

  datatype Position = Position(x: real, y: real, z: real) {
    function Get(a: Axis): real {
      match a
      case X => x
      case Y => y
      case Z => z
    }

    /** `pos[axis] = v` */
    function With(a: Axis, v: real): (p: Position)
      ensures p.Get(a) == v
      ensures forall b :: b != a ==> p.Get(b) == Get(b)
    {
      match a
      case X => this.(x := v)
      case Y => this.(y := v)
      case Z => this.(z := v)
    }
  }

  const Origin := Position(0.0, 0.0, 0.0)

  /**
   * The ten declared state names, and `Other` for a status word outside them,
   * which the serial controller stores verbatim.
   */
  datatype MachineState =
    | Idle | Run | Hold | Alarm | Door | Check | Home | Sleep | Disconnected | Connecting
    | Other(word: string)

  function StateName(s: MachineState): string {
    match s
    case Idle => "Idle"
    case Run => "Run"
    case Hold => "Hold"
    case Alarm => "Alarm"
    case Door => "Door"
    case Check => "Check"
    case Home => "Home"
    case Sleep => "Sleep"
    case Disconnected => "Disconnected"
    case Connecting => "Connecting"
    case Other(w) => w
  }

  predicate IsDeclaredName(w: string) {
    w in {"Idle", "Run", "Hold", "Alarm", "Door", "Check", "Home", "Sleep", "Disconnected", "Connecting"}
  }

  /** The state a status word denotes; an undeclared word is kept as it is. */
  function StateOf(word: string): (s: MachineState)
    ensures StateName(s) == word
    ensures s.Other? <==> !IsDeclaredName(word)
  {
    match word
    case "Idle" => Idle
    case "Run" => Run
    case "Hold" => Hold
    case "Alarm" => Alarm
    case "Door" => Door
    case "Check" => Check
    case "Home" => Home
    case "Sleep" => Sleep
    case "Disconnected" => Disconnected
    case "Connecting" => Connecting
    case _ => Other(word)
  }

  /** Limits of one axis; `Unset` is the empty record `{}` the Klipper controller can leave. */
  datatype AxisLimits = Range(min: real, max: real) | Unset

  datatype Limits = Limits(x: AxisLimits, y: AxisLimits, z: AxisLimits) {
    function Get(a: Axis): AxisLimits {
      match a
      case X => x
      case Y => y
      case Z => z
    }
  }

  /** `{x: {min: 0, max: 200}, y: ..., z: ...}` */
  const DefaultLimits := Limits(Range(0.0, 200.0), Range(0.0, 200.0), Range(0.0, 200.0))

  datatype MachineStatus = MachineStatus(
    state: MachineState,
    pos: Position,
    feedrate: real,
    spindle: real,
    logs: seq<string>,
    ports: Option<string>,
    limits: Option<Limits>,
    macros: Option<seq<string>>)

  /** The status a controller is created with. */
  const InitialStatus := MachineStatus(Disconnected, Origin, 0.0, 0.0, [], None, None, None)

  /** The probe request; its axis is always `z`. */
  datatype ProbeOptions = ProbeOptions(feedrate: real, dist: real, plateThickness: real, retract: real)

  /** How an awaited controller operation ends: completed, thrown with a message, or still waiting. */
  datatype Outcome = Done | Failed(reason: string) | Waiting

  const MaxLogs := 50

  /** Append to a log buffer and drop the oldest entry once it holds more than `MaxLogs`. */
  function PushLog(buf: seq<string>, msg: string): (r: seq<string>)
    ensures |buf| <= MaxLogs ==> |r| <= MaxLogs
    ensures r != [] && r[|r| - 1] == msg
    ensures r == buf + [msg] || (|buf| >= MaxLogs && r == buf[1..] + [msg])
  {
    var b := buf + [msg];
    if |b| > MaxLogs then b[1..] else b
  }

  /** `s + "\n"` for every command, in order: what a line-oriented transport receives. */
  function Terminated(cmds: seq<string>): (r: seq<string>)
    ensures |r| == |cmds|
    ensures forall k :: 0 <= k < |cmds| ==> r[k] == cmds[k] + "\n"
  {
    if cmds == [] then [] else Terminated(cmds[..|cmds| - 1]) + [cmds[|cmds| - 1] + "\n"]
  }

  /**
   * The commands an upload streams: every line of the job that is not blank,
   * trimmed, in order.
   */
  function JobLines(lines: seq<string>): seq<string> {
    if lines == [] then []
    else
      var last := Trim(lines[|lines| - 1]);
      JobLines(lines[..|lines| - 1]) + (if last != "" then [last] else [])
  }

  /**
   * No more job lines than lines; each is non-empty and neither starts nor ends with
   * white space; a job without blank lines keeps every line.
   */
  lemma {:induction false} JobLinesShape(lines: seq<string>)
    ensures var r := JobLines(lines);
      && |r| <= |lines|
      && (forall k :: 0 <= k < |r| ==> r[k] != "" && !IsSpace(r[k][0]) && !IsSpace(r[k][|r[k]| - 1]))
      && ((forall k :: 0 <= k < |lines| ==> Trim(lines[k]) != "") ==> |r| == |lines|)
  {
    if lines != [] {
      JobLinesShape(lines[..|lines| - 1]);
    }
  }

  lemma {:induction false} TerminatedAppend(a: seq<string>, b: seq<string>)
    ensures Terminated(a + b) == Terminated(a) + Terminated(b)
    decreases |b|
  {
    if b == [] {
      assert a + b == a;
    } else {
      TerminatedAppend(a, b[..|b| - 1]);
      assert (a + b)[..|a + b| - 1] == a + b[..|b| - 1];
    }
  }

  lemma JobLinesStep(lines: seq<string>, i: nat)
    requires i < |lines|
    ensures JobLines(lines[..i + 1]) == JobLines(lines[..i]) + (if Trim(lines[i]) != "" then [Trim(lines[i])] else [])
  {
    assert lines[..i + 1][..i] == lines[..i];
  }

  /** What streaming a job line by line writes: each non-blank line trimmed, with a newline. */
  function StreamedJob(lines: seq<string>): seq<string> {
    if lines == [] then []
    else
      var last := Trim(lines[|lines| - 1]);
      StreamedJob(lines[..|lines| - 1]) + (if last != "" then [last + "\n"] else [])
  }

  /** Streaming a job writes exactly its job lines, each terminated. */
  lemma {:induction false} StreamedJobLines(lines: seq<string>)
    ensures StreamedJob(lines) == Terminated(JobLines(lines))
    decreases |lines|
  {
    if lines != [] {
      var i := |lines| - 1;
      StreamedJobLines(lines[..i]);
      JobLinesStep(lines, i);
      assert lines[..i + 1] == lines;
      var t := Trim(lines[i]);
      TerminatedAppend(JobLines(lines[..i]), if t != "" then [t] else []);
      if t != "" {
        assert Terminated([t]) == [t + "\n"];
      }
    }
  }

  /** The newest `n` entries of `s`. */
  function Newest(s: seq<string>, n: nat): (r: seq<string>)
    ensures |r| == if |s| <= n then |s| else n
  {
    if |s| <= n then s else s[|s| - n..]
  }

  function PushAll(buf: seq<string>, msgs: seq<string>): seq<string>
    decreases |msgs|
  {
    if msgs == [] then buf else PushAll(PushLog(buf, msgs[0]), msgs[1..])
  }

  lemma NewestTwice(a: seq<string>, b: seq<string>, n: nat)
    ensures Newest(Newest(a, n) + b, n) == Newest(a + b, n)
  {
    if |a| > n {
      assert Newest(a, n) + b == (a + b)[|a| - n..];
    }
  }

  /** One push into a buffer that respects the cap keeps the newest `MaxLogs` lines. */
  lemma PushLogIsNewest(buf: seq<string>, msg: string)
    requires |buf| <= MaxLogs
    ensures PushLog(buf, msg) == Newest(buf + [msg], MaxLogs)
  {
  }

  /** A push followed by more lines keeps what the unpushed buffer followed by them all keeps. */
  lemma PushThenNewest(buf: seq<string>, msg: string, rest: seq<string>)
    requires |buf| <= MaxLogs
    ensures Newest(PushLog(buf, msg) + rest, MaxLogs) == Newest(buf + ([msg] + rest), MaxLogs)
  {
    PushLogIsNewest(buf, msg);
    NewestTwice(buf + [msg], rest, MaxLogs);
    assert buf + [msg] + rest == buf + ([msg] + rest);
  }

  /**
   * Pushing any lines into a buffer that respects the cap keeps exactly the
   * newest `MaxLogs` lines of everything pushed, in insertion order.
   */
  lemma {:induction false} PushAllKeepsNewest(buf: seq<string>, msgs: seq<string>)
    requires |buf| <= MaxLogs
    ensures PushAll(buf, msgs) == Newest(buf + msgs, MaxLogs)
    decreases |msgs|
  {
    if msgs == [] {
      assert buf + msgs == buf;
    } else {
      PushAllKeepsNewest(PushLog(buf, msgs[0]), msgs[1..]);
      PushThenNewest(buf, msgs[0], msgs[1..]);
      assert [msgs[0]] + msgs[1..] == msgs;
    }
  }

  /** Two pushes into a buffer that respects the cap keep the newest `MaxLogs` lines of all. */
  lemma PushTwice(buf: seq<string>, a: string, b: string)
    requires |buf| <= MaxLogs
    ensures PushLog(PushLog(buf, a), b) == Newest(buf + [a, b], MaxLogs)
  {
    PushLogIsNewest(PushLog(buf, a), b);
    PushThenNewest(buf, a, [b]);
    assert [a] + [b] == [a, b];
  }

  /** Three pushes into a buffer that respects the cap keep the newest `MaxLogs` lines of all. */
  lemma PushThrice(buf: seq<string>, a: string, b: string, c: string)
    requires |buf| <= MaxLogs
    ensures PushLog(PushLog(PushLog(buf, a), b), c) == Newest(buf + [a, b, c], MaxLogs)
  {
    PushTwice(buf, a, b);
    PushLogIsNewest(PushLog(PushLog(buf, a), b), c);
    NewestTwice(buf + [a, b], [c], MaxLogs);
    assert buf + [a, b] + [c] == buf + [a, b, c];
  }

  /** Sixty lines into an empty buffer: the oldest ten are gone, the newest fifty remain in order. */
  lemma SixtyLinesKeepLastFifty(msgs: seq<string>)
    requires |msgs| == 60
    ensures PushAll([], msgs) == msgs[10..]
  {
    PushAllKeepsNewest([], msgs);
    assert [] + msgs == msgs;
  }
}
