/**
 * The GRBL serial controller (server/src/machine/GrblController.ts): a line-driven
 * state machine over a status record. Inbound lines are realtime reports
 * `<State|MPos:x,y,z|...|Pn:...>`, settings echoes `$N=V`, or opaque log lines;
 * outbound commands are newline-terminated text written to the serial port.
 *
 * `num` stands for JavaScript's `parseFloat` and `str` for its number-to-text
 * conversion; both are parameters, the model fixes neither.
 */
module Grbl {
  import opened Wrappers
  import opened Text
  import opened MachineInterface

  // ---------------------------------------------------------------------------
  // Realtime status reports

  /** `line.replace(/[<>]/g, '').split('|')` */
  function ReportFields(line: string): (parts: seq<string>)
    ensures |parts| >= 1
  {
    Split(RemoveChars(line, {'<', '>'}), '|')
  }

  predicate IsPositionField(f: string) {
    StartsWith(f, "MPos:") || StartsWith(f, "WPos:")
  }

  predicate IsPortsField(f: string) {
    !IsPositionField(f) && StartsWith(f, "Pn:")
  }

  /** `coords[k]`, where an absent coordinate reads as the empty text (both give NaN). */
  function Coordinate(coords: seq<string>, k: nat): string {
    if k < |coords| then coords[k] else ""
  }

  /** The comma triple after the five-character prefix, in x, y, z order. */
  function FieldPosition(f: string, num: string -> real): Position
    requires |f| >= 5
  {
    var coords := Split(f[5..], ',');
    Position(num(Coordinate(coords, 0)), num(Coordinate(coords, 1)), num(Coordinate(coords, 2)))
  }

  /** One field after the state word, dispatched by prefix. */
  function ApplyField(st: MachineStatus, f: string, num: string -> real): MachineStatus {
    if IsPositionField(f) then st.(pos := FieldPosition(f, num))
    else if IsPortsField(f) then st.(ports := Some(f[3..]))
    else st
  }

  /** The fields applied left to right. */
  function ApplyFields(st: MachineStatus, fs: seq<string>, num: string -> real): MachineStatus
    decreases |fs|
  {
    if fs == [] then st
    else ApplyField(ApplyFields(st, fs[..|fs| - 1], num), fs[|fs| - 1], num)
  }

  /** Only `pos` and `ports` can change; each keeps its value when no field of its kind occurs. */
  lemma {:induction false} ApplyFieldsFrame(st: MachineStatus, fs: seq<string>, num: string -> real)
    ensures var r := ApplyFields(st, fs, num);
      && r == st.(pos := r.pos, ports := r.ports)
      && ((forall k :: 0 <= k < |fs| ==> !IsPositionField(fs[k])) ==> r.pos == st.pos)
      && ((forall k :: 0 <= k < |fs| ==> !IsPortsField(fs[k])) ==> r.ports == st.ports)
    decreases |fs|
  {
    if fs != [] {
      ApplyFieldsFrame(st, fs[..|fs| - 1], num);
    }
  }

  lemma ApplyFieldsStep(st: MachineStatus, fs: seq<string>, i: nat, num: string -> real)
    requires i < |fs|
    ensures ApplyFields(st, fs[..i + 1], num) == ApplyField(ApplyFields(st, fs[..i], num), fs[i], num)
  {
    assert fs[..i + 1][..i] == fs[..i];
  }

  /** The position field that wins: the last one. */
  lemma {:induction false} LastPositionFieldWins(st: MachineStatus, fs: seq<string>, k: nat, num: string -> real)
    requires k < |fs| && IsPositionField(fs[k])
    requires forall j :: k < j < |fs| ==> !IsPositionField(fs[j])
    ensures ApplyFields(st, fs, num).pos == FieldPosition(fs[k], num)
    decreases |fs|
  {
    if k < |fs| - 1 {
      LastPositionFieldWins(st, fs[..|fs| - 1], k, num);
    }
  }

  /** The ports field that wins: the last one, its text after `Pn:`. */
  lemma {:induction false} LastPortsFieldWins(st: MachineStatus, fs: seq<string>, k: nat, num: string -> real)
    requires k < |fs| && IsPortsField(fs[k])
    requires forall j :: k < j < |fs| ==> !IsPortsField(fs[j])
    ensures ApplyFields(st, fs, num).ports == Some(fs[k][3..])
    decreases |fs|
  {
    if k < |fs| - 1 {
      LastPortsFieldWins(st, fs[..|fs| - 1], k, num);
    }
  }

  /** Field dispatch never looks at the logs. */
  lemma {:induction false} ApplyFieldsKeepsLogs(st: MachineStatus, logs: seq<string>, fs: seq<string>, num: string -> real)
    ensures ApplyFields(st.(logs := logs), fs, num) == ApplyFields(st, fs, num).(logs := logs)
    decreases |fs|
  {
    if fs != [] {
      ApplyFieldsKeepsLogs(st, logs, fs[..|fs| - 1], num);
    }
  }

  /** A realtime report: the first field is the new state word, the rest are dispatched. */
  function ApplyReport(st: MachineStatus, line: string, num: string -> real): (r: MachineStatus)
    ensures StateName(r.state) == ReportFields(line)[0]
    ensures r == st.(state := r.state, pos := r.pos, ports := r.ports)
  {
    var parts := ReportFields(line);
    ApplyFieldsFrame(st.(state := StateOf(parts[0])), parts[1..], num);
    ApplyFields(st.(state := StateOf(parts[0])), parts[1..], num)
  }

  // ---------------------------------------------------------------------------
  // Settings echoes

  /** Length of the longest prefix of `s` made of characters satisfying `ok`. */
  function RunLength(s: string, ok: char -> bool): (n: nat)
    ensures n <= |s|
    ensures forall k :: 0 <= k < n ==> ok(s[k])
    ensures n < |s| ==> !ok(s[n])
  {
    if s != [] && ok(s[0]) then 1 + RunLength(s[1..], ok) else 0
  }

  predicate IsDecimalChar(c: char) {
    IsDigit(c) || c == '.'
  }

  /** A matched settings echo: the numeric id and the text of the value. */
  datatype Setting = Setting(id: nat, value: string)

  /** `/^\$([0-9]+)=([0-9\.]+)/.exec(clean)`: anything may follow the value. */
  function MatchSetting(clean: string): (m: Option<Setting>)
    ensures m.Some? ==> StartsWith(clean, "$") && m.value.value != ""
    ensures m.Some? ==> forall k :: 0 <= k < |m.value.value| ==> IsDecimalChar(m.value.value[k])
  {
    if clean == [] || clean[0] != '$' then None
    else
      var d := RunLength(clean[1..], IsDigit);
      if d == 0 || 1 + d >= |clean| || clean[1 + d] != '=' then None
      else
        var v := RunLength(clean[2 + d..], IsDecimalChar);
        if v == 0 then None
        else Some(Setting(DigitsValue(clean[1..1 + d]), clean[2 + d..2 + d + v]))
  }

  predicate RangesOnly(limits: Option<Limits>) {
    limits.Some? ==> limits.value.x.Range? && limits.value.y.Range? && limits.value.z.Range?
  }

  function WithMax(l: AxisLimits, v: real): AxisLimits {
    match l
    case Range(mn, _) => Range(mn, v)
    case Unset => Unset
  }

  /**
   * A settings echo: limits are created as 0..200 on every axis when absent; then
   * $130, $131, $132 set the x, y, z maximum. Nothing else changes.
   */
  function ApplySetting(st: MachineStatus, s: Setting, num: string -> real): (r: MachineStatus)
    requires RangesOnly(st.limits)
    ensures r == st.(limits := r.limits)
    ensures r.limits.Some? && RangesOnly(r.limits)
    ensures var before := st.limits.GetOr(DefaultLimits);
      && r.limits.value.x == (if s.id == 130 then Range(before.x.min, num(s.value)) else before.x)
      && r.limits.value.y == (if s.id == 131 then Range(before.y.min, num(s.value)) else before.y)
      && r.limits.value.z == (if s.id == 132 then Range(before.z.min, num(s.value)) else before.z)
  {
    var l := st.limits.GetOr(DefaultLimits);
    var v := num(s.value);
    var l1 := if s.id == 130 then l.(x := WithMax(l.x, v)) else l;
    var l2 := if s.id == 131 then l1.(y := WithMax(l1.y, v)) else l1;
    var l3 := if s.id == 132 then l2.(z := WithMax(l2.z, v)) else l2;
    st.(limits := Some(l3))
  }

  // ---------------------------------------------------------------------------
  // A whole inbound line

  /** The status update of a line does not depend on the logs. */
  lemma StatusAfterLineKeepsLogs(st: MachineStatus, logs: seq<string>, line: string, num: string -> real)
    requires RangesOnly(st.limits)
    ensures StatusAfterLine(st.(logs := logs), line, num) == StatusAfterLine(st, line, num).(logs := logs)
  {
    if StartsWith(line, "<") {
      var parts := ReportFields(line);
      ApplyFieldsKeepsLogs(st.(state := StateOf(parts[0])), logs, parts[1..], num);
    }
  }

  /** Whether handling the line publishes the status (and so ties `status.logs` to the buffer). */
  predicate Publishes(line: string) {
    StartsWith(line, "<") || (StartsWith(Trim(line), "$") && MatchSetting(Trim(line)).Some?)
  }

  /**
   * The status fields other than `logs` after one inbound line: a report when the raw
   * line starts with `<`, else a settings echo when the trimmed line matches, else nothing.
   */
  function StatusAfterLine(st: MachineStatus, line: string, num: string -> real): (r: MachineStatus)
    requires RangesOnly(st.limits)
    ensures RangesOnly(r.limits)
    ensures !Publishes(line) ==> r == st
  {
    if StartsWith(line, "<") then ApplyReport(st, line, num)
    else
      var clean := Trim(line);
      if StartsWith(clean, "$") then
        match MatchSetting(clean)
        case Some(s) => ApplySetting(st, s, num)
        case None => st
      else st
  }

  /** The log buffer after one inbound line: the trimmed line is pushed unless it is empty. */
  function LogAfterLine(buf: seq<string>, line: string): (r: seq<string>)
    ensures |buf| <= MaxLogs ==> |r| <= MaxLogs
    ensures Trim(line) != "" ==> |r| >= 1 && r[|r| - 1] == Trim(line)
    ensures Trim(line) == "" ==> r == buf
  {
    var clean := Trim(line);
    if clean != "" then PushLog(buf, clean) else buf
  }

  // ---------------------------------------------------------------------------
  // Outbound commands

  /** `$J=G91 <AXIS><dist> F<feedrate>` */
  function JogCommand(axis: Axis, dist: real, feedrate: real, str: real -> string): string {
    "$J=G91 " + [AxisLetter(axis)] + str(dist) + " F" + str(feedrate)
  }

  /** The five-line probe macro. */
  function ProbeCommands(opts: ProbeOptions, str: real -> string): seq<string> {
    [ "G91",
      "G38.2 Z" + str(opts.dist) + " F" + str(opts.feedrate),
      "G92 Z" + str(opts.plateThickness),
      "G0 Z" + str(opts.retract),
      "G90" ]
  }

  class GrblController {
    /** The serial port exists and is open; writes are dropped otherwise. */
    var portOpen: bool
    var status: MachineStatus
    var logBuffer: seq<string>
    /** `status.logs` is the log buffer itself (true after the first publication). */
    var logsLinked: bool
    /** Everything written to the serial port, in order. */
    var written: seq<string>

    ghost predicate Valid()
      reads this
    {
      && |logBuffer| <= MaxLogs
      && status.logs == (if logsLinked then logBuffer else [])
      && RangesOnly(status.limits)
    }

    constructor ()
      ensures Valid()
      ensures status == InitialStatus && logBuffer == [] && !logsLinked
      ensures !portOpen && written == []
    {
      portOpen := false;
      status := InitialStatus;
      logBuffer := [];
      logsLinked := false;
      written := [];
    }

    /** The live status record. */
    function GetStatus(): (s: MachineStatus)
      reads this
      requires Valid()
      ensures s.logs == (if logsLinked then logBuffer else [])
    {
      status
    }

    /** Writes `cmd` and a newline when the port is open, else drops it. */
    method Send(cmd: string)
      modifies this
      ensures written == old(written) + (if portOpen then [cmd + "\n"] else [])
      ensures portOpen == old(portOpen) && status == old(status)
      ensures logBuffer == old(logBuffer) && logsLinked == old(logsLinked)
    {
      if portOpen {
        written := written + [cmd + "\n"];
      }
    }

    /** Publishes the status: from now on `status.logs` is the log buffer. */
    method EmitStatus()
      requires Valid()
      modifies this
      ensures Valid() && logsLinked
      ensures status == old(status).(logs := logBuffer)
      ensures logBuffer == old(logBuffer) && written == old(written) && portOpen == old(portOpen)
    {
      status := status.(logs := logBuffer);
      logsLinked := true;
    }

    method AddLog(msg: string)
      requires Valid()
      modifies this
      ensures Valid()
      ensures logBuffer == PushLog(old(logBuffer), msg)
      ensures status == old(status).(logs := status.logs) && logsLinked == old(logsLinked)
      ensures written == old(written) && portOpen == old(portOpen)
    {
      logBuffer := PushLog(logBuffer, msg);
      if logsLinked {
        status := status.(logs := logBuffer);
      }
    }

    /**
     * Opens a new port. `openError` is the transport's verdict. On success the state
     * becomes Idle, the status is published and the settings dump `$$` is requested
     * (the settle delay before it is not modelled).
     */
    method Connect(path: string, baudRate: int, openError: Option<string>) returns (r: Result<(), string>)
      requires Valid()
      modifies this
      ensures Valid()
      ensures portOpen == openError.None?
      ensures openError.Some? ==> r == Err(openError.value) && status == old(status) && written == old(written)
      ensures openError.None? ==> r.Ok? && status == old(status).(state := Idle, logs := logBuffer)
      ensures openError.None? ==> logsLinked && written == old(written) + ["$$\n"]
      ensures logBuffer == old(logBuffer)
    {
      portOpen := openError.None?;
      if openError.Some? {
        return Err(openError.value);
      }
      status := status.(state := Idle);
      EmitStatus();
      Send("$$");
      assert "$$" + "\n" == "$$\n";
      r := Ok(());
    }

    /** The port's close event: Disconnected, published, port gone. */
    method OnPortClose()
      requires Valid()
      modifies this
      ensures Valid() && !portOpen && logsLinked
      ensures status == old(status).(state := Disconnected, logs := logBuffer)
      ensures logBuffer == old(logBuffer) && written == old(written)
    {
      status := status.(state := Disconnected);
      EmitStatus();
      portOpen := false;
    }

    /** Closes an open port, which raises its close event; does nothing otherwise. */
    method Disconnect()
      requires Valid()
      modifies this
      ensures Valid() && !portOpen
      ensures old(portOpen) ==> status == old(status).(state := Disconnected, logs := logBuffer) && logsLinked
      ensures !old(portOpen) ==> status == old(status) && logsLinked == old(logsLinked)
      ensures logBuffer == old(logBuffer) && written == old(written)
    {
      if portOpen {
        OnPortClose();
      }
    }

    method Homing()
      modifies this
      ensures written == old(written) + (if portOpen then ["$H\n"] else [])
      ensures portOpen == old(portOpen) && status == old(status)
      ensures logBuffer == old(logBuffer) && logsLinked == old(logsLinked)
    {
      Send("$H");
      assert "$H" + "\n" == "$H\n";
    }

    method Jog(axis: Axis, dist: real, feedrate: real, str: real -> string)
      modifies this
      ensures written == old(written) + (if portOpen then [JogCommand(axis, dist, feedrate, str) + "\n"] else [])
      ensures portOpen == old(portOpen) && status == old(status)
      ensures logBuffer == old(logBuffer) && logsLinked == old(logsLinked)
    {
      var cmd := "$J=G91 " + [AxisLetter(axis)] + str(dist) + " F" + str(feedrate);
      Send(cmd);
    }

    /** Writes the text verbatim. */
    method Command(gcode: string)
      modifies this
      ensures written == old(written) + (if portOpen then [gcode + "\n"] else [])
      ensures portOpen == old(portOpen) && status == old(status)
      ensures logBuffer == old(logBuffer) && logsLinked == old(logsLinked)
    {
      Send(gcode);
    }

    /** Streams every non-blank line of the job, trimmed, without waiting for replies. */
    method UploadFile(gcode: string, filename: string)
      modifies this
      ensures written == old(written) + (if portOpen then StreamedJob(Split(gcode, '\n')) else [])
      ensures portOpen == old(portOpen) && status == old(status)
      ensures logBuffer == old(logBuffer) && logsLinked == old(logsLinked)
    {
      StreamLines(Split(gcode, '\n'));
    }

    /** The loop of `uploadFile` over the split lines. */
    method StreamLines(lines: seq<string>)
      modifies this
      ensures written == old(written) + (if portOpen then StreamedJob(lines) else [])
      ensures portOpen == old(portOpen) && status == old(status)
      ensures logBuffer == old(logBuffer) && logsLinked == old(logsLinked)
    {
      ghost var before := written;
      var i := 0;
      assert lines[..0] == [];
      while i < |lines|
        invariant 0 <= i <= |lines|
        invariant written == before + (if portOpen then StreamedJob(lines[..i]) else [])
        invariant portOpen == old(portOpen) && status == old(status)
        invariant logBuffer == old(logBuffer) && logsLinked == old(logsLinked)
      {
        StreamLine(before, lines, i);
        i := i + 1;
      }
      assert lines[..|lines|] == lines;
    }

    /** One pass of the upload loop: the line, trimmed, is sent unless it is blank. */
    method StreamLine(ghost before: seq<string>, lines: seq<string>, i: nat)
      requires i < |lines|
      requires written == before + (if portOpen then StreamedJob(lines[..i]) else [])
      modifies this
      ensures written == before + (if portOpen then StreamedJob(lines[..i + 1]) else [])
      ensures portOpen == old(portOpen) && status == old(status)
      ensures logBuffer == old(logBuffer) && logsLinked == old(logsLinked)
    {
      assert lines[..i + 1][..i] == lines[..i];
      var clean := Trim(lines[i]);
      if |clean| > 0 {
        Send(clean);
      }
    }

    /** The five probe commands, written back to back. */
    method Probe(opts: ProbeOptions, str: real -> string)
      modifies this
      ensures written == old(written) + (if portOpen then Terminated(ProbeCommands(opts, str)) else [])
      ensures portOpen == old(portOpen) && status == old(status)
      ensures logBuffer == old(logBuffer) && logsLinked == old(logsLinked)
    {
      var cmds := [
        "G91",
        "G38.2 Z" + str(opts.dist) + " F" + str(opts.feedrate),
        "G92 Z" + str(opts.plateThickness),
        "G0 Z" + str(opts.retract),
        "G90"
      ];
      var i := 0;
      while i < |cmds|
        invariant 0 <= i <= |cmds|
        invariant written == old(written) + (if portOpen then Terminated(cmds[..i]) else [])
        invariant portOpen == old(portOpen) && status == old(status)
        invariant logBuffer == old(logBuffer) && logsLinked == old(logsLinked)
      {
        SendAt(old(written), cmds, i);
        i := i + 1;
      }
      assert cmds[..|cmds|] == cmds;
    }

    /** One pass of a loop that sends each command of a list. */
    method SendAt(ghost before: seq<string>, cmds: seq<string>, i: nat)
      requires i < |cmds|
      requires written == before + (if portOpen then Terminated(cmds[..i]) else [])
      modifies this
      ensures written == before + (if portOpen then Terminated(cmds[..i + 1]) else [])
      ensures portOpen == old(portOpen) && status == old(status)
      ensures logBuffer == old(logBuffer) && logsLinked == old(logsLinked)
    {
      assert cmds[..i + 1][..i] == cmds[..i];
      Send(cmds[i]);
    }

    /**
     * One line from the serial stream. The trimmed line is logged first; then a raw
     * line starting with `<` is a report, a trimmed line starting with `$` that matches
     * the settings pattern is a settings echo, and anything else is only logged.
     */
    method ParseResponse(line: string, num: string -> real)
      requires Valid()
      modifies this
      ensures Valid()
      ensures logBuffer == LogAfterLine(old(logBuffer), line)
      ensures status == StatusAfterLine(old(status), line, num).(logs := status.logs)
      ensures logsLinked == (old(logsLinked) || Publishes(line))
      ensures written == old(written) && portOpen == old(portOpen)
    {
      var cleanLine := Trim(line);
      ghost var st0 := status;
      if |cleanLine| > 0 {
        AddLog(cleanLine);
      }
      StatusAfterLineKeepsLogs(st0, status.logs, line, num);
      Dispatch(line, cleanLine, num);
    }

    /** Everything after the logging: a report, a settings echo, or nothing. */
    method Dispatch(line: string, cleanLine: string, num: string -> real)
      requires Valid() && cleanLine == Trim(line)
      modifies this
      ensures Valid()
      ensures status == StatusAfterLine(old(status), line, num).(logs := status.logs)
      ensures logsLinked == (old(logsLinked) || Publishes(line))
      ensures logBuffer == old(logBuffer) && written == old(written) && portOpen == old(portOpen)
    {
      if StartsWith(line, "<") {
        HandleReport(line, num);
      } else if StartsWith(cleanLine, "$") {
        HandleSetting(cleanLine, num);
      }
    }

    /** A realtime report: the state word, then each field by prefix, then publication. */
    method HandleReport(line: string, num: string -> real)
      requires Valid()
      modifies this
      ensures Valid() && logsLinked
      ensures status == ApplyReport(old(status), line, num).(logs := logBuffer)
      ensures logBuffer == old(logBuffer) && written == old(written) && portOpen == old(portOpen)
    {
      var content := RemoveChars(line, {'<', '>'});
      var parts := Split(content, '|');
      status := status.(state := StateOf(parts[0]));
      ApplyFieldsFrame(status, parts[1..], num);
      HandleFields(parts[1..], num);
      EmitStatus();
    }

    /** The fields after the state word, left to right. */
    method HandleFields(fs: seq<string>, num: string -> real)
      modifies this
      ensures status == ApplyFields(old(status), fs, num)
      ensures logBuffer == old(logBuffer) && logsLinked == old(logsLinked)
      ensures written == old(written) && portOpen == old(portOpen)
    {
      var i := 0;
      while i < |fs|
        invariant 0 <= i <= |fs|
        invariant status == ApplyFields(old(status), fs[..i], num)
        invariant logBuffer == old(logBuffer) && logsLinked == old(logsLinked)
        invariant written == old(written) && portOpen == old(portOpen)
      {
        ApplyFieldsStep(old(status), fs, i, num);
        HandleField(fs[i], num);
        i := i + 1;
      }
      assert fs[..|fs|] == fs;
    }

    /** One report field: `MPos:`/`WPos:` replace the position, `Pn:` the pin text. */
    method HandleField(f: string, num: string -> real)
      modifies this
      ensures status == ApplyField(old(status), f, num)
      ensures logBuffer == old(logBuffer) && logsLinked == old(logsLinked)
      ensures written == old(written) && portOpen == old(portOpen)
    {
      if StartsWith(f, "MPos:") {
        var coords := Split(f[5..], ',');
        status := status.(pos := Position(num(Coordinate(coords, 0)), num(Coordinate(coords, 1)), num(Coordinate(coords, 2))));
      } else if StartsWith(f, "WPos:") {
        var coords := Split(f[5..], ',');
        status := status.(pos := Position(num(Coordinate(coords, 0)), num(Coordinate(coords, 1)), num(Coordinate(coords, 2))));
      } else if StartsWith(f, "Pn:") {
        status := status.(ports := Some(f[3..]));
      }
    }

    /** A trimmed line starting with `$`: a matching settings echo updates the limits and publishes. */
    method HandleSetting(cleanLine: string, num: string -> real)
      requires Valid()
      modifies this
      ensures Valid()
      ensures MatchSetting(cleanLine).None? ==> status == old(status) && logsLinked == old(logsLinked)
      ensures MatchSetting(cleanLine).Some? ==>
        status == ApplySetting(old(status), MatchSetting(cleanLine).value, num).(logs := logBuffer) && logsLinked
      ensures logBuffer == old(logBuffer) && written == old(written) && portOpen == old(portOpen)
    {
      var m := MatchSetting(cleanLine);
      if m.Some? {
        var id := m.value.id;
        var val := num(m.value.value);
        if status.limits.None? {
          status := status.(limits := Some(DefaultLimits));
        }
        var l := status.limits.value;
        if id == 130 { l := l.(x := Range(l.x.min, val)); }
        if id == 131 { l := l.(y := Range(l.y.min, val)); }
        if id == 132 { l := l.(z := Range(l.z.min, val)); }
        status := status.(limits := Some(l));
        EmitStatus();
      }
    }
  }

  // ---------------------------------------------------------------------------
  // Properties of the line handling

  /** Text that can sit inside one report field: no brackets, bars or commas. */
  predicate PlainField(s: string) {
    '<' !in s && '>' !in s && '|' !in s && ',' !in s
  }

  /** A bracketed report whose fields hold no brackets or bars: its state word, then its fields in order. */
  lemma BracketedReport(st: MachineStatus, fields: seq<string>, num: string -> real)
    requires RangesOnly(st.limits)
    requires |fields| >= 1 && forall k :: 0 <= k < |fields| ==> '<' !in fields[k] && '>' !in fields[k] && '|' !in fields[k]
    ensures StatusAfterLine(st, "<" + Join(fields, '|') + ">", num) == ApplyFields(st.(state := StateOf(fields[0])), fields[1..], num)
  {
    var body := Join(fields, '|');
    JoinHasNo(fields, '|', '<');
    JoinHasNo(fields, '|', '>');
    RemoveBrackets(body);
    SplitJoin(fields, '|');
    assert StartsWith("<" + body + ">", "<");
  }

  /** The report `<state|MPos:x,y,z|Pn:pins>` sets the state, the position and the pins, and nothing else. */
  lemma PositionReport(st: MachineStatus, state: string, x: string, y: string, z: string, pins: string, num: string -> real)
    requires RangesOnly(st.limits)
    requires PlainField(state) && PlainField(x) && PlainField(y) && PlainField(z) && PlainField(pins)
    ensures var r := StatusAfterLine(st, "<" + Join([state, "MPos:" + Join([x, y, z], ','), "Pn:" + pins], '|') + ">", num);
      && r.state == StateOf(state)
      && r.pos == Position(num(x), num(y), num(z))
      && r.ports == Some(pins)
      && r.limits == st.limits && r.feedrate == st.feedrate && r.spindle == st.spindle && r.logs == st.logs
  {
    var mpos := "MPos:" + Join([x, y, z], ',');
    var pn := "Pn:" + pins;
    MachinePositionField(x, y, z, num);
    PinsField(pins);
    BracketedReport(st, [state, mpos, pn], num);
    assert [state, mpos, pn][1..] == [mpos, pn];
    TwoFields(st.(state := StateOf(state)), mpos, pn, num);
  }

  /** `MPos:x,y,z` is a position field holding x, y and z. */
  lemma MachinePositionField(x: string, y: string, z: string, num: string -> real)
    requires PlainField(x) && PlainField(y) && PlainField(z)
    ensures var f := "MPos:" + Join([x, y, z], ',');
      && '<' !in f && '>' !in f && '|' !in f
      && IsPositionField(f) && FieldPosition(f, num) == Position(num(x), num(y), num(z))
  {
    var coords := Join([x, y, z], ',');
    JoinHasNo([x, y, z], ',', '<');
    JoinHasNo([x, y, z], ',', '>');
    JoinHasNo([x, y, z], ',', '|');
    var f := "MPos:" + coords;
    assert f[5..] == coords;
    SplitJoin([x, y, z], ',');
  }

  /** `Pn:pins` is a pins field, not a position field, holding `pins`. */
  lemma PinsField(pins: string)
    requires PlainField(pins)
    ensures var f := "Pn:" + pins;
      && '<' !in f && '>' !in f && '|' !in f
      && !IsPositionField(f) && IsPortsField(f) && f[3..] == pins
  {
    var f := "Pn:" + pins;
    assert f[..3] == "Pn:";
    assert !StartsWith(f, "MPos:") by { assert f[0] != "MPos:"[0]; }
    assert !StartsWith(f, "WPos:") by { assert f[0] != "WPos:"[0]; }
  }

  lemma TwoFields(st: MachineStatus, f: string, g: string, num: string -> real)
    ensures ApplyFields(st, [f, g], num) == ApplyField(ApplyField(st, f, num), g, num)
  {
    var one: seq<string> := [f];
    assert [f, g][..1] == one && one[..0] == [];
    assert ApplyFields(st, one, num) == ApplyField(st, f, num);
  }

  /** A character absent from the pieces and different from the separator is absent from the join. */
  lemma {:induction false} JoinHasNo(parts: seq<string>, sep: char, c: char)
    requires c != sep && forall k :: 0 <= k < |parts| ==> c !in parts[k]
    ensures c !in Join(parts, sep)
    decreases |parts|
  {
    if |parts| > 1 {
      JoinHasNo(parts[1..], sep, c);
    }
  }

  /** Stripping `<` and `>` from a bracketed body without brackets leaves the body. */
  lemma RemoveBrackets(body: string)
    requires '<' !in body && '>' !in body
    ensures RemoveChars("<" + body + ">", {'<', '>'}) == body
  {
    assert ("<" + body + ">")[1..] == body + ">";
    RemoveDropLast(body, '>', {'<', '>'});
  }

  lemma {:induction false} RemoveDropLast(body: string, c: char, drop: set<char>)
    requires c in drop
    requires forall k :: 0 <= k < |body| ==> body[k] !in drop
    ensures RemoveChars(body + [c], drop) == body
  {
    if body == [] {
      assert body + [c] == [c];
    } else {
      assert (body + [c])[1..] == body[1..] + [c];
      RemoveDropLast(body[1..], c, drop);
    }
  }

  /** `$130=V` sets the x maximum and nothing else; a later `$131=W` leaves it alone. */
  lemma SettingsAreIndependent(st: MachineStatus, v: string, w: string, num: string -> real)
    requires RangesOnly(st.limits)
    requires v != "" && forall k :: 0 <= k < |v| ==> IsDecimalChar(v[k])
    requires w != "" && forall k :: 0 <= k < |w| ==> IsDecimalChar(w[k])
    ensures var r1 := StatusAfterLine(st, "$130=" + v, num);
      && r1.limits.Some? && r1.limits.value.x.max == num(v)
      && var r2 := StatusAfterLine(r1, "$131=" + w, num);
      && r2.limits.Some? && r2.limits.value.x.max == num(v) && r2.limits.value.y.max == num(w)
  {
    assert NatText(130) == "130" && NatText(131) == "131";
    assert "$130=" + v == "$" + "130" + "=" + v;
    assert "$131=" + w == "$" + "131" + "=" + w;
    SettingLine(st, 130, "130", v, num);
    var r1 := ApplySetting(st, Setting(130, v), num);
    SettingLine(r1, 131, "131", w, num);
  }

  /** A settings echo `$<id>=<value>` with a decimal value is handled as that setting. */
  lemma SettingLine(st: MachineStatus, id: nat, digits: string, v: string, num: string -> real)
    requires RangesOnly(st.limits)
    requires digits == NatText(id)
    requires v != "" && forall k :: 0 <= k < |v| ==> IsDecimalChar(v[k])
    ensures StatusAfterLine(st, "$" + digits + "=" + v, num) == ApplySetting(st, Setting(id, v), num)
  {
    var line := "$" + digits + "=" + v;
    TrimmedSettingLine(digits, v);
    MatchSettingLine(digits, v, "");
    assert line + "" == line;
    DigitsValueOfNatText(id);
    assert StartsWith(line, "$") && !StartsWith(line, "<");
  }

  lemma TrimmedSettingLine(digits: string, v: string)
    requires v != "" && forall k :: 0 <= k < |v| ==> IsDecimalChar(v[k])
    ensures Trim("$" + digits + "=" + v) == "$" + digits + "=" + v
  {
    var line := "$" + digits + "=" + v;
    assert !IsSpace(line[0]);
    assert line[|line| - 1] == v[|v| - 1];
    assert IsDecimalChar(v[|v| - 1]);
  }

  /**
   * A line `$<digits>=<value><rest>` matches with the id the digits spell and
   * the whole value, whatever follows the value (a GRBL 0.9 echo such as
   * `$130=200.000 (x max travel, mm)`), as long as it does not continue it.
   */
  lemma MatchSettingLine(digits: string, v: string, rest: string)
    requires digits != [] && forall k :: 0 <= k < |digits| ==> IsDigit(digits[k])
    requires v != "" && forall k :: 0 <= k < |v| ==> IsDecimalChar(v[k])
    requires rest == [] || !IsDecimalChar(rest[0])
    ensures MatchSetting("$" + digits + "=" + v + rest) == Some(Setting(DigitsValue(digits), v))
  {
    Assoc5("$", digits, "=", v, rest);
    var after := "=" + (v + rest);
    var line := "$" + (digits + after);
    Parts("$", digits + after);
    Parts(digits, after);
    Parts("=", v + rest);
    Parts(v, rest);
    RunPrefix(digits, after, IsDigit);
    RunPrefix(v, rest, IsDecimalChar);
    MatchSettingParts(line, |digits|, |v|);
  }

  /** `MatchSetting` read off the lengths of its digit run and its value run. */
  lemma MatchSettingParts(line: string, d: nat, n: nat)
    requires line != [] && line[0] == '$'
    requires 1 <= d < |line[1..]| && RunLength(line[1..], IsDigit) == d && line[1..][d] == '='
    requires 1 <= n <= |line[1..][d..][1..]| && RunLength(line[1..][d..][1..], IsDecimalChar) == n
    ensures forall k :: 0 <= k < d ==> IsDigit(line[1..][..d][k])
    ensures MatchSetting(line) == Some(Setting(DigitsValue(line[1..][..d]), line[1..][d..][1..][..n]))
  {
    assert line[1..][..d] == line[1..1 + d];
    assert line[1..][d..][1..] == line[2 + d..];
    assert line[2 + d..][..n] == line[2 + d..2 + d + n];
  }

  lemma Assoc5<T>(a: seq<T>, b: seq<T>, c: seq<T>, d: seq<T>, e: seq<T>)
    ensures a + b + c + d + e == a + (b + (c + (d + e)))
  {
  }

  lemma Parts<T>(a: seq<T>, b: seq<T>)
    ensures (a + b)[..|a|] == a && (a + b)[|a|..] == b
    ensures b != [] ==> (a + b)[|a|] == b[0]
  {
  }

  /** A matched line is `$<digits>=<value><rest>`: the id is the digit run and the value is not cut short. */
  lemma MatchSettingShape(clean: string)
    requires MatchSetting(clean).Some?
    ensures var m := MatchSetting(clean).value;
      exists digits, rest :: SettingEcho(clean, digits, m.value, rest) && m.id == DigitsValue(digits)
  {
    var m := MatchSetting(clean).value;
    var d := RunLength(clean[1..], IsDigit);
    var n := RunLength(clean[2 + d..], IsDecimalChar);
    var digits := clean[1..1 + d];
    var rest := clean[2 + d + n..];
    Cut5(clean, 1 + d, 2 + d, 2 + d + n);
    assert clean[..1] == "$" && clean[1 + d..2 + d] == "=";
    assert m.value == clean[2 + d..2 + d + n];
    assert rest != [] ==> rest[0] == clean[2 + d..][n];
    assert digits == clean[1..][..d];
    assert forall k :: 0 <= k < |digits| ==> IsDigit(digits[k]);
    assert clean == "$" + digits + "=" + m.value + rest;
    assert SettingEcho(clean, digits, m.value, rest);
    assert m.id == DigitsValue(digits);
  }

  /** `line` is `$<digits>=<value><rest>` with a digit id, a decimal value and a `rest` that does not continue it. */
  predicate SettingEcho(line: string, digits: string, v: string, rest: string) {
    && line == "$" + digits + "=" + v + rest
    && digits != [] && (forall k :: 0 <= k < |digits| ==> IsDigit(digits[k]))
    && v != "" && (forall k :: 0 <= k < |v| ==> IsDecimalChar(v[k]))
    && (rest == [] || !IsDecimalChar(rest[0]))
  }

  /** `s` cut into five consecutive pieces, the first of length one. */
  lemma Cut5<T>(s: seq<T>, i: nat, j: nat, k: nat)
    requires 1 <= i <= j <= k <= |s|
    ensures s == s[..1] + s[1..i] + s[i..j] + s[j..k] + s[k..]
  {
  }

  /** The longest run of `ok` characters of `v + rest` is `v` when `rest` does not continue it. */
  lemma {:induction false} RunPrefix(v: string, rest: string, ok: char -> bool)
    requires forall k :: 0 <= k < |v| ==> ok(v[k])
    requires rest == [] || !ok(rest[0])
    ensures RunLength(v + rest, ok) == |v|
  {
    if v != [] {
      assert (v + rest)[1..] == v[1..] + rest;
      RunPrefix(v[1..], rest, ok);
    } else {
      assert v + rest == rest;
    }
  }
}
