/**
 * The simulated controller (server/src/machine/MockController.ts). Its operations
 * change the status in steps separated by delays; each step between two awaits is
 * a method of its own (`JogStart`, `JogFinish`, ...) and the whole operation runs
 * them in order. The delays themselves are not modelled.
 */
module Mock {
  import opened Text
  import opened Wrappers
  import opened MachineInterface

  /** The simulator starts disconnected at the origin, with limits 0..200 on every axis. */
  const MockInitialStatus := InitialStatus.(limits := Some(DefaultLimits))

  /** The three log lines of a probe, in order. */
  function ProbeLog(opts: ProbeOptions, str: real -> string): seq<string> {
    [ "[Probe] Searching for surface at F" + str(opts.feedrate) + "...",
      "[Probe] Contact! Setting Z.",
      "[Probe] Retracted to " + str(opts.retract) ]
  }

  /** `pos[axis] += dist` */
  function Moved(p: Position, axis: Axis, dist: real): (q: Position)
    ensures q.Get(axis) == p.Get(axis) + dist
    ensures forall b :: b != axis ==> q.Get(b) == p.Get(b)
  {
    p.With(axis, p.Get(axis) + dist)
  }

  /** Jogs along one axis add up, and a jog back undoes a jog. */
  lemma JogsAdd(p: Position, axis: Axis, d1: real, d2: real)
    ensures Moved(Moved(p, axis, d1), axis, d2) == Moved(p, axis, d1 + d2)
    ensures Moved(Moved(p, axis, d1), axis, -d1) == p
  {
    match axis
    case X =>
    case Y =>
    case Z =>
  }

  /** The number of throttle pauses of an upload: one before every tenth line, starting with the first. */
  function Pauses(lineCount: nat): nat {
    (lineCount + 9) / 10
  }

  class MockController {
    var status: MachineStatus
    var logBuffer: seq<string>
    /** `status.logs` is the log buffer itself (true after the first publication). */
    var logsLinked: bool

    ghost predicate Valid()
      reads this
    {
      && |logBuffer| <= MaxLogs
      && status.logs == (if logsLinked then logBuffer else [])
    }

    constructor ()
      ensures Valid()
      ensures status == MockInitialStatus && logBuffer == [] && !logsLinked
    {
      status := MockInitialStatus;
      logBuffer := [];
      logsLinked := false;
    }

    /** The live status record. */
    function GetStatus(): (s: MachineStatus)
      reads this
      requires Valid()
      ensures s.logs == (if logsLinked then logBuffer else [])
    {
      status
    }

    /** Publishes the status: from now on `status.logs` is the log buffer. */
    method EmitStatus()
      requires Valid()
      modifies this
      ensures Valid() && logsLinked
      ensures status == old(status).(logs := logBuffer) && logBuffer == old(logBuffer)
    {
      status := status.(logs := logBuffer);
      logsLinked := true;
    }

    method AddLog(msg: string)
      requires Valid()
      modifies this
      ensures Valid()
      ensures logBuffer == PushLog(old(logBuffer), msg)
      ensures status == old(status).(logs := status.logs) && logsLinked == old(logsLinked)
    {
      logBuffer := PushLog(logBuffer, msg);
      if logsLinked {
        status := status.(logs := logBuffer);
      }
    }

    /** After the connection delay: Idle. */
    method Connect(pathOrHost: string)
      requires Valid()
      modifies this
      ensures Valid() && logsLinked
      ensures status == old(status).(state := Idle, logs := logBuffer) && logBuffer == old(logBuffer)
    {
      status := status.(state := Idle);
      EmitStatus();
    }

    /** After a short delay: Disconnected. */
    method Disconnect()
      requires Valid()
      modifies this
      ensures Valid() && logsLinked
      ensures status == old(status).(state := Disconnected, logs := logBuffer) && logBuffer == old(logBuffer)
    {
      status := status.(state := Disconnected);
      EmitStatus();
    }

    method HomingStart()
      requires Valid()
      modifies this
      ensures Valid() && logsLinked
      ensures status == old(status).(state := Run, logs := logBuffer) && logBuffer == old(logBuffer)
    {
      status := status.(state := Run);
      EmitStatus();
    }

    method HomingFinish()
      requires Valid()
      modifies this
      ensures Valid() && logsLinked
      ensures status == old(status).(pos := Origin, state := Idle, logs := logBuffer) && logBuffer == old(logBuffer)
    {
      status := status.(pos := Origin);
      status := status.(state := Idle);
      EmitStatus();
    }

    /** Runs, then ends at the origin, Idle. */
    method Homing()
      requires Valid()
      modifies this
      ensures Valid() && logsLinked
      ensures status == old(status).(pos := Origin, state := Idle, logs := logBuffer) && logBuffer == old(logBuffer)
    {
      HomingStart();
      HomingFinish();
    }

    /** The move begins: Run at the requested feed rate. */
    method JogStart(axis: Axis, dist: real, feedrate: real)
      requires Valid()
      modifies this
      ensures Valid() && logsLinked
      ensures status == old(status).(state := Run, feedrate := feedrate, logs := logBuffer) && logBuffer == old(logBuffer)
    {
      status := status.(state := Run);
      status := status.(feedrate := feedrate);
      EmitStatus();
    }

    /** The move ends: the axis has advanced by `dist`, Idle, feed rate 0. */
    method JogFinish(axis: Axis, dist: real)
      requires Valid()
      modifies this
      ensures Valid() && logsLinked
      ensures status == old(status).(pos := Moved(old(status).pos, axis, dist), state := Idle, feedrate := 0.0, logs := logBuffer)
      ensures logBuffer == old(logBuffer)
    {
      status := status.(pos := status.pos.With(axis, status.pos.Get(axis) + dist));
      status := status.(state := Idle);
      status := status.(feedrate := 0.0);
      EmitStatus();
    }

    method Jog(axis: Axis, dist: real, feedrate: real)
      requires Valid()
      modifies this
      ensures Valid() && logsLinked
      ensures status == old(status).(pos := Moved(old(status).pos, axis, dist), state := Idle, feedrate := 0.0, logs := logBuffer)
      ensures logBuffer == old(logBuffer)
    {
      JogStart(axis, dist, feedrate);
      JogFinish(axis, dist);
    }

    /** The job begins: Run, published before the first line is processed. */
    method UploadStart()
      requires Valid()
      modifies this
      ensures Valid() && logsLinked
      ensures status == old(status).(state := Run, logs := logBuffer) && logBuffer == old(logBuffer)
    {
      status := status.(state := Run);
      EmitStatus();
    }

    /** Runs through the job, pausing before every tenth line, then Idle; the position does not move. */
    method UploadFile(gcode: string, filename: string) returns (pauses: nat)
      requires Valid()
      modifies this
      ensures Valid() && logsLinked
      ensures status == old(status).(state := Idle, logs := logBuffer) && logBuffer == old(logBuffer)
      ensures pauses == Pauses(|Split(gcode, '\n')|)
    {
      var lines := Split(gcode, '\n');
      UploadStart();
      pauses := 0;
      var i := 0;
      while i < |lines|
        invariant 0 <= i <= |lines|
        invariant pauses == Pauses(i)
      {
        if i % 10 == 0 {
          pauses := pauses + 1;
        }
        i := i + 1;
      }
      status := status.(state := Idle);
      EmitStatus();
    }

    /** Logs the command and an `ok` reply, in that order, then publishes. */
    method Command(gcode: string)
      requires Valid()
      modifies this
      ensures Valid() && logsLinked
      ensures logBuffer == Newest(old(logBuffer) + [">> " + gcode, "ok"], MaxLogs)
      ensures status == old(status).(logs := logBuffer)
    {
      ghost var before := logBuffer;
      AddLog(">> " + gcode);
      AddLog("ok");
      EmitStatus();
      PushTwice(before, ">> " + gcode, "ok");
    }

    /** The search begins: logged, Run. */
    method ProbeStart(opts: ProbeOptions, str: real -> string)
      requires Valid()
      modifies this
      ensures Valid() && logsLinked
      ensures logBuffer == PushLog(old(logBuffer), ProbeLog(opts, str)[0])
      ensures status == old(status).(state := Run, logs := logBuffer)
    {
      AddLog("[Probe] Searching for surface at F" + str(opts.feedrate) + "...");
      status := status.(state := Run);
      EmitStatus();
    }

    /** Contact: logged, and z holds the plate thickness (not published). */
    method ProbeContact(opts: ProbeOptions)
      requires Valid()
      modifies this
      ensures Valid() && logsLinked == old(logsLinked)
      ensures logBuffer == PushLog(old(logBuffer), "[Probe] Contact! Setting Z.")
      ensures status == old(status).(pos := old(status).pos.(z := opts.plateThickness), logs := status.logs)
    {
      AddLog("[Probe] Contact! Setting Z.");
      status := status.(pos := status.pos.(z := opts.plateThickness));
    }

    /** Pull-off: z holds the retract height, logged, Idle. */
    method ProbeRetract(opts: ProbeOptions, str: real -> string)
      requires Valid()
      modifies this
      ensures Valid() && logsLinked
      ensures logBuffer == PushLog(old(logBuffer), ProbeLog(opts, str)[2])
      ensures status == old(status).(pos := old(status).pos.(z := opts.retract), state := Idle, logs := logBuffer)
    {
      status := status.(pos := status.pos.(z := opts.retract));
      AddLog("[Probe] Retracted to " + str(opts.retract));
      status := status.(state := Idle);
      EmitStatus();
    }

    /** Ends Idle with z at the retract height and x, y untouched; the three probe lines are logged in order. */
    method Probe(opts: ProbeOptions, str: real -> string)
      requires Valid()
      modifies this
      ensures Valid() && logsLinked
      ensures logBuffer == Newest(old(logBuffer) + ProbeLog(opts, str), MaxLogs)
      ensures status == old(status).(pos := old(status).pos.(z := opts.retract), state := Idle, logs := logBuffer)
    {
      ghost var before := logBuffer;
      ProbeStart(opts, str);
      ProbeContact(opts);
      ProbeRetract(opts, str);
      var log := ProbeLog(opts, str);
      PushThrice(before, log[0], log[1], log[2]);
      assert [log[0], log[1], log[2]] == log;
    }
  }
}
