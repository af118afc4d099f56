/**
 * The controller slot of the HTTP server (server/src/index.ts:47-137): at most one
 * machine at a time, replaced by `/connect`, used by `/command`, `/probe`, `/jog`
 * and `/status`.
 *
 * Controllers are identified by kind and by the order of their creation; what the
 * server asks of them is recorded as a list of invocations. How each awaited call
 * on a controller ends is a parameter (`Outcome`); `Waiting` means the handler is
 * still awaiting it and has not replied.
 */
module Server {
  import opened Wrappers
  import opened MachineInterface

  datatype Kind = GrblKind | KlipperKind | MockKind

  /** The `n`-th controller the server created. */
  datatype Controller = Controller(kind: Kind, n: nat)

  /** A controller operation the server invoked, with its arguments. */
  datatype Call =
    | ConnectCall(target: string, baud: Option<real>)
    | DisconnectCall
    | CommandCall(gcode: string)
    | ProbeCall(opts: ProbeOptions)
    | JogCall(axis: Axis, dist: real, feedrate: real)

  datatype Invocation = Invocation(on: Controller, call: Call)

  /** The JSON bodies the handlers reply with. */
  datatype Body =
    | ConnectedBody(machineType: string)                  // {status: 'connected', type}
    | ErrorBody(error: string)                            // {error}
    | StatusBody(status: string)                          // {status}
    | ProbeErrorBody(message: string)                     // {status: 'error', message}
    | StatusReport(report: Option<MachineStatus>, ip: string)  // {...status, ip}; None is {state: 'Disconnected'}
    | InternalError(message: string)                      // what a thrown error becomes

  datatype Reply = Reply(code: nat, body: Body)

  const SimDevice := "mock-device"

  /** The reply once an awaited call has ended: `ok` on success, a server error otherwise. */
  function AfterCall(outcome: Outcome, success: Body): (r: Option<Reply>)
    ensures r.None? <==> outcome.Waiting?
    ensures outcome.Done? ==> r == Some(Reply(200, success))
    ensures outcome.Failed? ==> r == Some(Reply(500, InternalError(outcome.reason)))
  {
    match outcome
    case Done => Some(Reply(200, success))
    case Failed(m) => Some(Reply(500, InternalError(m)))
    case Waiting => None
  }

  /** The `/status` body: the controller's status, or only the Disconnected state, and the address. */
  function StatusReply(current: Option<MachineStatus>, ip: string): (r: Reply)
    ensures r.code == 200 && r.body.StatusReport? && r.body.ip == ip
    ensures r.body.report == current
  {
    Reply(200, StatusReport(current, ip))
  }

  class Server {
    var machine: Option<Controller>
    /** How many controllers have been created. */
    var created: nat
    /** Every controller operation invoked, in order. */
    var invocations: seq<Invocation>

    ghost predicate Valid()
      reads this
    {
      machine.Some? ==> 1 <= machine.value.n <= created
    }

    /** At start-up in simulation mode a mock controller is installed and connected without waiting. */
    constructor (isSim: bool)
      ensures Valid()
      ensures isSim ==> machine == Some(Controller(MockKind, 1)) && created == 1
                        && invocations == [Invocation(Controller(MockKind, 1), ConnectCall(SimDevice, None))]
      ensures !isSim ==> machine == None && created == 0 && invocations == []
    {
      if isSim {
        machine := Some(Controller(MockKind, 1));
        created := 1;
        invocations := [Invocation(Controller(MockKind, 1), ConnectCall(SimDevice, None))];
      } else {
        machine := None;
        created := 0;
        invocations := [];
      }
    }

    method Invoke(c: Controller, call: Call)
      modifies this
      ensures invocations == old(invocations) + [Invocation(c, call)]
      ensures machine == old(machine) && created == old(created)
    {
      invocations := invocations + [Invocation(c, call)];
    }

    /** A new controller of the given kind. */
    method Create(kind: Kind) returns (c: Controller)
      requires Valid()
      modifies this
      ensures Valid()
      ensures created == old(created) + 1 && c == Controller(kind, created)
      ensures machine == old(machine) && invocations == old(invocations)
    {
      created := created + 1;
      c := Controller(kind, created);
    }

    /**
     * `/connect`. An existing machine is disconnected first and any error of that is
     * swallowed. A known type installs a new controller before its connect is awaited,
     * so it stays installed when the connect throws; an unknown type is refused and the
     * old, now disconnected, machine stays in the slot.
     */
    method Connect(machineType: string, port: string, baud: Option<real>, host: string,
                   disconnected: Outcome, connected: Outcome) returns (reply: Option<Reply>)
      requires Valid()
      modifies this
      ensures Valid()
      ensures old(machine).Some? && disconnected.Waiting? ==>
        reply == None && machine == old(machine) && created == old(created)
        && invocations == old(invocations) + [Invocation(old(machine).value, DisconnectCall)]
      ensures old(machine).None? || !disconnected.Waiting? ==>
        var before := old(invocations) + (if old(machine).Some? then [Invocation(old(machine).value, DisconnectCall)] else []);
        if machineType in {"grbl", "klipper", "mock"} then
          var kind := if machineType == "grbl" then GrblKind else if machineType == "klipper" then KlipperKind else MockKind;
          var call := if machineType == "grbl" then ConnectCall(port, baud)
                      else if machineType == "klipper" then ConnectCall(host, None)
                      else ConnectCall(SimDevice, None);
          && created == old(created) + 1 && machine == Some(Controller(kind, created))
          && invocations == before + [Invocation(Controller(kind, created), call)]
          && reply == AfterCall(connected, ConnectedBody(machineType))
        else
          && machine == old(machine) && created == old(created) && invocations == before
          && reply == Some(Reply(400, ErrorBody("Invalid machine type")))
    {
      if machine.Some? {
        Invoke(machine.value, DisconnectCall);
        if disconnected.Waiting? {
          return None;
        }
      }
      var c: Controller;
      if machineType == "grbl" {
        c := Create(GrblKind);
        machine := Some(c);
        Invoke(c, ConnectCall(port, baud));
      } else if machineType == "klipper" {
        c := Create(KlipperKind);
        machine := Some(c);
        Invoke(c, ConnectCall(host, None));
      } else if machineType == "mock" {
        c := Create(MockKind);
        machine := Some(c);
        Invoke(c, ConnectCall(SimDevice, None));
      } else {
        return Some(Reply(400, ErrorBody("Invalid machine type")));
      }
      reply := AfterCall(connected, ConnectedBody(machineType));
    }

    /** `/command`: forwarded when there is a machine; `sent` either way. */
    method Command(gcode: string, outcome: Outcome) returns (reply: Option<Reply>)
      requires Valid()
      modifies this
      ensures Valid() && machine == old(machine) && created == old(created)
      ensures machine.None? ==> reply == Some(Reply(200, StatusBody("sent"))) && invocations == old(invocations)
      ensures machine.Some? ==> reply == AfterCall(outcome, StatusBody("sent"))
                                && invocations == old(invocations) + [Invocation(machine.value, CommandCall(gcode))]
    {
      if machine.Some? {
        Invoke(machine.value, CommandCall(gcode));
        if outcome.Waiting? {
          return None;
        } else if outcome.Failed? {
          return Some(Reply(500, InternalError(outcome.reason)));
        }
      }
      reply := Some(Reply(200, StatusBody("sent")));
    }

    /** `/probe`: `disconnected` without a machine; otherwise `ok`, or the thrown message as a body. */
    method Probe(opts: ProbeOptions, outcome: Outcome) returns (reply: Option<Reply>)
      requires Valid()
      modifies this
      ensures Valid() && machine == old(machine) && created == old(created)
      ensures machine.None? ==> reply == Some(Reply(200, StatusBody("disconnected"))) && invocations == old(invocations)
      ensures machine.Some? ==> invocations == old(invocations) + [Invocation(machine.value, ProbeCall(opts))]
      ensures machine.Some? ==> match outcome
        case Done => reply == Some(Reply(200, StatusBody("ok")))
        case Failed(m) => reply == Some(Reply(200, ProbeErrorBody(m)))
        case Waiting => reply == None
    {
      if machine.Some? {
        Invoke(machine.value, ProbeCall(opts));
        match outcome
        case Done => return Some(Reply(200, StatusBody("ok")));
        case Failed(m) => return Some(Reply(200, ProbeErrorBody(m)));
        case Waiting => return None;
      }
      reply := Some(Reply(200, StatusBody("disconnected")));
    }

    /** `/jog`: refused without a machine; otherwise forwarded with its arguments unchanged. */
    method Jog(axis: Axis, dist: real, feedrate: real, outcome: Outcome) returns (reply: Option<Reply>)
      requires Valid()
      modifies this
      ensures Valid() && machine == old(machine) && created == old(created)
      ensures machine.None? ==> reply == Some(Reply(400, ErrorBody("Not connected"))) && invocations == old(invocations)
      ensures machine.Some? ==> reply == AfterCall(outcome, StatusBody("ok"))
                                && invocations == old(invocations) + [Invocation(machine.value, JogCall(axis, dist, feedrate))]
    {
      if machine.None? {
        return Some(Reply(400, ErrorBody("Not connected")));
      }
      Invoke(machine.value, JogCall(axis, dist, feedrate));
      reply := AfterCall(outcome, StatusBody("ok"));
    }

    /**
     * `/status`: the installed controller's status (`current`, what its `getStatus`
     * returns) or only the Disconnected state, with the server's address.
     */
    method Status(current: MachineStatus, ip: string) returns (reply: Reply)
      ensures reply == StatusReply(if machine.Some? then Some(current) else None, ip)
    {
      reply := Reply(200, StatusReport(if machine.Some? then Some(current) else None, ip));
    }
  }
}
