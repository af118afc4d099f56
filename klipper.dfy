/**
 * The Klipper controller (server/src/machine/KlipperController.ts): JSON-RPC 2.0
 * requests over a WebSocket to the Moonraker API, two notification kinds coming
 * back, and the limits and macro names read from the printer configuration.
 *
 * Every request is a promise that only a reply could settle. How each request
 * settles is an oracle `settle` indexed by request id; nothing in the controller
 * itself ever settles one (see `NoReplyStallsAfterFirst`).
 */
module Klipper {
  import opened Wrappers
  import opened Text
  import opened MachineInterface

  const JsonRpcVersion := "2.0"
  const GcodeScript := "printer.gcode.script"
  const ObjectsSubscribe := "printer.objects.subscribe"
  const ObjectsQuery := "printer.objects.query"
  const NotConnected := "Not connected"
  const ProbeUnsupported := "Klipper native probe not yet mapped. Use generic macros."

  /** The `params` member of a request. */
  datatype Params =
    | Script(script: string)
    | Subscribe(objects: seq<(string, seq<string>)>)
    | Query(queried: seq<string>)

  /** Toolhead position, status and speed, and the print state. */
  const SubscribedObjects := Subscribe([("toolhead", ["position", "status", "max_velocity"]), ("print_stats", ["state"])])

  /** The whole `configfile` object. */
  const ConfigQuery := Query(["configfile"])

  /** `{jsonrpc, method, params, id}` */
  datatype Request = Request(jsonrpc: string, methodName: string, params: Params, id: nat)

  function ScriptRequest(cmd: string, id: nat): Request {
    Request(JsonRpcVersion, GcodeScript, Script(cmd), id)
  }

  /** The script requests for `cmds`, numbered from `first`. */
  function Scripts(cmds: seq<string>, first: nat): (r: seq<Request>)
    ensures |r| == |cmds|
    ensures forall k :: 0 <= k < |cmds| ==> r[k] == ScriptRequest(cmds[k], first + k)
  {
    seq(|cmds|, k requires 0 <= k < |cmds| => ScriptRequest(cmds[k], first + k))
  }

  lemma ScriptsStep(cmds: seq<string>, p: nat, first: nat)
    requires p < |cmds|
    ensures Scripts(cmds[..p + 1], first) == Scripts(cmds[..p], first) + [ScriptRequest(cmds[p], first + p)]
  {
    assert Scripts(cmds[..p + 1], first) == Scripts(cmds[..p], first) + [ScriptRequest(cmds[p], first + p)];
  }

  // ---------------------------------------------------------------------------
  // Awaited chains of scripts

  /** One section of the printer configuration: option name to its text. */
  type Section = map<string, string>

  /** The `configfile.config` object: its sections, in key order. */
  type Config = seq<(string, Section)>

  /**
   * How a request's promise ends. `Resolved` carries the configuration when the
   * result holds `status.configfile.config`; a result without it carries `None`.
   */
  datatype Settlement = Resolved(config: Option<Config>) | Rejected(reason: string) | Unsettled

  function StepOutcome(s: Settlement): Outcome {
    match s
    case Resolved(_) => Done
    case Rejected(m) => Failed(m)
    case Unsettled => Waiting
  }

  /**
   * The outcome of awaiting `n` scripts one after another, the first with id
   * `base + 1`: each is sent only when the one before it resolved, and without a
   * socket the first call rejects with "Not connected".
   */
  function ChainOutcome(open: bool, base: nat, settle: nat -> Settlement, n: nat): Outcome {
    if n == 0 then Done
    else
      var prev := ChainOutcome(open, base, settle, n - 1);
      if prev != Done then prev
      else if !open then Failed(NotConnected)
      else StepOutcome(settle(base + n))
  }

  /** How many of the `n` scripts of such a chain are sent. */
  function ChainSent(open: bool, base: nat, settle: nat -> Settlement, n: nat): (c: nat)
    ensures c <= n
  {
    if n == 0 then 0
    else if ChainOutcome(open, base, settle, n - 1) != Done || !open then ChainSent(open, base, settle, n - 1)
    else n
  }

  /**
   * A chain completes exactly when there is nothing to send, or there is a socket
   * and every request resolves.
   */
  lemma {:induction false} ChainDone(open: bool, base: nat, settle: nat -> Settlement, n: nat)
    ensures ChainOutcome(open, base, settle, n) == Done <==>
      n == 0 || (open && forall id :: base < id <= base + n ==> settle(id).Resolved?)
  {
    if n > 0 {
      ChainDone(open, base, settle, n - 1);
    }
  }

  /**
   * A later script is sent only after every earlier one resolved; without a socket
   * nothing is sent; a chain that sends fewer than all its scripts has not completed.
   */
  lemma {:induction false} ChainSendsAfterSuccess(open: bool, base: nat, settle: nat -> Settlement, n: nat)
    ensures var c := ChainSent(open, base, settle, n);
      && (forall id :: base < id < base + c ==> settle(id).Resolved?)
      && (!open ==> c == 0)
      && (c < n ==> ChainOutcome(open, base, settle, n) != Done)
      && (open && n > 0 ==> c >= 1)
  {
    if n > 0 {
      ChainSendsAfterSuccess(open, base, settle, n - 1);
      if ChainOutcome(open, base, settle, n - 1) == Done && open {
        ChainDone(open, base, settle, n - 1);
      }
    }
  }

  /** Once a chain has stopped, the scripts after it change nothing. */
  lemma {:induction false} ChainStopped(open: bool, base: nat, settle: nat -> Settlement, p: nat, n: nat)
    requires p <= n
    requires ChainOutcome(open, base, settle, p) != Done
    ensures ChainOutcome(open, base, settle, n) == ChainOutcome(open, base, settle, p)
    ensures ChainSent(open, base, settle, n) == ChainSent(open, base, settle, p)
    decreases n - p
  {
    if p < n {
      ChainStopped(open, base, settle, p, n - 1);
    }
  }

  /**
   * With no reply ever settling a request, an awaited chain sends its first script
   * and waits for ever: a jog never gets past `G91`, an upload past its first line.
   */
  lemma NoReplyStallsAfterFirst(base: nat, n: nat)
    requires n >= 1
    ensures ChainSent(true, base, _ => Unsettled, n) == 1
    ensures ChainOutcome(true, base, _ => Unsettled, n) == Waiting
  {
    ChainStopped(true, base, _ => Unsettled, 1, n);
  }

  /**
   * Where a chain over `cmds` stands after `n` of its steps: the id counter has
   * advanced by the number sent, and exactly those scripts were appended to `sent0`.
   */
  ghost predicate ChainState(open: bool, base: nat, settle: nat -> Settlement, cmds: seq<string>, n: nat,
                             sent0: seq<Request>, sent: seq<Request>, reqId: nat)
    requires n <= |cmds|
  {
    var c := ChainSent(open, base, settle, n);
    reqId == base + c && sent == sent0 + Scripts(cmds[..c], base + 1)
  }

  // ---------------------------------------------------------------------------
  // Configuration extraction

  /** `config[key]`: the first section of that name, if any. */
  function Lookup(config: Config, key: string): (r: Option<Section>)
    ensures r.None? <==> forall k :: 0 <= k < |config| ==> config[k].0 != key
    ensures r.Some? ==> (key, r.value) in config
  {
    if config == [] then None
    else if config[0].0 == key then Some(config[0].1)
    else
      var r := Lookup(config[1..], key);
      assert forall k :: 1 <= k < |config| ==> config[k] == config[1..][k - 1];
      r
  }

  /** `parseFloat(sec[key]) || fallback`: a missing, unparsable or zero value gives the fallback. */
  function NumberOr(sec: Section, key: string, fallback: real, num: string -> Option<real>): real {
    if key in sec && num(sec[key]).Some? && num(sec[key]).value != 0.0 then num(sec[key]).value else fallback
  }

  function StepperKey(a: Axis): string {
    "stepper_" + AxisName(a)
  }

  /** One axis: the empty record without a stepper section, else min (default 0) and max (default 200). */
  function AxisLimitsOf(config: Config, a: Axis, num: string -> Option<real>): AxisLimits {
    match Lookup(config, StepperKey(a))
    case None => Unset
    case Some(sec) => Range(NumberOr(sec, "position_min", 0.0, num), NumberOr(sec, "position_max", 200.0, num))
  }

  function ExtractLimits(config: Config, num: string -> Option<real>): Limits {
    Limits(AxisLimitsOf(config, X, num), AxisLimitsOf(config, Y, num), AxisLimitsOf(config, Z, num))
  }

  /**
   * An axis is left as the empty record exactly when the configuration has no
   * stepper section for it; otherwise its bounds are the parsed values, zero and
   * unparsable ones replaced, so a maximum is never zero.
   */
  lemma LimitsFromConfig(config: Config, a: Axis, num: string -> Option<real>)
    ensures ExtractLimits(config, num).Get(a).Unset? <==> forall k :: 0 <= k < |config| ==> config[k].0 != StepperKey(a)
    ensures ExtractLimits(config, num).Get(a).Range? ==> ExtractLimits(config, num).Get(a).max != 0.0
    ensures match Lookup(config, StepperKey(a))
      case None => true
      case Some(sec) =>
        var l := ExtractLimits(config, num).Get(a);
        && (l.min == 0.0 || ("position_min" in sec && num(sec["position_min"]) == Some(l.min)))
        && (l.max == 200.0 || ("position_max" in sec && num(sec["position_max"]) == Some(l.max)))
  {
  }

  /** A parsed non-zero `position_min` is the axis minimum. */
  lemma ParsedMinUsed(config: Config, a: Axis, sec: Section, num: string -> Option<real>, v: real)
    requires Lookup(config, StepperKey(a)) == Some(sec)
    requires "position_min" in sec && num(sec["position_min"]) == Some(v) && v != 0.0
    ensures ExtractLimits(config, num).Get(a) == Range(v, ExtractLimits(config, num).Get(a).max)
  {
  }

  /** A parsed non-zero `position_max` is the axis maximum. */
  lemma ParsedMaxUsed(config: Config, a: Axis, sec: Section, num: string -> Option<real>, v: real)
    requires Lookup(config, StepperKey(a)) == Some(sec)
    requires "position_max" in sec && num(sec["position_max"]) == Some(v) && v != 0.0
    ensures ExtractLimits(config, num).Get(a) == Range(ExtractLimits(config, num).Get(a).min, v)
  {
  }

  /** A missing, unparsable (NaN) or zero `position_min` gives minimum 0. */
  lemma MissingMinIsZero(config: Config, a: Axis, sec: Section, num: string -> Option<real>)
    requires Lookup(config, StepperKey(a)) == Some(sec)
    requires "position_min" !in sec || num(sec["position_min"]) in {None, Some(0.0)}
    ensures ExtractLimits(config, num).Get(a) == Range(0.0, ExtractLimits(config, num).Get(a).max)
  {
  }

  /** A missing, unparsable (NaN) or zero `position_max` gives maximum 200. */
  lemma MissingMaxIs200(config: Config, a: Axis, sec: Section, num: string -> Option<real>)
    requires Lookup(config, StepperKey(a)) == Some(sec)
    requires "position_max" !in sec || num(sec["position_max"]) in {None, Some(0.0)}
    ensures ExtractLimits(config, num).Get(a) == Range(ExtractLimits(config, num).Get(a).min, 200.0)
  {
  }

  /** A parsed JSON object: no key occurs twice. */
  ghost predicate UniqueKeys(config: Config) {
    forall i, j :: 0 <= i < j < |config| ==> config[i].0 != config[j].0
  }

  /** With unique keys, `config[key]` is the one section stored under that key. */
  lemma {:induction false} LookupUnique(config: Config, k: nat)
    requires UniqueKeys(config) && k < |config|
    ensures Lookup(config, config[k].0) == Some(config[k].1)
  {
    if k > 0 {
      assert config[0].0 != config[k].0;
      assert config[1..][k - 1] == config[k];
      LookupUnique(config[1..], k - 1);
    }
  }

  const MacroPrefix := "gcode_macro "

  /** `key.replace('gcode_macro ', '')` of every key starting with the prefix, in key order. */
  function Macros(config: Config): (r: seq<string>)
    ensures |r| <= |config|
  {
    if config == [] then []
    else
      var key := config[|config| - 1].0;
      Macros(config[..|config| - 1]) + (if StartsWith(key, MacroPrefix) then [key[|MacroPrefix|..]] else [])
  }

  /** Macro names follow the order of their sections. */
  lemma {:induction false} MacrosAppend(a: Config, b: Config)
    ensures Macros(a + b) == Macros(a) + Macros(b)
    decreases |b|
  {
    if b == [] {
      assert a + b == a;
    } else {
      MacrosAppend(a, b[..|b| - 1]);
      assert (a + b)[..|a + b| - 1] == a + b[..|b| - 1];
    }
  }

  /** A name is listed exactly when the configuration has a section `gcode_macro <name>`. */
  lemma {:induction false} MacroNames(config: Config, m: string)
    ensures m in Macros(config) <==> exists k :: 0 <= k < |config| && config[k].0 == MacroPrefix + m
  {
    if config != [] {
      var n := |config| - 1;
      var key := config[n].0;
      MacroNames(config[..n], m);
      assert forall k :: 0 <= k < n ==> config[..n][k] == config[k];
      if StartsWith(key, MacroPrefix) {
        assert key == MacroPrefix + key[|MacroPrefix|..];
      }
      if key == MacroPrefix + m {
        assert key[..|MacroPrefix|] == MacroPrefix;
        assert key[|MacroPrefix|..] == m;
      }
    }
  }

  // ---------------------------------------------------------------------------
  // Notifications

  /** An inbound frame, already parsed. */
  datatype Message =
    | StatusUpdate(position: Option<seq<real>>)  // `notify_status_update`; `params[0].toolhead.position`
    | GcodeResponse(line: string)                // `notify_gcode_response`; `params[0]`
    | Reply(id: nat)                             // a response to a request
    | OtherMethod(name: string)

  /** The status after one inbound frame: a toolhead position or a console line; nothing else. */
  function AfterMessage(st: MachineStatus, msg: Message): MachineStatus {
    match msg
    case StatusUpdate(Some(p)) =>
      if |p| >= 3 then st.(pos := Position(p[0], p[1], p[2])) else st
    case GcodeResponse(line) => st.(logs := PushLog(st.logs, line))
    case _ => st
  }

  function AfterMessages(st: MachineStatus, msgs: seq<Message>): MachineStatus
    decreases |msgs|
  {
    if msgs == [] then st else AfterMessages(AfterMessage(st, msgs[0]), msgs[1..])
  }

  /** The console lines carried by a run of frames, in order. */
  function ResponseLines(msgs: seq<Message>): (r: seq<string>)
    ensures |r| <= |msgs|
  {
    if msgs == [] then []
    else (if msgs[0].GcodeResponse? then [msgs[0].line] else []) + ResponseLines(msgs[1..])
  }

  /**
   * Over any run of frames the log holds exactly the newest 50 console lines of
   * what it held plus what arrived, in arrival order.
   */
  lemma {:induction false} ResponsesKeepNewest(st: MachineStatus, msgs: seq<Message>)
    requires |st.logs| <= MaxLogs
    ensures AfterMessages(st, msgs).logs == Newest(st.logs + ResponseLines(msgs), MaxLogs)
    decreases |msgs|
  {
    if msgs == [] {
      assert st.logs + [] == st.logs;
    } else {
      var st1 := AfterMessage(st, msgs[0]);
      var rest := ResponseLines(msgs[1..]);
      assert AfterMessages(st, msgs) == AfterMessages(st1, msgs[1..]);
      ResponsesKeepNewest(st1, msgs[1..]);
      if msgs[0].GcodeResponse? {
        assert ResponseLines(msgs) == [msgs[0].line] + rest;
        PushThenNewest(st.logs, msgs[0].line, rest);
      } else {
        assert ResponseLines(msgs) == rest;
      }
    }
  }

  // ---------------------------------------------------------------------------
  // The controller

  class KlipperController {
    /** The URL of the current socket (`ws`); `None` once it has closed. */
    var socket: Option<string>
    var reqId: nat
    /** The keys of `pendingRequests`, in insertion order. */
    var pending: seq<nat>
    /** Every request written to a socket, in order. */
    var sent: seq<Request>
    var status: MachineStatus

    /** Ids run 1, 2, 3, ...; every request sent is pending; the log respects its cap. */
    ghost predicate Valid()
      reads this
    {
      && |sent| == reqId && |pending| == reqId
      && (forall k :: 0 <= k < |sent| ==> sent[k].id == k + 1)
      && (forall k :: 0 <= k < |pending| ==> pending[k] == k + 1)
      && |status.logs| <= MaxLogs
    }

    constructor ()
      ensures Valid()
      ensures socket == None && reqId == 0 && pending == [] && sent == [] && status == InitialStatus
    {
      socket := None;
      reqId := 0;
      pending := [];
      sent := [];
      status := InitialStatus;
    }

    /** The live status record. */
    function GetStatus(): (s: MachineStatus)
      reads this
      requires Valid()
      ensures |s.logs| <= MaxLogs
    {
      status
    }

    /** Opens a socket to `ws://<host>/websocket`; the open, close and error events follow. */
    method Connect(host: string)
      requires Valid()
      modifies this
      ensures Valid()
      ensures socket == Some("ws://" + host + "/websocket")
      ensures status == old(status) && reqId == old(reqId) && sent == old(sent) && pending == old(pending)
    {
      socket := Some("ws://" + host + "/websocket");
    }

    /**
     * Takes the next id, records it as pending and sends the request; without a
     * socket the call rejects and nothing changes.
     */
    method RpcCall(name: string, params: Params) returns (r: Result<nat, string>)
      requires Valid()
      modifies this
      ensures Valid()
      ensures socket == old(socket) && status == old(status)
      ensures old(socket).None? ==> r == Err(NotConnected) && reqId == old(reqId) && sent == old(sent) && pending == old(pending)
      ensures old(socket).Some? ==> && r == Ok(reqId) && reqId == old(reqId) + 1
                                    && pending == old(pending) + [reqId]
                                    && sent == old(sent) + [Request(JsonRpcVersion, name, params, reqId)]
    {
      if socket.None? {
        return Err(NotConnected);
      }
      reqId := reqId + 1;
      pending := pending + [reqId];
      sent := sent + [Request(JsonRpcVersion, name, params, reqId)];
      r := Ok(reqId);
    }

    /** `await this.sendGcode(cmd)`: the script request, then however its promise ends. */
    method SendGcode(cmd: string, settle: nat -> Settlement) returns (r: Outcome)
      requires Valid()
      modifies this
      ensures Valid()
      ensures socket == old(socket) && status == old(status)
      ensures old(socket).None? ==> r == Failed(NotConnected) && reqId == old(reqId) && sent == old(sent)
      ensures old(socket).Some? ==> && reqId == old(reqId) + 1 && sent == old(sent) + [ScriptRequest(cmd, reqId)]
                                    && r == StepOutcome(settle(reqId))
    {
      var call := RpcCall(GcodeScript, Script(cmd));
      match call
      case Err(e) => r := Failed(e);
      case Ok(id) => r := StepOutcome(settle(id));
    }

    /** Step `p` of an awaited chain over `cmds`, taken only while every earlier step resolved. */
    method AwaitScript(ghost base: nat, ghost sent0: seq<Request>, ghost cmds: seq<string>, ghost p: nat, cmd: string,
                       settle: nat -> Settlement) returns (r: Outcome)
      requires Valid() && p < |cmds| && cmd == cmds[p]
      requires ChainOutcome(socket.Some?, base, settle, p) == Done
      requires ChainState(socket.Some?, base, settle, cmds, p, sent0, sent, reqId)
      modifies this
      ensures Valid() && socket == old(socket) && status == old(status)
      ensures ChainState(socket.Some?, base, settle, cmds, p + 1, sent0, sent, reqId)
      ensures r == ChainOutcome(socket.Some?, base, settle, p + 1)
    {
      ChainSendsAfterSuccess(socket.Some?, base, settle, p);
      ghost var open := socket.Some?;
      r := SendGcode(cmd, settle);
      if open {
        ScriptsStep(cmds, p, base + 1);
      }
    }

    method Homing(settle: nat -> Settlement) returns (r: Outcome)
      requires Valid()
      modifies this
      ensures Valid() && socket == old(socket) && status == old(status)
      ensures ChainState(socket.Some?, old(reqId), settle, ["G28"], 1, old(sent), sent, reqId)
      ensures r == ChainOutcome(socket.Some?, old(reqId), settle, 1)
    {
      r := AwaitScript(reqId, sent, ["G28"], 0, "G28", settle);
    }

    /** `G91`, `G1 <AXIS><dist> F<feedrate>`, `G90`, each awaited before the next. */
    method Jog(axis: Axis, dist: real, feedrate: real, str: real -> string, settle: nat -> Settlement) returns (r: Outcome)
      requires Valid()
      modifies this
      ensures Valid() && socket == old(socket) && status == old(status)
      ensures ChainState(socket.Some?, old(reqId), settle, JogScripts(axis, dist, feedrate, str), 3, old(sent), sent, reqId)
      ensures r == ChainOutcome(socket.Some?, old(reqId), settle, 3)
    {
      ghost var cmds := JogScripts(axis, dist, feedrate, str);
      ghost var open := socket.Some?;
      ghost var base := reqId;
      ghost var sent0 := sent;
      r := AwaitScript(base, sent0, cmds, 0, "G91", settle);
      if r != Done {
        ChainStopped(open, base, settle, 1, 3);
        return;
      }
      r := AwaitScript(base, sent0, cmds, 1, "G1 " + [AxisLetter(axis)] + str(dist) + " F" + str(feedrate), settle);
      if r != Done {
        ChainStopped(open, base, settle, 2, 3);
        return;
      }
      r := AwaitScript(base, sent0, cmds, 2, "G90", settle);
    }

    /** Sends the text verbatim as one script and awaits it. */
    method Command(gcode: string, settle: nat -> Settlement) returns (r: Outcome)
      requires Valid()
      modifies this
      ensures Valid() && socket == old(socket) && status == old(status)
      ensures ChainState(socket.Some?, old(reqId), settle, [gcode], 1, old(sent), sent, reqId)
      ensures r == ChainOutcome(socket.Some?, old(reqId), settle, 1)
    {
      r := AwaitScript(reqId, sent, [gcode], 0, gcode, settle);
    }

    /** Every non-blank line of the job, trimmed, as one awaited script after another. */
    method UploadFile(gcode: string, filename: string, settle: nat -> Settlement) returns (r: Outcome)
      requires Valid()
      modifies this
      ensures Valid() && socket == old(socket) && status == old(status)
      ensures var cmds := JobLines(Split(gcode, '\n'));
        && ChainState(socket.Some?, old(reqId), settle, cmds, |cmds|, old(sent), sent, reqId)
        && r == ChainOutcome(socket.Some?, old(reqId), settle, |cmds|)
    {
      var lines := Split(gcode, '\n');
      ghost var cmds := JobLines(lines);
      ghost var open := socket.Some?;
      ghost var base := reqId;
      ghost var sent0 := sent;
      ghost var p := 0;
      r := Done;
      var i := 0;
      while i < |lines| && r == Done
        invariant 0 <= i <= |lines|
        invariant p == |JobLines(lines[..i])| && p <= |cmds| && cmds[..p] == JobLines(lines[..i])
        invariant Valid() && socket == old(socket) && status == old(status)
        invariant ChainState(open, base, settle, cmds, p, sent0, sent, reqId)
        invariant r == ChainOutcome(open, base, settle, p)
      {
        r, p := UploadLine(base, sent0, lines, i, p, settle);
        i := i + 1;
      }
      if r == Done {
        assert lines[..i] == lines;
      } else {
        ChainStopped(open, base, settle, p, |cmds|);
      }
    }

    /** One pass of the upload loop: the line, trimmed, is awaited as a script unless it is blank. */
    method UploadLine(ghost base: nat, ghost sent0: seq<Request>, lines: seq<string>, i: nat, ghost p: nat,
                      settle: nat -> Settlement) returns (r: Outcome, ghost q: nat)
      requires Valid() && i < |lines|
      requires p == |JobLines(lines[..i])| && p <= |JobLines(lines)| && JobLines(lines)[..p] == JobLines(lines[..i])
      requires ChainState(socket.Some?, base, settle, JobLines(lines), p, sent0, sent, reqId)
      requires ChainOutcome(socket.Some?, base, settle, p) == Done
      modifies this
      ensures Valid() && socket == old(socket) && status == old(status)
      ensures q == |JobLines(lines[..i + 1])| && q <= |JobLines(lines)| && JobLines(lines)[..q] == JobLines(lines[..i + 1])
      ensures ChainState(socket.Some?, base, settle, JobLines(lines), q, sent0, sent, reqId)
      ensures r == ChainOutcome(socket.Some?, base, settle, q)
    {
      ghost var cmds := JobLines(lines);
      UploadLineJob(lines, i, p);
      var clean := Trim(lines[i]);
      q := p;
      r := Done;
      if |clean| > 0 {
        r := AwaitScript(base, sent0, cmds, p, clean, settle);
        q := p + 1;
      }
    }

    /** Always throws, before sending anything. */
    method Probe(opts: ProbeOptions) returns (r: Result<(), string>)
      ensures r == Err(ProbeUnsupported)
    {
      r := Err(ProbeUnsupported);
    }

    /** The `printer.objects.subscribe` call; its promise is not awaited. */
    method SubscribeObjects()
      requires Valid()
      modifies this
      ensures Valid() && socket == old(socket) && status == old(status)
      ensures old(socket).None? ==> reqId == old(reqId) && sent == old(sent)
      ensures old(socket).Some? ==> reqId == old(reqId) + 1 && sent == old(sent) + [Request(JsonRpcVersion, ObjectsSubscribe, SubscribedObjects, reqId)]
    {
      var _ := RpcCall(ObjectsSubscribe, SubscribedObjects);
    }

    /**
     * Queries the configuration and, once the query resolves with it, installs the
     * extracted limits and macro names. A rejection, a missing socket or a result
     * without a configuration is caught and changes nothing.
     */
    method FetchConfig(settle: nat -> Settlement, num: string -> Option<real>)
      requires Valid()
      modifies this
      ensures Valid() && socket == old(socket)
      ensures old(socket).None? ==> reqId == old(reqId) && sent == old(sent) && status == old(status)
      ensures old(socket).Some? ==> reqId == old(reqId) + 1 && sent == old(sent) + [Request(JsonRpcVersion, ObjectsQuery, ConfigQuery, reqId)]
      ensures old(socket).Some? && settle(reqId).Resolved? && settle(reqId).config.Some? ==>
        var config := settle(reqId).config.value;
        status == old(status).(limits := Some(ExtractLimits(config, num)), macros := Some(Macros(config)))
      ensures !(old(socket).Some? && settle(reqId).Resolved? && settle(reqId).config.Some?) ==> status == old(status)
    {
      var call := RpcCall(ObjectsQuery, ConfigQuery);
      if call.Ok? {
        var outcome := settle(call.value);
        if outcome.Resolved? && outcome.config.Some? {
          var config := outcome.config.value;
          status := status.(limits := Some(ExtractLimits(config, num)));
          status := status.(macros := Some(Macros(config)));
        }
      }
    }

    /** The socket's open event: Idle, then the subscription, then the configuration query. */
    method OnOpen(settle: nat -> Settlement, num: string -> Option<real>)
      requires Valid()
      modifies this
      ensures Valid() && socket == old(socket)
      ensures old(socket).None? ==> reqId == old(reqId) && sent == old(sent) && status == old(status).(state := Idle)
      ensures old(socket).Some? ==>
        && reqId == old(reqId) + 2
        && sent == old(sent) + [Request(JsonRpcVersion, ObjectsSubscribe, SubscribedObjects, reqId - 1),
                                Request(JsonRpcVersion, ObjectsQuery, ConfigQuery, reqId)]
        && (settle(reqId).Resolved? && settle(reqId).config.Some? ==>
              var config := settle(reqId).config.value;
              status == old(status).(state := Idle, limits := Some(ExtractLimits(config, num)), macros := Some(Macros(config))))
        && (!(settle(reqId).Resolved? && settle(reqId).config.Some?) ==> status == old(status).(state := Idle))
    {
      status := status.(state := Idle);
      SubscribeObjects();
      FetchConfig(settle, num);
    }

    /** The socket's close event: Disconnected, and no socket any more. */
    method OnClose()
      requires Valid()
      modifies this
      ensures Valid() && socket == None
      ensures status == old(status).(state := Disconnected)
      ensures reqId == old(reqId) && sent == old(sent) && pending == old(pending)
    {
      status := status.(state := Disconnected);
      socket := None;
    }

    /** Closes the socket if there is one, which raises its close event. */
    method Disconnect()
      requires Valid()
      modifies this
      ensures Valid() && socket == None
      ensures status == if old(socket).Some? then old(status).(state := Disconnected) else old(status)
      ensures reqId == old(reqId) && sent == old(sent) && pending == old(pending)
    {
      if socket.Some? {
        OnClose();
      }
    }

    /**
     * An inbound frame. Only the two notifications are handled; replies are ignored,
     * so no pending request is ever settled or removed.
     */
    method HandleMessage(msg: Message)
      requires Valid()
      modifies this
      ensures Valid()
      ensures status == AfterMessage(old(status), msg)
      ensures socket == old(socket) && reqId == old(reqId) && sent == old(sent) && pending == old(pending)
    {
      match msg {
        case StatusUpdate(position) =>
          if position.Some? && |position.value| >= 3 {
            var p := position.value;
            status := status.(pos := Position(p[0], p[1], p[2]));
          }
        case GcodeResponse(line) =>
          var logs := status.logs + [line];
          if |logs| > MaxLogs {
            logs := logs[1..];
          }
          status := status.(logs := logs);
        case _ =>
      }
    }
  }

  /** The three scripts of a jog. */
  function JogScripts(axis: Axis, dist: real, feedrate: real, str: real -> string): seq<string> {
    ["G91", "G1 " + [AxisLetter(axis)] + str(dist) + " F" + str(feedrate), "G90"]
  }

  /** Where line `i` of a job falls among its job lines. */
  lemma UploadLineJob(lines: seq<string>, i: nat, p: nat)
    requires i < |lines|
    requires p == |JobLines(lines[..i])| && p <= |JobLines(lines)| && JobLines(lines)[..p] == JobLines(lines[..i])
    ensures Trim(lines[i]) != "" ==>
      && p < |JobLines(lines)| && JobLines(lines)[p] == Trim(lines[i])
      && |JobLines(lines[..i + 1])| == p + 1 && JobLines(lines)[..p + 1] == JobLines(lines[..i + 1])
    ensures Trim(lines[i]) == "" ==> JobLines(lines[..i + 1]) == JobLines(lines[..i])
    ensures |JobLines(lines[..i + 1])| <= |JobLines(lines)|
  {
    JobLinesStep(lines, i);
    JobLinesPrefix(lines, i + 1);
    var t := Trim(lines[i]);
    if t != "" {
      var c := JobLines(lines);
      var q := JobLines(lines[..i + 1]);
      assert q == JobLines(lines[..i]) + [t];
      assert c[..p + 1] == q;
      assert c[p] == c[..p + 1][p];
    }
  }

  /** The job lines of a prefix of a job are a prefix of its job lines. */
  lemma {:induction false} JobLinesPrefix(lines: seq<string>, i: nat)
    requires i <= |lines|
    ensures |JobLines(lines[..i])| <= |JobLines(lines)|
    ensures JobLines(lines)[..|JobLines(lines[..i])|] == JobLines(lines[..i])
    decreases |lines|
  {
    if i == |lines| {
      assert lines[..i] == lines;
    } else {
      var n := |lines| - 1;
      JobLinesPrefix(lines[..n], i);
      assert lines[..n][..i] == lines[..i];
    }
  }
}
