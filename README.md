# RevivedLaserweb4 machine-controller layer in Dafny

This is a Dafny model of the machine-controller layer of RevivedLaserweb4, a
browser-based laser/CNC controller with a Node server and a React client. It
also models the pure G-code routines that surround that layer.

The server drives one machine at a time through a common interface (connect,
disconnect, homing, jog, command, probe, upload, status). It has three
controllers:

- **GRBL** speaks line-oriented text over a serial port. Inbound lines are
  realtime reports `<State|MPos:x,y,z|…|Pn:…>`, settings echoes `$N=V` or
  plain log lines. Log lines go into a buffer capped at 50 entries.
- **Klipper** speaks JSON-RPC 2.0 over a WebSocket to Moonraker. Requests get
  ids that strictly increase. Limits and macros are read from the printer's
  config file.
- **Mock** is a simulator whose position, state and feedrate change in
  observable steps.

The HTTP server keeps the current controller in a single slot. Its routes for
connect, command, probe, jog and status guard on an empty slot. The server
also has two in-memory stores: materials, a list edited by id, and machine
settings, a nested partial merge over defaults.

On the client, the model covers:

- the status poll's field-by-field overlay;
- the laser test command;
- the frame routine, which traces the bounding rectangle of the loaded job;
- the preview parser, which splits a job into travel and cut points;
- the material test grid generator.

Modules, one file each:

| file | module | models |
|---|---|---|
| wrappers.dfy | `Wrappers` | `Option`, `Result` |
| text.dfy | `Text` | `trim`, `split`, `join`, `includes`, `toUpperCase`, integer text |
| machine_interface.dfy | `MachineInterface` | the status record, the probe options, the capped log buffer, upload line streaming |
| grbl.dfy | `Grbl` | `GrblController` |
| klipper.dfy | `Klipper` | `KlipperController` |
| mock.dfy | `Mock` | `MockController` |
| server.dfy | `Server` | the controller slot and its routes |
| materials.dfy | `Materials` | `MaterialService` |
| settings.dfy | `Settings` | `SettingsService` |
| gcode_viewer.dfy | `GCodeViewer` | the preview parser |
| grid.dfy | `Grid` | row-major concatenation of grid cells |
| test_generator.dfy | `TestGenerator` | the test grid generator |
| app.dfy | `App` | status polling, laser test, frame, generated-job storage |

How the model represents the source:

- JavaScript numbers are idealised as `real`.
- `parseFloat` is a parameter `num`. In the client's frame routine it returns
  `Option<real>`, with `None` standing for NaN.
- Writing a number into a template string is a parameter `str`. This covers
  integral values too: the test grid generator writes its column and row
  numbers, its coordinates and its `Math.floor` values through `str`.
- Only the client's laser test command writes its integral `S` value with a
  concrete decimal `IntText`.
- Each controller is a `class` whose fields are the source's fields. Bytes
  written to a transport, requests sent and HTTP calls posted are recorded as
  `seq<string>` (or request) fields that the methods extend.
- How an awaited call settles is a parameter: `Outcome` in the server, and
  `settle: nat -> Settlement` per request id in Klipper.

## Model

| member | source | states |
|---|---|---|
| MachineInterface.Position.With | server/src/machine/MockController.ts:64 | `pos[axis] = v` sets that axis and leaves the other two unchanged |
| MachineInterface.StateOf | server/src/machine/MachineInterface.ts:8 | a state word maps to one of the ten declared states, or is kept verbatim as `Other` exactly when it is none of them; its name is the word itself |
| MachineInterface.PushLog | server/src/machine/GrblController.ts:126-131 | a push appends the message as the newest entry, and drops the oldest only when the buffer was already at 50; a buffer within the cap stays within it |
| MachineInterface.Terminated | server/src/machine/GrblController.ts:83-87 | every command is written followed by `\n`, in order, one write per command |
| MachineInterface.JobLinesShape | server/src/machine/GrblController.ts:69-76 | the streamed job lines are non-empty and trimmed, no more than the input lines; a job without blank lines keeps every line |
| MachineInterface.StreamedJobLines | server/src/machine/GrblController.ts:68-77 | streaming line by line writes exactly the trimmed non-blank lines, each terminated |
| MachineInterface.PushAllKeepsNewest | server/src/machine/GrblController.ts:126-131 | any number of pushes into a buffer within the cap leaves exactly the newest 50 of everything pushed, in insertion order |
| MachineInterface.PushTwice | server/src/machine/MockController.ts:93-94 | two pushes keep the newest 50 of the buffer followed by both messages |
| MachineInterface.PushThrice | server/src/machine/MockController.ts:100-111 | three pushes keep the newest 50 of the buffer followed by the three messages |
| MachineInterface.SixtyLinesKeepLastFifty | server/src/machine/GrblController.ts:89-90 | sixty lines into an empty buffer leave the last fifty, in order |
| Text.Trim | server/src/machine/GrblController.ts:134 | the trimmed text neither starts nor ends with white space, is no longer than the input, and is empty exactly when the input is all white space |
| Text.TrimCutsMargins | server/src/machine/GrblController.ts:134 | the trimmed text is the input with an all-white-space prefix and an all-white-space suffix cut off |
| Text.Split | client/src/App.tsx:27 | a split has at least one piece, no piece contains the separator, and there is one piece exactly when the separator is absent |
| Text.JoinSplit | client/src/App.tsx:27 | joining the pieces of a split with the same separator gives back the original text |
| Text.SplitJoin | client/src/components/TestGeneratorPanel.tsx:80 | splitting the join of separator-free lines gives back the lines |
| Text.RemoveChars | server/src/machine/GrblController.ts:142 | the result holds exactly the characters of the input that are not removed; an input with nothing to remove is kept as is; one character is kept exactly when it is not removed |
| Text.RemoveCharsAppend | server/src/machine/GrblController.ts:142 | removal of `a + b` is removal of `a` followed by removal of `b`, so the kept characters keep their order and their number |
| Text.ToUpper | client/src/components/Visualizer/GCodeViewer.tsx:18 | upper-casing keeps the length, leaves no lower-case ASCII letter, turns each one into its capital and keeps every other character |
| Text.ToUpperIdempotent | client/src/components/Visualizer/GCodeViewer.tsx:18 | upper-casing an upper-cased text changes nothing |
| Text.UpperInitial | client/src/components/Visualizer/GCodeViewer.tsx:18-27 | an upper-cased word starts with a capital exactly when the word as written starts with that capital or its lower-case form |
| Text.IntText | client/src/App.tsx:109 | the text of an integer is non-empty and starts with `-` exactly when the integer is negative |
| Text.DigitsValueOfNatText | client/src/App.tsx:108-109 | reading back the decimal digits of a natural number gives the number |
| Grbl.ReportFields | server/src/machine/GrblController.ts:142-144 | a report always has a first field, the state word |
| Grbl.ApplyFieldsFrame | server/src/machine/GrblController.ts:148-166 | the field loop changes only `pos` and `ports`; without a position field `pos` is unchanged, and without a `Pn:` field `ports` is unchanged |
| Grbl.LastPositionFieldWins | server/src/machine/GrblController.ts:148-162 | the last `MPos:` or `WPos:` field of a report decides all three coordinates |
| Grbl.LastPortsFieldWins | server/src/machine/GrblController.ts:163-165 | the last `Pn:` field decides `ports`, as the text after `Pn:` |
| Grbl.ApplyReport | server/src/machine/GrblController.ts:141-166 | a report sets the state to its first field verbatim and changes nothing but state, position and ports |
| Grbl.MatchSetting | server/src/machine/GrblController.ts:170 | a matched settings line starts with `$`, and its value is a non-empty run of digits and dots |
| Grbl.MatchSettingShape | server/src/machine/GrblController.ts:170-173 | a matched line is `$<digits>=<value><rest>`; the id is the number the digit run spells, the value is a decimal run and `rest` does not continue it |
| Grbl.ApplySetting | server/src/machine/GrblController.ts:175-185 | a setting first creates 0..200 limits on every axis if none exist; then `$130`/`$131`/`$132` set only the x/y/z max; mins and other ids are untouched, and nothing else in the status changes |
| Grbl.StatusAfterLine | server/src/machine/GrblController.ts:141-191 | a line that is neither a report nor a matching setting leaves the status unchanged; limits stay well-formed |
| Grbl.LogAfterLine | server/src/machine/GrblController.ts:134-138 | a line whose trimmed form is non-empty is pushed, trimmed, as the newest entry; a blank line leaves the buffer unchanged; the cap is kept |
| Grbl.GrblController.constructor | server/src/machine/GrblController.ts:7-15 | starts Disconnected at the origin with zero feed and spindle, empty logs, no port and nothing written |
| Grbl.GrblController.GetStatus | server/src/machine/GrblController.ts:79-81 | the reported logs are the log buffer once a status has been published, and empty before |
| Grbl.GrblController.Send | server/src/machine/GrblController.ts:83-87 | a command is written with `\n` only when the port is open; nothing else changes |
| Grbl.GrblController.EmitStatus | server/src/machine/GrblController.ts:121-124 | publishing makes the status logs the log buffer and changes nothing else |
| Grbl.GrblController.AddLog | server/src/machine/GrblController.ts:126-131 | the buffer becomes the capped push of the message; the status is untouched |
| Grbl.GrblController.Connect | server/src/machine/GrblController.ts:17-32 | the port is replaced before it is opened, so an open error is returned with no open port left and the status and the written bytes unchanged; a successful open sets Idle, publishes, and writes `$$` |
| Grbl.GrblController.OnPortClose | server/src/machine/GrblController.ts:38-42 | a port close sets Disconnected, publishes and drops the port |
| Grbl.GrblController.Disconnect | server/src/machine/GrblController.ts:50-56 | an open port is closed, with the close handler's effect; otherwise nothing changes |
| Grbl.GrblController.Homing | server/src/machine/GrblController.ts:58-60 | writes `$H` when the port is open |
| Grbl.GrblController.Jog | server/src/machine/GrblController.ts:62-66 | writes `$J=G91 <AXIS><dist> F<feedrate>` with the axis upper-cased, when the port is open |
| Grbl.GrblController.Command | server/src/machine/GrblController.ts:92-94 | writes the command verbatim when the port is open |
| Grbl.GrblController.UploadFile | server/src/machine/GrblController.ts:68-77 | writes every non-blank line of the job, trimmed and terminated, in order, when the port is open |
| Grbl.GrblController.StreamLines | server/src/machine/GrblController.ts:70-76 | the upload loop writes the streamed job of the lines it is given |
| Grbl.GrblController.StreamLine | server/src/machine/GrblController.ts:71-75 | one loop step extends what was written by that line's streamed form |
| Grbl.GrblController.Probe | server/src/machine/GrblController.ts:96-119 | writes the five probe commands in order, each terminated, when the port is open |
| Grbl.GrblController.SendAt | server/src/machine/GrblController.ts:114-118 | one step of the probe loop writes the next command |
| Grbl.GrblController.ParseResponse | server/src/machine/GrblController.ts:133-192 | the log buffer and status after a line are those of `LogAfterLine` and `StatusAfterLine`; a report or matched setting publishes; nothing is written |
| Grbl.GrblController.Dispatch | server/src/machine/GrblController.ts:141-191 | a line starting with `<` is a report, otherwise a trimmed line starting with `$` is a setting; the status follows `StatusAfterLine` |
| Grbl.GrblController.HandleReport | server/src/machine/GrblController.ts:141-167 | a report line leaves the status of `ApplyReport` and publishes it |
| Grbl.GrblController.HandleFields | server/src/machine/GrblController.ts:148-166 | the field loop leaves the status of `ApplyFields` |
| Grbl.GrblController.HandleField | server/src/machine/GrblController.ts:149-165 | one field is dispatched by its prefix as `ApplyField` states |
| Grbl.GrblController.HandleSetting | server/src/machine/GrblController.ts:168-191 | a `$` line that does not match changes nothing; a match applies the setting and publishes |
| Grbl.BracketedReport | server/src/machine/GrblController.ts:141-166 | a bracketed report of plain fields sets the state from the first field and applies the others in order |
| Grbl.PositionReport | server/src/machine/GrblController.ts:140-167 | a report of state S, an `MPos:x,y,z` field and a `Pn:p` field sets state S, position (x, y, z) and ports p, and keeps limits, feed, spindle and logs |
| Grbl.MachinePositionField | server/src/machine/GrblController.ts:149-155 | an `MPos:` field of three plain coordinates reads them in x, y, z order |
| Grbl.PinsField | server/src/machine/GrblController.ts:163-165 | a `Pn:` field is a ports field whose value is the text after the prefix |
| Grbl.SettingsAreIndependent | server/src/machine/GrblController.ts:168-189 | `$130=v` then `$131=w` leaves x max v and y max w: a later setting does not undo an earlier one |
| Grbl.SettingLine | server/src/machine/GrblController.ts:168-186 | a line `$<id>=<value>` applies exactly the setting with that id and value |
| Grbl.TrimmedSettingLine | server/src/machine/GrblController.ts:134 | a settings line is unchanged by trimming |
| Grbl.MatchSettingLine | server/src/machine/GrblController.ts:170-173 | every line `$<digits>=<value><rest>` with a decimal value and a `rest` that does not continue it (empty, or a GRBL 0.9 comment such as ` (x max travel, mm)`) matches with the id its digits spell, leading zeros included, and that whole value |
| Klipper.Scripts | server/src/machine/KlipperController.ts:91-93 | each G-code line becomes a `printer.gcode.script` request with the next id |
| Klipper.ChainSent | server/src/machine/KlipperController.ts:65-70 | an awaited chain sends no more requests than it has steps |
| Klipper.ChainDone | server/src/machine/KlipperController.ts:65-70 | an awaited chain completes exactly when it is empty or, with a socket, every one of its requests resolves |
| Klipper.ChainSendsAfterSuccess | server/src/machine/KlipperController.ts:61-84 | a step is sent only after every earlier step resolved; without a socket nothing is sent; a chain that stops early does not complete |
| Klipper.ChainStopped | server/src/machine/KlipperController.ts:65-70 | once a step fails or stalls, later steps change neither the outcome nor what is sent |
| Klipper.NoReplyStallsAfterFirst | server/src/machine/KlipperController.ts:95-111 | since no reply ever resolves a pending request, an awaited chain sends its first request and then waits forever |
| Klipper.Lookup | server/src/machine/KlipperController.ts:152 | a config section is found exactly when some key equals the name, and it is that key's section |
| Klipper.LookupUnique | server/src/machine/KlipperController.ts:152 | in a configuration whose keys are unique, as in a parsed JSON object, looking up a key gives the section stored under it |
| Klipper.LimitsFromConfig | server/src/machine/KlipperController.ts:149-160 | an axis has limits exactly when its `stepper_<axis>` section exists; then min is `position_min` or 0, max is `position_max` or 200, and max is never 0 |
| Klipper.ParsedMinUsed | server/src/machine/KlipperController.ts:155 | a `position_min` that parses to a non-zero number is the axis minimum |
| Klipper.ParsedMaxUsed | server/src/machine/KlipperController.ts:156 | a `position_max` that parses to a non-zero number is the axis maximum |
| Klipper.MissingMinIsZero | server/src/machine/KlipperController.ts:155 | a missing, unparsable or zero `position_min` gives minimum 0 |
| Klipper.MissingMaxIs200 | server/src/machine/KlipperController.ts:156 | a missing, unparsable or zero `position_max` gives maximum 200 |
| Klipper.Macros | server/src/machine/KlipperController.ts:163-169 | there are no more macros than config keys |
| Klipper.MacrosAppend | server/src/machine/KlipperController.ts:164-168 | macros are collected in key order |
| Klipper.MacroNames | server/src/machine/KlipperController.ts:163-169 | a name is a macro exactly when `gcode_macro <name>` is a config key |
| Klipper.ResponsesKeepNewest | server/src/machine/KlipperController.ts:187-193 | after any messages, the logs are the newest 50 of the earlier logs followed by every `notify_gcode_response` line |
| Klipper.KlipperController.constructor | server/src/machine/KlipperController.ts:13-21 | starts with no socket, id 0, no pending request, nothing sent, and the initial status |
| Klipper.KlipperController.GetStatus | server/src/machine/KlipperController.ts:87-89 | the returned status never holds more than 50 log lines |
| Klipper.KlipperController.Connect | server/src/machine/KlipperController.ts:23-27 | opens a socket to `ws://<host>/websocket` and changes nothing else |
| Klipper.KlipperController.RpcCall | server/src/machine/KlipperController.ts:97-111 | without a socket, rejects "Not connected" without consuming an id; otherwise takes the next id, records it as pending and sends the JSON-RPC 2.0 request |
| Klipper.KlipperController.SendGcode | server/src/machine/KlipperController.ts:91-93 | sends a `printer.gcode.script` request, and ends as that request settles |
| Klipper.KlipperController.AwaitScript | server/src/machine/KlipperController.ts:67-69 | one awaited step of a chain extends what was sent and the outcome by one step |
| Klipper.KlipperController.Homing | server/src/machine/KlipperController.ts:61-63 | an awaited one-step chain sending `G28` |
| Klipper.KlipperController.Jog | server/src/machine/KlipperController.ts:65-70 | an awaited chain `G91`, `G1 <AXIS><dist> F<feedrate>`, `G90` in which each step waits for the previous one |
| Klipper.KlipperController.Command | server/src/machine/KlipperController.ts:123-125 | an awaited one-step chain sending the text verbatim |
| Klipper.KlipperController.UploadFile | server/src/machine/KlipperController.ts:72-85 | an awaited chain over the trimmed non-blank lines of the job, in order |
| Klipper.KlipperController.UploadLine | server/src/machine/KlipperController.ts:80-84 | one line of the upload loop sends its trimmed form as the next chain step, and a blank line sends nothing |
| Klipper.KlipperController.Probe | server/src/machine/KlipperController.ts:127-133 | probing always fails, sending nothing |
| Klipper.KlipperController.SubscribeObjects | server/src/machine/KlipperController.ts:114-121 | sends the `printer.objects.subscribe` request when connected |
| Klipper.KlipperController.FetchConfig | server/src/machine/KlipperController.ts:139-176 | sends the config query; when it resolves with a config, sets the limits and macros extracted from it; otherwise the status is unchanged |
| Klipper.KlipperController.OnOpen | server/src/machine/KlipperController.ts:29-35 | an opened socket sets Idle, subscribes, then queries the config (two consecutive ids) |
| Klipper.KlipperController.OnClose | server/src/machine/KlipperController.ts:42-46 | a socket close sets Disconnected and drops the socket, leaving pending requests as they are |
| Klipper.KlipperController.Disconnect | server/src/machine/KlipperController.ts:55-59 | closes an open socket, with the close handler's effect; otherwise nothing changes |
| Klipper.KlipperController.HandleMessage | server/src/machine/KlipperController.ts:179-194 | a notification changes only the status, as `AfterMessage` states; the id, what was sent and the pending requests are untouched |
| Klipper.UploadLineJob | server/src/machine/KlipperController.ts:80-84 | a non-blank line is the next job line, and a blank one adds none |
| Klipper.JobLinesPrefix | server/src/machine/KlipperController.ts:79-84 | the job lines of a prefix of the file are a prefix of the job lines |
| Mock.Moved | server/src/machine/MockController.ts:64 | a jog adds the distance to the jogged axis only |
| Mock.JogsAdd | server/src/machine/MockController.ts:64 | two jogs on one axis add up, and a jog back by the same distance returns to the start |
| Mock.MockController.constructor | server/src/machine/MockController.ts:5-16 | starts Disconnected at the origin, with zero feed and 0..200 limits on every axis, and an empty buffer |
| Mock.MockController.GetStatus | server/src/machine/MockController.ts:87-89 | the reported logs are the buffer once a status has been published, and empty before |
| Mock.MockController.EmitStatus | server/src/machine/MockController.ts:117-120 | publishing makes the status logs the buffer |
| Mock.MockController.AddLog | server/src/machine/MockController.ts:126-129 | the buffer becomes the capped push of the message |
| Mock.MockController.Connect | server/src/machine/MockController.ts:20-30 | ends Idle, publishing, with nothing else changed |
| Mock.MockController.Disconnect | server/src/machine/MockController.ts:32-41 | ends Disconnected, publishing |
| Mock.MockController.HomingStart | server/src/machine/MockController.ts:44-46 | homing first goes to Run |
| Mock.MockController.HomingFinish | server/src/machine/MockController.ts:50-52 | after the wait, position is the origin and state Idle |
| Mock.MockController.Homing | server/src/machine/MockController.ts:43-53 | homing ends at the origin in Idle, changing nothing else |
| Mock.MockController.JogStart | server/src/machine/MockController.ts:56-59 | during a jog the state is Run and the feedrate is the requested one |
| Mock.MockController.JogFinish | server/src/machine/MockController.ts:64-67 | after the wait, the axis moved by the distance, state is Idle and feedrate 0 |
| Mock.MockController.Jog | server/src/machine/MockController.ts:55-68 | a jog moves only its axis by the distance and ends Idle with feedrate 0 |
| Mock.MockController.UploadStart | server/src/machine/MockController.ts:74-75 | an upload first goes to Run and publishes it, before any line is processed; nothing else changes |
| Mock.MockController.UploadFile | server/src/machine/MockController.ts:70-85 | an upload goes to Run through `UploadStart`, then ends Idle with the position unchanged, pausing once every ten lines |
| Mock.MockController.Command | server/src/machine/MockController.ts:91-96 | logs `>> <gcode>` then `ok`, in that order, keeping the newest 50 |
| Mock.MockController.ProbeStart | server/src/machine/MockController.ts:100-102 | the probe logs its search line and goes to Run |
| Mock.MockController.ProbeContact | server/src/machine/MockController.ts:106-107 | on contact, z becomes the plate thickness and the contact line is logged |
| Mock.MockController.ProbeRetract | server/src/machine/MockController.ts:110-114 | z becomes the retract height, the retract line is logged, and the state is Idle |
| Mock.MockController.Probe | server/src/machine/MockController.ts:98-115 | a probe logs its three lines in order and ends Idle with z at the retract height, x and y unchanged |
| Server.AfterCall | server/src/index.ts:90-103 | an awaited call that completes gives the success reply, a thrown error gives a server error, and a call still waiting gives no reply yet |
| Server.StatusReply | server/src/index.ts:134-137 | `/status` answers 200 with the machine's status, or none when the slot is empty, plus the ip |
| Server.Server.constructor | server/src/index.ts:47-54 | in simulation mode the slot holds a mock controller that was asked to connect to `mock-device`; otherwise the slot is empty |
| Server.Server.Invoke | server/src/index.ts:92 | calling a controller records the call and nothing else |
| Server.Server.Create | server/src/index.ts:91 | a new controller is the next one created |
| Server.Server.Connect | server/src/index.ts:80-104 | an existing machine is disconnected first; a valid type installs a new controller before awaiting its connect; an invalid type answers 400 "Invalid machine type" and keeps the old, disconnected machine |
| Server.Server.Command | server/src/index.ts:106-112 | with a machine, forwards the text; with none, does nothing; both answer `sent` |
| Server.Server.Probe | server/src/index.ts:114-125 | answers `disconnected` without a machine, `ok` on success, and the error message when the controller throws |
| Server.Server.Jog | server/src/index.ts:127-132 | answers 400 "Not connected" without a machine; otherwise forwards axis, distance and feedrate unchanged |
| Server.Server.Status | server/src/index.ts:134-137 | `/status` replies with the current status when a machine is present |
| Materials.WithId | server/src/services/MaterialService.ts:42 | a new material keeps every given field and takes the fresh id |
| Materials.Overlay | server/src/services/MaterialService.ts:52 | each field of an update replaces the stored one, and an absent field keeps it |
| Materials.OverlayIdempotent | server/src/services/MaterialService.ts:52 | applying the same update twice is the same as once |
| Materials.FindIndex | server/src/services/MaterialService.ts:49 | finds the first material with the id, or reports none exactly when there is none |
| Materials.WithoutId | server/src/services/MaterialService.ts:59 | the filter never grows the list |
| Materials.WithoutIdMembers | server/src/services/MaterialService.ts:59 | the filter keeps exactly the materials whose id differs |
| Materials.WithoutIdAppend | server/src/services/MaterialService.ts:59 | filtering keeps relative order: it distributes over concatenation |
| Materials.WithoutIdShrinks | server/src/services/MaterialService.ts:58-60 | the length changes exactly when some material has the id |
| Materials.WithoutAbsentId | server/src/services/MaterialService.ts:59 | deleting an absent id leaves the list unchanged |
| Materials.AddThenDelete | server/src/services/MaterialService.ts:41-65 | deleting the id of a material just added with a fresh id gives back the earlier list |
| Materials.MaterialService.constructor | server/src/services/MaterialService.ts:16 | starts with no materials |
| Materials.MaterialService.Load | server/src/services/MaterialService.ts:23-31 | loads the stored list, or starts empty when reading fails |
| Materials.MaterialService.GetAll | server/src/services/MaterialService.ts:37-39 | returns the current list |
| Materials.MaterialService.Add | server/src/services/MaterialService.ts:41-46 | appends exactly one material with the given id at the end and returns it |
| Materials.MaterialService.Update | server/src/services/MaterialService.ts:48-55 | an unknown id returns null and changes nothing; a known id overlays only its first entry, in place |
| Materials.MaterialService.Delete | server/src/services/MaterialService.ts:57-65 | removes every entry with the id and returns true exactly when one existed |
| Settings.MergeWorkbench | server/src/services/SettingsService.ts:78-80 | a workbench update changes only the fields it names |
| Settings.MergeAxis | server/src/services/SettingsService.ts:83-85 | an axis missing from the update keeps all its fields; a named axis keeps the fields it does not mention |
| Settings.Merge | server/src/services/SettingsService.ts:70-87 | top-level fields absent from the update are kept and macros are replaced wholesale; workbench and axes merge field by field |
| Settings.MergeFull | server/src/services/SettingsService.ts:69-87 | saving a complete settings record makes it the settings |
| Settings.MergeIdempotent | server/src/services/SettingsService.ts:69-87 | saving the same update twice is the same as once |
| Settings.SettingsService.constructor | server/src/services/SettingsService.ts:50-52 | starts with nothing cached |
| Settings.SettingsService.GetSettings | server/src/services/SettingsService.ts:54-67 | returns the cached settings, else the stored ones, else the defaults, which it then stores; the result is cached |
| Settings.SettingsService.SaveSettings | server/src/services/SettingsService.ts:69-91 | merges the update into the current settings, and caches and stores the result |
| GCodeViewer.CoordinateWordAnyCase | client/src/components/Visualizer/GCodeViewer.tsx:18-27 | a word is taken as an X, Y or Z word exactly when, as written, it starts with x, y or z in either case |
| GCodeViewer.ApplyWordsMoved | client/src/components/Visualizer/GCodeViewer.tsx:25-29 | a line moves the point exactly when it has an X, Y or Z word |
| GCodeViewer.NoXWordKeepsX | client/src/components/Visualizer/GCodeViewer.tsx:25-29 | a line without an X word carries x over |
| GCodeViewer.LastXWordWins | client/src/components/Visualizer/GCodeViewer.tsx:26 | the last X word of a line decides x |
| GCodeViewer.MovingLines | client/src/components/Visualizer/GCodeViewer.tsx:31 | no more lines move the point than there are lines |
| GCodeViewer.OnePointPerMovingLine | client/src/components/Visualizer/GCodeViewer.tsx:31-42 | the travel and cut points together are exactly one per line with a coordinate word |
| GCodeViewer.PathsGrowInLineOrder | client/src/components/Visualizer/GCodeViewer.tsx:17-42 | the points of earlier lines are prefixes of both paths, so each path keeps line order |
| GCodeViewer.ModalExamples | client/src/components/Visualizer/GCodeViewer.tsx:22-23 | `G01` means travel, `G1` means cut, and lower-case `g1` leaves the mode as it was |
| GCodeViewer.ParseGCode | client/src/components/Visualizer/GCodeViewer.tsx:9-48 | the loop produces the travel and cut paths of `Parse` |
| Grid.RowCellsLength | client/src/components/TestGeneratorPanel.tsx:39-74 | a row of equal-length cells has the cells' total length |
| Grid.RowsLength | client/src/components/TestGeneratorPanel.tsx:34-75 | a grid of equal-length cells has rows × columns × cell length lines |
| Grid.RowCellsSplit | client/src/components/TestGeneratorPanel.tsx:39 | a row splits into its first cells and the rest |
| Grid.RowsSplit | client/src/components/TestGeneratorPanel.tsx:34 | the grid splits into its first rows and the rest |
| Grid.RowPlacement | client/src/components/TestGeneratorPanel.tsx:34-43 | within a row, a cell follows the cells to its left and precedes the rest |
| Grid.RowMajor | client/src/components/TestGeneratorPanel.tsx:34-75 | cell (col, row) sits after all earlier rows and the cells to its left, and before the rest of the grid |
| TestGenerator.RampBounds | client/src/components/TestGeneratorPanel.tsx:28-29 | the speed and power ramps start at the minimum, reach the maximum at the last column or row, and stay between the two, also when the maximum entered is below the minimum |
| TestGenerator.RampAsWrittenAgrees | client/src/components/TestGeneratorPanel.tsx:28-35 | for two or more cells per side, the step computation as written gives the ramp |
| TestGenerator.SingleCellAsWritten | client/src/components/TestGeneratorPanel.tsx:28-49 | with one cell per side, the step is a division by zero, so speed and power are NaN and the cell fires `M3 SNaN` |
| TestGenerator.SingleCellCorrected | client/src/components/TestGeneratorPanel.tsx:28-49 | with one cell per side, the corrected ramp uses the minimum speed and power, and the cell fires at the minimum power's S value |
| TestGenerator.ScanLines | client/src/components/TestGeneratorPanel.tsx:62-71 | k scan lines are 2k G-code lines |
| TestGenerator.ScanLinesStep | client/src/components/TestGeneratorPanel.tsx:62-71 | each scan line adds its rapid and its cut after the earlier ones |
| TestGenerator.CellText | client/src/components/TestGeneratorPanel.tsx:45-73 | a cell has 8 lines when cut and 44 when filled |
| TestGenerator.GridLength | client/src/components/TestGeneratorPanel.tsx:18-78 | the program is the 5 header lines, gridSize² cells and the 2 trailer lines, nothing else |
| TestGenerator.CellPlacement | client/src/components/TestGeneratorPanel.tsx:34-75 | cell (col, row) appears in row-major position, after the header |
| TestGenerator.CellStart | client/src/components/TestGeneratorPanel.tsx:45-73 | a cell starts with its comment, fires `M3 S` followed by the text of floor(power·10), moves to (12·col, 12·row), and ends with `M5` |
| TestGenerator.CutCellOutline | client/src/components/TestGeneratorPanel.tsx:51-57 | after the rapid to its corner, a cut cell traces the 10 mm square counter-clockwise at the column's speed and ends back at the corner |
| TestGenerator.FillCellBody | client/src/components/TestGeneratorPanel.tsx:58-72 | between the rapid to its corner and `M5`, a filled cell is exactly its 20 scan lines |
| TestGenerator.FillCellScans | client/src/components/TestGeneratorPanel.tsx:62-71 | scan line j of a filled cell is a rapid to the left edge at j·0.5 mm up and a cut 10 mm to the right at the column's speed |
| TestGenerator.FillScan | client/src/components/TestGeneratorPanel.tsx:62-71 | the fill loop emits the 20 scan lines at 0, 0.5, … 9.5 mm |
| TestGenerator.Cell | client/src/components/TestGeneratorPanel.tsx:39-74 | the loop body emits the cell's lines |
| TestGenerator.EmitRow | client/src/components/TestGeneratorPanel.tsx:39-74 | the column loop appends the row's cells in column order |
| TestGenerator.EmitRows | client/src/components/TestGeneratorPanel.tsx:34-75 | the row loop appends every row in row order |
| TestGenerator.GenerateGrid | client/src/components/TestGeneratorPanel.tsx:17-81 | the generated text is the program's lines joined by newlines |
| App.Received | server/src/index.ts:134-137 | the polled JSON always carries a state and the ip; an empty slot gives only state Disconnected and the ip |
| App.Overlay | client/src/App.tsx:38-42 | every field present in the response replaces the previous one, and an absent one keeps it |
| App.PollConnected | client/src/App.tsx:38-42 | polling a connected machine takes its whole status, keeping earlier ports, limits and macros only where the machine has none |
| App.PollComplete | client/src/App.tsx:38-42 | a status with every optional field present replaces the client's status completely |
| App.PollDisconnected | client/src/App.tsx:38-42 | polling an empty slot changes only the state, to Disconnected, and keeps the previous position |
| App.OverlayIdempotent | client/src/App.tsx:38-42 | applying the same poll twice is the same as once |
| App.LaserCommand | client/src/App.tsx:108-109 | the command is `M5` exactly when the S value is not positive |
| App.LaserThreshold | client/src/App.tsx:108-109 | the laser stays off exactly when the power is below 0.1 % |
| App.LaserSWord | client/src/App.tsx:108-109 | from 0.1 % on, the command is `M3 S` followed by the decimal digits of floor(pct/100·1000) |
| App.LaserTestCommands | client/src/App.tsx:105-122 | the firing command is sent, then `M5` exactly when a duration is given |
| App.NumRun | client/src/App.tsx:130-131 | the number run is the longest prefix of digits, dots and minus signs |
| App.FirstMatch | client/src/App.tsx:130-131 | finds the leftmost letter that is followed by a number character, or reports none when there is none |
| App.Capture | client/src/App.tsx:130-131 | no capture exactly when no letter is followed by a number character; a capture is non-empty and made of number characters |
| App.CaptureAt | client/src/App.tsx:130-131 | the capture is the number run after the leftmost match |
| App.CaptureExampleX | client/src/App.tsx:130 | `G0 X1.5` captures `1.5` |
| App.CaptureExampleY | client/src/App.tsx:131 | `G1 X10.5 Y-3` captures `-3` for Y |
| App.CaptureExampleSkip | client/src/App.tsx:130 | an X not followed by a number is skipped: `XA X7` captures `7` |
| App.CaptureExampleCase | client/src/App.tsx:130 | the match is case-sensitive: `g1 x5` has no X value |
| App.BoundsTight | client/src/App.tsx:127-142 | the bounds are absent exactly when there are no values; otherwise both ends are values and every value lies between them |
| App.FrameCommands | client/src/App.tsx:155-163 | seven commands: `M3 S10`, rapids through the five corners in order, `M5` |
| App.FrameIsClosedRectangle | client/src/App.tsx:157-161 | the corner path starts and ends at one point, each move changes only one coordinate, and it visits exactly the four corners of the box |
| App.FrameEnclosesJob | client/src/App.tsx:124-171 | a frame is the seven commands on the job's X and Y bounds, which are values of the job and enclose all of them |
| App.NoFrameWithoutBothAxes | client/src/App.tsx:144-147 | a job without any X value or without any Y value gives no frame |
| App.Track | client/src/App.tsx:132-141 | one value updates the running minimum and maximum as extending the bounds by it |
| App.ScanBounds | client/src/App.tsx:127-142 | the scan loop ends with the bounds of every X value and of every Y value of the job |
| App.App.constructor | client/src/App.tsx:17-25 | starts Disconnected at the origin, with no job, on the connection tab, having sent nothing |
| App.App.GcodeGenerated | client/src/App.tsx:26-29 | the job is stored as its newline-split lines, which join back to the generated text; the G-code tab opens |
| App.App.FetchStatus | client/src/App.tsx:32-46 | a response overlays the status; a failed fetch leaves it unchanged |
| App.App.Command | client/src/App.tsx:83-91 | posts the command and changes nothing else |
| App.App.LaserTest | client/src/App.tsx:105-122 | posts the laser test commands |
| App.App.Frame | client/src/App.tsx:124-171 | posts the frame of the job; with a job but no bounds it alerts "Could not determine bounds from G-code" and sends nothing |
| App.App.SendAll | client/src/App.tsx:166-170 | posts the commands one after another, in order |

## Left out

- Transports are not modelled: the serial port, the line parser, the WebSocket, `fetch` and the HTTP server. The bytes a controller writes are a recorded list, and inbound traffic arrives as already-split lines or parsed message records. The JSON parsing of raw frames (server/src/machine/KlipperController.ts:37-40) is not modelled.
- Events and the `error` listeners are not modelled. `emit` is represented only by its effect on the published status (the `logsLinked` flag in the GRBL and mock controllers). Promise machinery beyond ordering is not modelled.
- Timers run as ordinary sequential steps. This covers the 500 ms `$$` delay, the mock controller's delays, the client's 500 ms status poll and the laser test's `M5` timeout.
- Grbl.GrblController.Connect: `$$` is written right after the open, not 500 ms later.
- App.App.LaserTest: `M5` is posted right after the firing command, not after `duration` milliseconds.
- Mock.MockController.UploadFile: the throttle waits are returned as a count; no time passes.
- `parseFloat`, `parseInt` and number-to-text conversion are parameters, and IEEE rounding is not modelled. NaN is modelled only in three places:
  - the Klipper `|| 0` and `|| 200` fallbacks;
  - the client frame routine, where a NaN value is ignored;
  - the test-grid finding below.
- `toUpperCase` is modelled on ASCII letters only; no other case mapping or normalisation is modelled.
- Grbl.GrblController.GetStatus and Mock.MockController.GetStatus return the status as a value. The source returns the live object, whose `logs` field aliases the log buffer once a status has been published. The model records that aliasing as `logsLinked`, and the returned logs follow it.
- Klipper.KlipperController.GetStatus states only the log bound. The status it returns is the `status` field itself.
- Klipper.KlipperController.HandleMessage ignores a `notify_status_update` whose toolhead position has fewer than three entries. The source destructures such a position into `{x, y, z}` with `undefined` coordinates and publishes it (server/src/machine/KlipperController.ts:182-184). Positions are `real` triples here, so an undefined coordinate cannot be represented.
- Klipper configurations are lists of key and section pairs. A parsed JSON object has no repeated key; `Klipper.LookupUnique` states the lookup under that condition, and with a repeated key the model's lookup takes the first section.
- Klipper.KlipperController.RpcCall treats a socket that exists as open. Between `connect` and the `open` event the socket is still connecting, and there `ws.send` throws (server/src/machine/KlipperController.ts:109-110): the id and the pending entry are taken, nothing is sent, and the call rejects. The model records the request as sent in that window.
- Klipper.KlipperController.Probe returns the thrown error as `Err` instead of throwing.
- Request settlement is an oracle parameter in the Klipper model. No code in server/src/machine/KlipperController.ts resolves a pending request, so a real reply never arrives. `Klipper.NoReplyStallsAfterFirst` states what the source does in that case.
- A Klipper axis without a `stepper_<axis>` section keeps the empty record `{}`; the model writes it as `AxisLimits.Unset`.
- Server.Server.Connect: a thrown `disconnect` counts as finished, because the source swallows it. A connect that throws becomes the generic server error reply.
- `/ping`, `getNetworkIp` and the `os` module (server/src/index.ts:58-78) are not modelled. The ip is a parameter.
- The Fastify setup, CORS, static files, the not-found handler and the route modules (server/src/routes) are not modelled. CamService is not part of this model.
- File I/O of the stores is not modelled:
  - `save` is not modelled;
  - `load` takes the parsed file content, or `None` for a failed read;
  - `Date.now()` ids are a parameter.
- `importFromKlipper` and `importFromGrbl` in server/src/services/SettingsService.ts:94-104 are not modelled. They are placeholders that only throw.
- App.App.FetchStatus: the `{x: 0, y: 0, z: 0}` fallback for `pos` is not modelled. The client's previous status always has a position, so that fallback is never reached.
- App.App.FetchStatus does not model fields of the `/status` response beyond the status record and `ip`.
- The client's `handleConnect`, `handleDisconnect`, `handleJog` and `handleProbe` are not part of this model. Nor are the React state hooks beyond the fields listed above, or any rendering. The preview's `null` render for an empty job is rendering.
- TestGenerator: the grid size is a whole number. A fractional or negative grid size from the input field is not modelled.

## Findings

| source | as written | input that shows it | evidently intended | confidence | as-written member | corrected member |
|---|---|---|---|---|---|---|
| client/src/components/TestGeneratorPanel.tsx:28-29 | the speed and power steps divide by `gridSize - 1` | `gridSize = 1`: the step is ±Infinity or NaN, `0 * step` is NaN, so the single cell has speed and power NaN and fires `M3 SNaN` with feed `FNaN` | a single cell uses the minimum speed and power | high, not executed | TestGenerator.SingleCellAsWritten | TestGenerator.SingleCellCorrected |

The corrected ramp is `TestGenerator.Ramp`, which the rest of the model uses.
`TestGenerator.RampBounds` proves it stays between the minimum and the maximum.
`TestGenerator.RampAsWrittenAgrees` shows that it agrees with the code as
written whenever a side has two or more cells.
