# rinnaitouch protocol core in Dafny

A model of `pyrinnaitouch`, the Python client for the Rinnai Touch (Brivis)
Wi-Fi controller.

## What is modelled

**Command catalog.** The catalog holds the JSON command templates and the
four legality lists (`commands.dfy`). The mode gate `validateCmd` decides
whether a command may be sent in the current mode. Each operation of
`RinnaiSystem` is tied to the text it sends (`operations.dfy`).

**Wire format** (`wire.dfy`). An outbound frame is `"N"`, then the sequence
number zero-padded to six digits, then the command text. The next sequence
number is derived from the six digits the unit echoes back.

**Status decoding.**
- `HandleStatus` reads the two-element JSON array the unit sends: the SYST
  object, then one of HGOM, CGOM or ECOM (`status.dfy`).
- The three mode handlers are `HandleHeatingMode`, `HandleCoolingMode` and
  `HandleEvapMode` (`heater.dfy`, `cooler.dfy`, `evap.dfy`).
- The shared helpers are `GetAttribute` and `YNtoBool` (`util.dfy`), plus the
  zone vocabulary (`zoning.dfy`).
- The Python semantics these rely on are in `py.dfy`: truthiness, `dict.get`,
  `or`, `in`, `int()`, `str.strip`, `str.zfill` and `str.format`.

**Client bookkeeping** (`client.dfy`, `event.dfy`):
- the reconnect decision and the decode-error counter;
- the keep-alive counter and the hourly close;
- replacing the stored status only after a successful decode, then notifying
  the subscribers;
- the observer list `Event`;
- the per-address instance registry.

**Form of the model.**
- The status classes are Dafny classes whose methods assign their fields.
- Each handler method is proved equal to a pure decoding function of the
  message and the old field values. The properties are lemmas about those
  functions.
- A Python exception is an `Err` result.
- JSON values are the `Json` datatype. A parsed object is a `map`.

**Inputs rather than effects.** The socket is a value with an identity and
a closed flag. Everything the outside world decides is a parameter:
- what `getpeername()` does;
- whether `ConnectToTouch` succeeds;
- the status frame the unit returns, already split by the regular expression
  and parsed by `json.loads`;
- the clock.

**Notes on the code's behaviour:**
- `renewConnection` (pyrinnaitouch/system.py:527-541) keeps a socket whose
  peer answers until four decodes have failed (`jsonerrors < 4`), and
  replaces a socket whose peer gives no address after three.
  `Client.RenewHealthy` and `Client.RenewSilentPeer` state both thresholds.
- Subscriber callbacks are called directly by `Event.__call__`; nothing
  isolates a callback that raises.
- The keep-alive goes out on every sixth `GetStatus` call, whether or not a
  command was sent in between.

**The code as written and the corrected code.** Three places in the code
do something other than what it evidently intends (see "## Findings"). For
each, the model has the code as written and a corrected definition:
- `FaultStepAsWritten`, `RouteAsWritten` and `SentAsWritten` are the code
  as written. `DecodeStatusAsWritten` decodes a whole message with the
  first two.
- `FaultStep`, `Route` and `Sent` are the corrected definitions.
- The main chain uses the corrected definitions: `DecodeStatus`,
  `Dispatch`, `Enter`, `Client.Decode` and the client methods built on
  them. Rows marked "(corrected)" state the corrected behaviour.

## Model

| member | source | states |
|---|---|---|
| Util.GetAttribute | pyrinnaitouch/util.py:7-8 | raises exactly when data is not a dict; a present truthy value is returned, and an absent key or a falsy value gives the default |
| Util.YNAttribute | pyrinnaitouch/util.py:10-15 | on a dict and with a default other than "Y", a Y/N attribute reads true exactly when the stored value is "Y"; "N", absent, empty, None or anything else read false |
| Util.AttributeEquals | pyrinnaitouch/util.py:7-8 | on a dict, comparing a looked-up attribute with a non-empty string s equals comparing the stored value, for any default other than s |
| Py.DictGet | pyrinnaitouch/util.py:8 | `.get` raises on a non-dict, gives None for an absent key and the stored value otherwise |
| Py.In | pyrinnaitouch/system.py:230 | `in` raises on None, booleans and numbers, and on a dict tests for the key |
| Py.StripSlice | pyrinnaitouch/system.py:196-201 | the result is a contiguous slice of the input with only whitespace removed on each side, and neither end is whitespace |
| Py.StripIdempotent | pyrinnaitouch/system.py:196-201 | stripping twice is stripping once |
| Py.PyInt | pyrinnaitouch/heater.py:43 | `int()` raises on None, lists and dicts, and returns a number unchanged |
| Py.ZFillRoundTrip | pyrinnaitouch/system.py:554 | `int()` of a zero-filled decimal rendering gives the number back, for every width |
| Py.FormatSpell | pyrinnaitouch/system.py:285 | `str.format` of a template spelled from tokens is the token-wise expansion: `{{` gives `{`, and `{name}` gives its argument |
| Commands.ModeSwitches | pyrinnaitouch/commands.py:3-5 | the three mode switches set SYST.OSS.MD to C, E and H and are pairwise different |
| Commands.ListTargets | pyrinnaitouch/commands.py:25-65 | every HEAT_COMMANDS member addresses HGOM, every COOL_COMMANDS member CGOM, every EVAP_COMMANDS member ECOM |
| Commands.ModeCommandsContents | pyrinnaitouch/commands.py:67 | MODE_COMMANDS is exactly the three mode switches, each mode's on command and each mode's auto and manual command |
| Commands.ZoneSwitches | pyrinnaitouch/commands.py:18-39 | the zone on and off templates differ only in UE Y versus N; formatted with a zone name they address Z<zone>O under HGOM or CGOM |
| Commands.SwitchLetters | pyrinnaitouch/commands.py:9-58 | the on/off constants use N for on and F for off, and Z for circulation fan only |
| Commands.ReadyText | pyrinnaitouch/commands.py:3-11 | a ready constant is, as text, the three-level JSON object of its parts |
| Commands.PayloadOpensWithTarget | pyrinnaitouch/commands.py:9-65 | the text a command puts on the wire opens with its target object |
| Commands.ModeCommandsAlwaysValid | pyrinnaitouch/system.py:513-514 | a MODE_COMMANDS member passes validateCmd whatever the mode flags |
| Commands.ValidateGatedByMode | pyrinnaitouch/system.py:515-521 | outside MODE_COMMANDS, a heating, cooling or evaporative command passes exactly when its mode flag is set; anything else fails |
| Operations.OperationSendable | pyrinnaitouch/system.py:264-507 | every modelled operation's command is well formed and its placeholders are among the arguments it supplies; the command is a template exactly for the operations that format a value in and for the auto/manual switches |
| Operations.CommandRendered | pyrinnaitouch/commands.py:3-66 | a well-formed command whose placeholders are all supplied is emitted as its three-level JSON object with the placeholders filled in |
| Operations.SentRendered | pyrinnaitouch/system.py:264-507 | every operation sends the JSON object of its command with the placeholders filled from its arguments |
| Operations.FormattingOperationsAgree | pyrinnaitouch/system.py:282-288 | where an operation formats its own template, the code as written and the corrected text agree |
| Operations.UnformattedTemplate | pyrinnaitouch/commands.py:13-15 | a template sent unformatted opens with a doubled brace and is never the JSON text it stands for |
| Operations.AutoManualSentUnformatted | pyrinnaitouch/system.py:290-294 | the six auto/manual operations, as written, send `{{...` instead of the JSON object the corrected text sends |
| Operations.FanSpeedRoundTrip | pyrinnaitouch/system.py:445-448 | the two-digit fan speed the evaporative setter sends reads back through int() as the same number |
| Operations.SetPointRoundTrip | pyrinnaitouch/system.py:282-285 | the set point the heater setter formats reads back through int() as the same number |
| Operations.CoolingSetPointRoundTrip | pyrinnaitouch/system.py:356-359 | the set point the cooling setter formats reads back through int() as the same number |
| Operations.ComfortRoundTrip | pyrinnaitouch/system.py:469-473 | the comfort level the evaporative setter formats reads back through int() as the same number |
| Wire.Echoed | pyrinnaitouch/system.py:171 | int() of the six echoed digits is a number below 10^6 |
| Wire.NextSequence | pyrinnaitouch/system.py:172-176 | the next sequence number is echoed + 1 below 255 and 0 from 255 on, so it always lies in 0..255 |
| Wire.NextSequenceModulo | pyrinnaitouch/system.py:172-176 | within 0..255 the rule is adding one modulo 256 |
| Wire.RollModulo | pyrinnaitouch/system.py:172-176 | k successive roll-overs from a byte value add k modulo 256 |
| Wire.RollCycle | pyrinnaitouch/system.py:172-176 | the sequence numbers return to their start after exactly 256 sends and not before |
| Wire.Frame | pyrinnaitouch/system.py:554-557 | a frame starts with "N" and is at least seven characters longer than the command |
| Wire.FrameRoundTrip | pyrinnaitouch/system.py:554-557 | a sequence number below 10^6 frames to "N", six digits and the command, and reads back as the same number and command |
| Wire.FrameSequence | pyrinnaitouch/system.py:554 | the six frame digits parse with int() back to the sequence number |
| Zoning.ReadInstalled | pyrinnaitouch/heater.py:17-25 | the installed letters are those whose Z?IS is "Y", in A-to-D order; raises when CFG is not a dict |
| Zoning.InstalledUnder | pyrinnaitouch/heater.py:12-25 | raises unless the mode object is a dict and a truthy CFG is a dict; the installed letters are read from a truthy CFG, and there are none without one |
| Zoning.Installed | pyrinnaitouch/heater.py:18-25 | the letters are single characters in strictly increasing order, and a letter is present exactly when its zone is installed |
| Zoning.ApplyOpMode | pyrinnaitouch/heater.py:155-162 | "A" gives auto without manual, "M" manual without auto, and any other value changes neither |
| Zoning.OpModesStayExclusive | pyrinnaitouch/heater.py:155-162 | once auto and manual are exclusive, no sequence of SetMode calls makes them overlap |
| Heater.HeaterStatus.constructor | pyrinnaitouch/heater.py:124-153 | all flags off, speeds and set point 0, temperatures at the sentinel 999, no zones |
| Heater.HeaterStatus.SetMode | pyrinnaitouch/heater.py:155-162 | the auto/manual pair becomes ApplyOpMode of the mode; nothing else changes |
| Heater.HeaterStatus.SetZones | pyrinnaitouch/heater.py:164-169 | each zone flag becomes YNtoBool of its value; nothing else changes |
| Heater.HeaterStatus.CirculationFanOn | pyrinnaitouch/heater.py:171-176 | the circulation fan is on exactly when the switch reads "Z" |
| Heater.HandleHeatingMode | pyrinnaitouch/heater.py:11-122 | the method raises exactly when DecodeHeating does, and then leaves the fields as DecodeHeating gives them; the zone list is left for the caller |
| Heater.HeaterOn | pyrinnaitouch/heater.py:33-43 | ST "N": system and heater on, circulation fan off, fan speed int(OOP.FL) |
| Heater.HeaterOff | pyrinnaitouch/heater.py:67-72 | ST "F": system, heater and circulation fan off; speed, modes, set point and preheating unchanged |
| Heater.HeaterFanOnly | pyrinnaitouch/heater.py:74-82 | ST "Z": system on, heater off, circulation fan on, fan speed int(OOP.FL) |
| Heater.HeaterUntouched | pyrinnaitouch/heater.py:27-33 | without a usable OOP or with another ST value, systemOn and the heater fields are left alone |
| Heater.HeaterSettings | pyrinnaitouch/heater.py:46-65 | only while on with GSO present: OP sets the mode, SP is the integer set point, GSS.PH is preheating; otherwise none changes |
| Heater.HeaterZoneOutputs | pyrinnaitouch/heater.py:84-101 | each zone is on exactly when Z?O.UE is "Y", so it is off without Z?O; its set point is Z?O.SP, or 999 when SP is missing or falsy (empty, 0, null); a falsy Z?O leaves the set point unchanged |
| Heater.HeaterSensors | pyrinnaitouch/heater.py:103-122 | Z?S.AE and ZUS.AE give the auto flags; Z?S.MT and ZUS.MT give the readings, or 999 when MT is missing; an absent object changes nothing |
| Heater.HeaterInstalled | pyrinnaitouch/heater.py:12-25 | the reported letters are those whose HGOM.CFG.Z?IS is "Y", in A-to-D order |
| Heater.HeaterNeedsObjects | pyrinnaitouch/heater.py:11-12 | the handler raises unless the second object is a dict whose HGOM is a dict |
| Cooler.CoolingStatus.constructor | pyrinnaitouch/cooler.py:81-93 | all flags off, set point 0, no zones |
| Cooler.CoolingStatus.SetMode | pyrinnaitouch/cooler.py:95-102 | the auto/manual pair becomes ApplyOpMode of the mode; nothing else changes |
| Cooler.CoolingStatus.SetZones | pyrinnaitouch/cooler.py:104-109 | each zone flag becomes YNtoBool of its value; nothing else changes |
| Cooler.CoolingStatus.CirculationFanOn | pyrinnaitouch/cooler.py:111-116 | the circulation fan is on exactly when the value is "Y" |
| Cooler.HandleCoolingMode | pyrinnaitouch/cooler.py:11-78 | the method raises exactly when DecodeCooling does, and then leaves the fields as DecodeCooling gives them |
| Cooler.CoolingOn | pyrinnaitouch/cooler.py:32-41 | GSS.CC "Y": system and cooling on, circulation fan on exactly when GSS.FS is "Y" |
| Cooler.CoolingOff | pyrinnaitouch/cooler.py:59-63 | GSS.CC "N": system and cooling off; fan, modes and set point unchanged |
| Cooler.CoolingSettings | pyrinnaitouch/cooler.py:44-57 | only while cooling is on with GSO present: OP sets the mode and SP is the integer set point |
| Cooler.CoolingZones | pyrinnaitouch/cooler.py:65-78 | with GSS present each zone is on exactly when Z?O.UE is "Y", so it is off without Z?O |
| Cooler.CoolingInstalled | pyrinnaitouch/cooler.py:12-25 | the reported letters are those whose CGOM.CFG.Z?IS is "Y", in A-to-D order |
| Evap.EvapStatus.constructor | pyrinnaitouch/evap.py:103-126 | all flags off, speed and comfort 0, no zones |
| Evap.EvapStatus.FanOn | pyrinnaitouch/evap.py:128-133 | the fan is on exactly when FS reads "N" |
| Evap.EvapStatus.FanSpeed | pyrinnaitouch/evap.py:135-136 | the fan speed becomes the given integer |
| Evap.EvapStatus.WaterPumpOn | pyrinnaitouch/evap.py:138-143 | the pump is on exactly when PS reads "N" |
| Evap.EvapStatus.SetMode | pyrinnaitouch/evap.py:145-152 | the auto/manual pair becomes ApplyOpMode of the mode; nothing else changes |
| Evap.EvapStatus.Comfort | pyrinnaitouch/evap.py:154-155 | the comfort level becomes the given value |
| Evap.HandleEvapMode | pyrinnaitouch/evap.py:11-101 | the method raises exactly when DecodeEvap does, and then leaves the fields as DecodeEvap gives them |
| Evap.EvapOn | pyrinnaitouch/evap.py:32-40 | SW "N": system and unit on, and OP sets the auto/manual pair |
| Evap.EvapManual | pyrinnaitouch/evap.py:42-59 | on in manual mode: fan on iff FS is "N", pump on iff PS is "N", fan speed int(FL), each zone iff Z?UE is "Y" |
| Evap.EvapAuto | pyrinnaitouch/evap.py:61-70 | on with OP other than "M": comfort is SP (0 when missing), every zone off, fan and pump unchanged |
| Evap.EvapStatusFlags | pyrinnaitouch/evap.py:72-83 | on with GSS present: the zone-auto flags, prewetting and the busy flag are their Y/N attributes |
| Evap.EvapOff | pyrinnaitouch/evap.py:86-101 | SW "F": system and unit off, every zone and zone-auto flag off, commonAuto included |
| Evap.EvapUntouched | pyrinnaitouch/evap.py:27-33 | without GSO or with another SW value, systemOn and the unit fields are left alone |
| Evap.EvapModesExclusive | pyrinnaitouch/evap.py:145-152 | after decoding, auto and manual are never both set if they were not before |
| Evap.EvapInstalled | pyrinnaitouch/evap.py:12-25 | the reported letters are those whose ECOM.CFG.Z?IS is "Y", in A-to-D order |
| Evap.EvapNeedsObjects | pyrinnaitouch/evap.py:11-12 | the handler raises unless the second object is a dict whose ECOM is a dict |
| Status.ReadableMode | pyrinnaitouch/system.py:86-96 | the name is one of five, and "NONE" exactly for a number outside 1..4 |
| Status.ReadableModeInjective | pyrinnaitouch/system.py:86-96 | the four real modes have four different names |
| Status.ApplyMode | pyrinnaitouch/system.py:63-75 | HEATING, COOLING and EVAP select their own flag and clear the other two; any other value changes nothing; nothing but the flags changes |
| Status.ExactlyOneMode | pyrinnaitouch/system.py:63-75 | after setMode with one of the three appliance modes exactly one flag is set |
| Status.BrivisStatus.constructor | pyrinnaitouch/system.py:33-61 | no mode, system off, every appliance assumed present, no fault, fresh sub-statuses |
| Status.BrivisStatus.SetMode | pyrinnaitouch/system.py:63-75 | the system fields become ApplyMode of the old ones |
| Status.StrippedAttribute | pyrinnaitouch/system.py:196-201 | `GetAttribute(cfg, key, None).strip()` succeeds exactly on a dict whose value is a non-empty string, and gives that string stripped |
| Status.ConfigRead | pyrinnaitouch/system.py:189-201 | CFG decodes exactly when it is a dict with non-empty string names and versions; the unit is °F exactly for TU "F", MTSP is Y/N, names and versions are stripped |
| Status.AvailableRead | pyrinnaitouch/system.py:209-220 | AVM decodes exactly when it is a dict; each appliance is present exactly when its flag is "Y" |
| Status.FaultRead | pyrinnaitouch/system.py:228 | FLT decodes exactly when it is a dict; the fault flag is AV == "Y" |
| Status.HandleConfig | pyrinnaitouch/system.py:189-201 | the CFG block raises exactly when ReadConfig does, and otherwise leaves the configuration ReadConfig gives |
| Status.HandleAvailable | pyrinnaitouch/system.py:209-220 | the AVM block raises exactly when ReadAvailable does, and otherwise sets the three appliance flags |
| Status.HandleFault | pyrinnaitouch/system.py:228 | the fault block raises exactly when ReadFault does, and otherwise sets the fault flag |
| Status.HandleSystem | pyrinnaitouch/system.py:184-228 | (corrected) the SYST half raises exactly when DecodeSystem does, and otherwise leaves the system fields DecodeSystem gives |
| Status.SystemRead | pyrinnaitouch/system.py:184-228 | (corrected) CFG, AVM and FLT are each read when truthy and keep the previous values otherwise; modes and systemOn are untouched |
| Status.SystemUnit | pyrinnaitouch/system.py:190-193 | the unit is °F exactly when a truthy CFG has TU "F", °C for any other truthy CFG, unchanged without CFG |
| Status.SystemAppliances | pyrinnaitouch/system.py:203-220 | with a truthy AVM hasHeater, hasCooling and hasEvap are exactly HG, CG and EC == "Y"; without one they are unchanged |
| Status.SystemFault | pyrinnaitouch/system.py:222-228 | (corrected) the fault flag is FLT.AV == "Y" whenever FLT is truthy, and unchanged otherwise |
| Status.SystemNeedsObjects | pyrinnaitouch/system.py:184 | the SYST step raises unless j[0] is a dict whose SYST is a dict |
| Status.FaultGuardAsWritten | pyrinnaitouch/system.py:222-228 | as written, a message with AVM but no FLT raises, and a fault reported without AVM is ignored |
| Status.FaultGuardCorrected | pyrinnaitouch/system.py:222-228 | guarded by FLT, both messages decode and the reported fault is read |
| Status.FaultMessageAsWritten | pyrinnaitouch/system.py:222-228 | as written, a whole message whose SYST has AVM and no FLT raises whatever its second element is; the corrected decoding goes on to the dispatch |
| Status.HeatingAsWrittenAgrees | pyrinnaitouch/system.py:184-233 | for a heating message whose SYST half both fault steps read alike, the code as written and the corrected decoding give the same result |
| Status.HandleRoute | pyrinnaitouch/cooler.py:18-25 | (corrected) a handler's installed letters are appended to its own mode's list; the others are unchanged |
| Status.HandleEntered | pyrinnaitouch/system.py:230-243 | (corrected) after a handler: its systemOn assignment, setMode and the installed letters, as Enter states |
| Status.HandleMode | pyrinnaitouch/system.py:230-247 | (corrected) the dispatch raises exactly when Dispatch does, and otherwise leaves the snapshot Dispatch gives |
| Status.HandleMessage | pyrinnaitouch/system.py:181-247 | (corrected) decoding the parsed array raises exactly when DecodeStatus does, and otherwise leaves the snapshot DecodeStatus gives |
| Status.StatusSteps | pyrinnaitouch/system.py:184-247 | a decoded message has at least two elements: SYST from the first, then the dispatch on the second |
| Status.DispatchHeatingFirst | pyrinnaitouch/system.py:230-233 | HGOM picks the heating handler whatever else is present: heating is the only mode, its letters go to the heater list, the other appliances are untouched |
| Status.DispatchCoolingSecond | pyrinnaitouch/system.py:235-238 | (corrected) CGOM without HGOM picks the cooling handler, with cooling as the only mode and its letters in the cooling list |
| Status.DispatchEvapThird | pyrinnaitouch/system.py:240-243 | (corrected) ECOM without HGOM and CGOM picks the evaporative handler, with evap as the only mode and its letters in the evaporative list |
| Status.DispatchUnknown | pyrinnaitouch/system.py:245-247 | a dict with none of the three keys leaves the snapshot unchanged and succeeds |
| Status.DispatchNeedsContainer | pyrinnaitouch/system.py:230 | `in` on None, a boolean or a number raises |
| Status.FreshSnapshotMode | pyrinnaitouch/system.py:230-247 | a fresh snapshot ends with exactly one mode flag when the second element names an appliance, and none otherwise |
| Status.CoolingZoneAInstalled | pyrinnaitouch/cooler.py:18-19 | a cooling message with ZAIS "Y" reports zone A installed |
| Status.RoutingAsWritten | pyrinnaitouch/cooler.py:18-25 | as written, the whole message decodes with cooling as the mode, an empty cooling list and "A" in the heater list |
| Status.RoutingCorrected | pyrinnaitouch/cooler.py:18-25 | routed to its own list, the message marks zone A installed for cooling and leaves the heater list empty |
| Events.Present | pyrinnaitouch/system.py:28-31 | the handlers a call invokes are exactly the registered handlers that are not None |
| Events.PresentAppend | pyrinnaitouch/system.py:20-31 | appending a handler adds it to the invoked list when it is not None |
| Events.FirstIndex | pyrinnaitouch/system.py:24-26 | the index found holds the handler and no earlier entry does |
| Events.Event.constructor | pyrinnaitouch/system.py:17-18 | a new event has no handlers |
| Events.Event.Add | pyrinnaitouch/system.py:20-22 | `+=` appends the handler, duplicates and None included |
| Events.Event.Remove | pyrinnaitouch/system.py:24-26 | `-=` removes the first equal entry, and raises when there is none, leaving the list unchanged |
| Events.Event.Fire | pyrinnaitouch/system.py:28-31 | a call invokes every handler that is not None, in registration order |
| Events.AddThenRemove | pyrinnaitouch/system.py:20-26 | subscribing a new handler and unsubscribing it restores the list |
| Client.Reconnect | pyrinnaitouch/system.py:538-547 | the error count is cleared; a successful connect gives a fresh open socket, a failed one keeps the old socket and reports failure |
| Client.Renew | pyrinnaitouch/system.py:523-548 | success always leaves an open socket with fewer than four errors; the error count is kept or cleared |
| Client.RenewHealthy | pyrinnaitouch/system.py:527-541 | an answering peer is kept while fewer than four decodes failed; from the fourth on the socket is closed and replaced |
| Client.RenewSilentPeer | pyrinnaitouch/system.py:527-548 | a peer with no address: failure and no change up to two errors, close and reconnect after that |
| Client.RenewBrokenPeer | pyrinnaitouch/system.py:529-541 | a peer that raises, or a closed socket, is always closed and replaced |
| Client.RenewFirstConnect | pyrinnaitouch/system.py:534-541 | without a socket the first call connects |
| Client.RenewKeepsLinkOk | pyrinnaitouch/system.py:523-548 | renewing keeps "at most four errors, none without a socket" |
| Client.SequenceAfter | pyrinnaitouch/system.py:170-176 | the echoed digits set the next sequence number, in 0..255, even when the JSON then fails; no match leaves it unchanged |
| Client.Decode | pyrinnaitouch/system.py:170-247 | (corrected) a frame decodes only when the pattern matched, json.loads succeeded and the array decoded |
| Client.DecodeFrame | pyrinnaitouch/system.py:178-247 | (corrected) the frame handler succeeds exactly when the frame decodes against the previous snapshot, and then the snapshot holds the decoded status |
| Client.EchoedFrame | pyrinnaitouch/system.py:170-176 | when the unit echoes the number of the frame just sent, the next frame carries that number plus one (0 after 255) |
| Client.Tick | pyrinnaitouch/system.py:579-581 | the keep-alive counter stays in 0..5 and restarts at 0 exactly when the keep-alive is sent |
| Client.KeepAliveCycle | pyrinnaitouch/system.py:579-588 | after k calls the counter is k mod 6, and the k-th call sends the keep-alive exactly when 6 divides k |
| Client.HourlyCloseWhen | pyrinnaitouch/system.py:598-605 | the socket is closed exactly when a close time is recorded and more than an hour old; the first call only records now |
| Client.RinnaiSystem.constructor | pyrinnaitouch/system.py:106-122 | sequence 1, counters and times 0, no subscribers, a fresh BrivisStatus, the socket taken from the shared table |
| Client.RinnaiSystem.Subscribe | pyrinnaitouch/system.py:134-135 | the handler is appended to OnUpdated |
| Client.RinnaiSystem.Unsubscribe | pyrinnaitouch/system.py:137-138 | the first equal handler is removed; raises when it was never subscribed |
| Client.RinnaiSystem.RenewConnection | pyrinnaitouch/system.py:523-548 | socket, error count and result are exactly Renew; nothing else changes |
| Client.RinnaiSystem.Transmit | pyrinnaitouch/system.py:635-639 | the payload is appended to what was sent exactly when there is an open socket; otherwise it raises |
| Client.RinnaiSystem.HandleStatus | pyrinnaitouch/system.py:161-262 | the sequence number follows the echo; success is exactly Decode succeeding, and a failure adds one decode error |
| Client.RinnaiSystem.Resequence | pyrinnaitouch/system.py:170-175 | the next sequence number becomes the echoed number plus one, wrapping to 0 from 255; nothing else in the client state changes |
| Client.RinnaiSystem.CountDecode | pyrinnaitouch/system.py:255-257 | a failed decoding adds one decode error; nothing else in the client state changes |
| Client.RinnaiSystem.Refresh | pyrinnaitouch/system.py:558-562 | the stored status is replaced by the decoded snapshot, and the subscribers called, exactly when decoding succeeded; otherwise the stored snapshot is kept (the shared sub-statuses are not modelled) |
| Client.RinnaiSystem.SendCmd | pyrinnaitouch/system.py:550-564 | nothing is sent unless the connection renews; then exactly one frame goes out, carrying the old sequence number, and it reads back as that number and the command |
| Client.RinnaiSystem.Request | pyrinnaitouch/system.py:569-575 | the result is validateCmd on the stored mode flags; a rejected command changes and sends nothing; (corrected) an accepted one either fails to renew, and then only the connection changes, or sends the frame of the fully formatted command with the old sequence number; then the sequence number follows the echo, a failed decode adds one error, the other counters stay, the status is replaced and the subscribers called exactly when the reply decodes |
| Client.RinnaiSystem.KeepAlive | pyrinnaitouch/system.py:579-588 | the counter becomes Tick of the old one, and "NA" is sent only on a tick with an open socket; a failed send is swallowed |
| Client.RinnaiSystem.CloseHourly | pyrinnaitouch/system.py:598-605 | the socket and lastclosed become HourlyClose of the old values |
| Client.RinnaiSystem.GetStatus | pyrinnaitouch/system.py:577-612 | the keep-alive counter becomes Tick of the old one, and "NA" is the only text sent, exactly on a tick with an open socket; renewal, status replacement only on a successful decode, hour rule and lastupdated as stated; the invariant is kept |
| Client.Registry.Construct | pyrinnaitouch/system.py:117-121 | a new system takes the socket recorded for its address (None for a new address) and is filed as that address's instance |
| Client.Registry.GetInstance | pyrinnaitouch/system.py:127-132 | an address already filed gives the same object and changes nothing; otherwise a new system is filed under it |

## Left out

- Socket I/O is reduced to inputs: `ConnectToTouch`, `SendToTouch`'s
  transport and `ReceiveData`'s receive loop. Each call receives the peer
  probe, the connect outcome and the received frame; sends are recorded in
  `outbox`.
- Timing is left out: `asyncio.sleep` and the receive window. The clock is a
  single value per `GetStatus` call, although the code reads `time.time()`
  several times in one call.
- `re.search` and `json.loads` are not modelled. A received frame arrives
  already split into the six digits and the parsed array, or as "no match",
  or as "JSON failed".
- Floating point is left out. The temperature conversions live in the
  Home Assistant entity layer, which is outside this model.
- The `ConnectionError` branch of `HandleStatus` is not modelled. It names
  an undefined variable, so it would raise `NameError` out of
  `HandleStatus`, and nothing in the core raises `ConnectionError` there.
- The operations whose templates `commands.py` does not define are left
  out, because calling them raises `NameError`: the zone set point, zone
  auto/manual and zone advance setters of every mode, `heater_advance`,
  `cooling_advance`, the heater and cooling fan-speed setters, and
  `turn_evap_zone_on` and `turn_evap_zone_off` (system.py:477-490), whose
  `evapZoneOn` and `evapZoneOff` are not defined.
- `Client.RinnaiSystem.RenewConnection`: the clients table is read when a
  system is constructed, but the model omits the write-back of the new
  socket to the shared clients table that `renewConnection` performs
  (system.py:540), because sockets are values here. Two instances sharing
  one socket object is not modelled.
- `GetOfflineStatus`, `setZones` and `async_will_remove_from_hass` are
  trivial or unused by the core.
- A subscriber's own effects are not modelled; only which subscribers are
  called, and in what order.
- `Client.RinnaiSystem.Refresh`, `Client.RinnaiSystem.SendCmd`,
  `Client.RinnaiSystem.Request` and `Client.RinnaiSystem.GetStatus` decode
  every message from `Status.INITIAL_STATUS` and keep the stored status
  whole when decoding fails. In the code, `heaterStatus`, `coolingStatus`
  and `evapStatus` are class attributes of `BrivisStatus` (system.py:59-61),
  and each `zones` list is class-level too (heater.py:137, cooler.py:93,
  evap.py:118). So every `BrivisStatus()` that `sendCmd` builds
  (system.py:558), the stored one included, and every system in the process
  share the same three objects and lists. Three consequences are not
  modelled:
  - A successful decode starts from the previous message's appliance
    fields, not the defaults. After an HGOM with ST "F", the set point, zone
    set points and sensor readings keep their last values, where the model
    has 0 or 999.
  - The installed letters are appended to the shared lists on every
    message, so `heaterStatus.zones` keeps growing.
  - A failed decode still changes the stored status through the fields it
    wrote before raising. An HGOM `{"OOP":{"ST":"Z","FL":"zz"}}` sets
    `heaterOn` to False and the circulation fan on (heater.py:77-78). Then
    `int("zz")` raises (heater.py:82), `_status` is not replaced, and yet
    its `heaterStatus` has changed. The model's
    `!updated ==> status == old(status)` is about the stored snapshot of a
    model where nothing is shared.
- `Status.BrivisStatus.constructor` gives each snapshot fresh sub-statuses
  and zone lists, where the code shares the class-level ones described
  above.
- The four zone attributes of each status class are one `Zones` value per
  kind, not four separate fields.
- `Evap.EvapStatus.constructor`: the `temperature` attribute of
  `EvapStatus` (default 999, evap.py:113) is not modelled. The evaporative
  handler never writes it, so it would always read 999.
- `Commands.ValidateCmd` compares commands structurally rather than by
  string equality. No two catalog constants share a text, so this gives
  the same result.
- `Py.PyInt`: `int()` is modelled for optionally signed ASCII decimal
  strings with surrounding whitespace. Underscores, non-ASCII digits and
  other bases are not accepted.
- `Client.RinnaiSystem.GetStatus`: the `shutdown` call of the hour rule is
  modelled as marking the socket closed. A socket error raised by
  `shutdown` or `close` is not modelled.

- `Status.HandleSystem`, `Status.SystemRead` and `Status.SystemFault`
  model the corrected fault step: FLT.AV is read when FLT is truthy. The
  code tests AVM instead. It raises on a SYST with AVM and no FLT, and
  ignores a fault reported without AVM. `DecodeSystemAsWritten` and
  `Status.FaultMessageAsWritten` state that behaviour.
- `Status.HandleRoute`, `Status.HandleEntered`, `Status.HandleMode`,
  `Status.DispatchCoolingSecond` and `Status.DispatchEvapThird` model the
  corrected routing: each handler's installed letters go to its own list.
  The cooling and evaporative handlers as written append them to
  `heaterStatus.zones`. `DispatchAsWritten` and `Status.RoutingAsWritten`
  state that behaviour.
- `Status.HandleMessage`, `Client.Decode` and `Client.DecodeFrame` decode
  with both corrections.
  As written, a message with AVM and no FLT fails to decode: the error count
  goes up, and the status is not replaced. Cooling and evaporative letters
  go to the heater list. So `Client.RinnaiSystem.HandleStatus`, `Refresh`,
  `SendCmd` and `GetStatus` also state the corrected outcome.
  `DecodeStatusAsWritten` is the as-written decoding.
- `Client.RinnaiSystem.Request` sends the corrected text `Sent(op)`. As
  written, the six auto/manual setters send their template unformatted,
  starting with `{{`. `Operations.SentAsWritten` and
  `Operations.AutoManualSentUnformatted` state that text.
- `Events.Event.Fire` always calls every handler that is not None. A
  subscriber that raises stops the loop in `Event.__call__`
  (pyrinnaitouch/system.py:29-31). The exception then leaves `sendCmd` and
  `GetStatus`, so the hour rule and `lastupdated` do not run. Subscribers
  are opaque here, so that path is not modelled.
- `Client.RinnaiSystem.SendCmd` treats the send on a renewed connection as
  always succeeding. A `sendall` that raises in `SendToTouch`
  (pyrinnaitouch/system.py:639) leaves `sendCmd` before `HandleStatus` runs.
  That path is not modelled, because the transport is not part of the
  model.
- `Client.RinnaiSystem.GetStatus` and `Client.RinnaiSystem.KeepAlive`: a
  raising subscriber is not modelled in `GetStatus`, as
  for `Fire`. The keep-alive swallows any exception from `SendToTouch`
  (pyrinnaitouch/system.py:582-589). The model fails that send only when
  there is no open socket. A `sendall` that raises on an open socket, so
  that "NA" does not go out, is not modelled.

## Findings

| source | as written | input that shows it | evidently intended | confidence | as-written member | corrected member |
|---|---|---|---|---|---|---|
| pyrinnaitouch/system.py:222-228 | the FLT block tests `avm` instead of `flt` | SYST `{"AVM": {"HG": "Y"}}` (no FLT) raises, since None has no `.get`; SYST `{"FLT": {"AV": "Y"}}` ignores the fault | read FLT.AV when FLT is present | high, not executed | Status.FaultGuardAsWritten | Status.FaultGuardCorrected |
| pyrinnaitouch/cooler.py:18-25 | the cooling handler (and the evaporative one, evap.py:18-25) appends installed zones to `heaterStatus.zones` | `[SYST, {"CGOM": {"CFG": {"ZAIS": "Y"}}}]` leaves the cooling zone list empty and marks "A" installed for heating | each handler fills its own status's zone list | high, not executed | Status.RoutingAsWritten | Status.RoutingCorrected |
| pyrinnaitouch/system.py:290-294 | the auto/manual setters pass their `{{...}}` template to `sendCmd` without `.format()` | `set_heater_auto()` sends text starting `{{"HGOM"` instead of `{"HGOM"` | format every template before sending | high, not executed | Operations.AutoManualSentUnformatted | Operations.SentRendered |
