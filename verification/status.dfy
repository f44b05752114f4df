/** A whole status snapshot: the BrivisStatus object with its system-wide
    fields (SYST: units, zone names, versions, installed appliances, fault)
    and its three appliance sub-statuses, and the decoding of one status
    message [SYST object, HGOM | CGOM | ECOM object] into it. */
module Status {
  import opened Py
  import opened Util
  import opened Zoning
  import Heater
  import Cooler
  import Evap

  // ---------------------------------------------------------------- modes

  const HEATING := 1
  const EVAP := 2
  const COOLING := 3
  const RC := 4
  const NONE := 5

  /** The log name of a mode number. */
  function ReadableMode(mode: int): (r: string)
    ensures r in {"HEATING", "EVAP", "COOLING", "RC", "NONE"}
    ensures r == "NONE" <==> !(HEATING <= mode <= RC)
  {
    if mode == 1 then "HEATING"
    else if mode == 2 then "EVAP"
    else if mode == 3 then "COOLING"
    else if mode == 4 then "RC"
    else "NONE"
  }

  /** The four real modes have four different names. */
  lemma ReadableModeInjective(m: int, n: int)
    requires HEATING <= m <= RC && HEATING <= n <= RC && m != n
    ensures ReadableMode(m) != ReadableMode(n)
  {
  }

  const TEMP_CELSIUS := "°C"
  const TEMP_FAHRENHEIT := "°F"

  // ---------------------------------------------------------------- the snapshot

  /** The fields the CFG block of SYST writes. */
  datatype Config = Config(
    tempUnit: Option<string>, isMultiSetPoint: bool, zoneDesc: Zones<Option<string>>,
    firmwareVersion: Option<string>, wifiModuleVersion: Option<string>)

  /** The fields the AVM block of SYST writes: which appliances are fitted. */
  datatype Appliances = Appliances(hasHeater: bool, hasCooling: bool, hasEvap: bool)

  /** The value of every system-wide BrivisStatus field. */
  datatype SystemView = SystemView(
    heaterMode: bool, coolingMode: bool, evapMode: bool, systemOn: bool,
    config: Config, appliances: Appliances, hasFault: bool)

  /** The class defaults: no mode, system off, every appliance counted as present. */
  const INITIAL_SYSTEM := SystemView(false, false, false, false, Config(None, false, Uniform(None), None, None),
                                     Appliances(true, true, true), false)

  /** A whole snapshot: the system fields and each appliance's fields and
      installed-zone list. */
  datatype StatusView = StatusView(
    sys: SystemView,
    heater: Heater.HeaterView, heaterZones: seq<string>,
    cooling: Cooler.CoolingView, coolingZones: seq<string>,
    evap: Evap.EvapView, evapZones: seq<string>)

  const INITIAL_STATUS := StatusView(INITIAL_SYSTEM, Heater.INITIAL_VIEW, [], Cooler.INITIAL_VIEW, [],
                                     Evap.INITIAL_VIEW, [])

  /** BrivisStatus.setMode: HEATING, COOLING and EVAP select their own flag
      and clear the other two; any other number changes nothing. */
  function ApplyMode(mode: int, s: SystemView): (r: SystemView)
    ensures mode == HEATING ==> r.heaterMode && !r.coolingMode && !r.evapMode
    ensures mode == COOLING ==> !r.heaterMode && r.coolingMode && !r.evapMode
    ensures mode == EVAP ==> !r.heaterMode && !r.coolingMode && r.evapMode
    ensures mode !in {HEATING, COOLING, EVAP} ==> r == s
    ensures r.(heaterMode := s.heaterMode, coolingMode := s.coolingMode, evapMode := s.evapMode) == s
  {
    if mode == HEATING then s.(heaterMode := true, coolingMode := false, evapMode := false)
    else if mode == COOLING then s.(heaterMode := false, coolingMode := true, evapMode := false)
    else if mode == EVAP then s.(heaterMode := false, coolingMode := false, evapMode := true)
    else s
  }

  /** The number of mode flags set. */
  function ModeCount(s: SystemView): nat {
    (if s.heaterMode then 1 else 0) + (if s.coolingMode then 1 else 0) + (if s.evapMode then 1 else 0)
  }

  /** After setMode with one of the three appliance modes exactly one flag is
      set, whatever the flags were before. */
  lemma ExactlyOneMode(mode: int, s: SystemView)
    requires mode in {HEATING, COOLING, EVAP}
    ensures ModeCount(ApplyMode(mode, s)) == 1
  {
  }

  class BrivisStatus {
    var heaterMode: bool
    var coolingMode: bool
    var evapMode: bool
    var systemOn: bool
    var tempUnit: Option<string>
    var hasHeater: bool
    var hasCooling: bool
    var hasEvap: bool
    var firmwareVersion: Option<string>
    var wifiModuleVersion: Option<string>
    var zoneDesc: Zones<Option<string>>
    var isMultiSetPoint: bool
    var hasFault: bool
    const heaterStatus: Heater.HeaterStatus
    const coolingStatus: Cooler.CoolingStatus
    const evapStatus: Evap.EvapStatus

    function System(): SystemView
      reads this
    {
      SystemView(heaterMode, coolingMode, evapMode, systemOn,
                 Config(tempUnit, isMultiSetPoint, zoneDesc, firmwareVersion, wifiModuleVersion),
                 Appliances(hasHeater, hasCooling, hasEvap), hasFault)
    }

    function View(): StatusView
      reads this, heaterStatus, coolingStatus, evapStatus
    {
      StatusView(System(), heaterStatus.View(), heaterStatus.zones, coolingStatus.View(), coolingStatus.zones,
                 evapStatus.View(), evapStatus.zones)
    }

    /** A fresh snapshot with fresh appliance sub-statuses. */
    constructor ()
      ensures View() == INITIAL_STATUS
      ensures fresh(heaterStatus) && fresh(coolingStatus) && fresh(evapStatus)
    {
      heaterMode, coolingMode, evapMode, systemOn := false, false, false, false;
      tempUnit, hasHeater, hasCooling, hasEvap := None, true, true, true;
      firmwareVersion, wifiModuleVersion := None, None;
      zoneDesc, isMultiSetPoint, hasFault := Uniform(None), false, false;
      heaterStatus := new Heater.HeaterStatus();
      coolingStatus := new Cooler.CoolingStatus();
      evapStatus := new Evap.EvapStatus();
    }

    method SetMode(mode: int)
      modifies this
      ensures System() == ApplyMode(mode, old(System()))
    {
      if mode == HEATING {
        heaterMode, coolingMode, evapMode := true, false, false;
      } else if mode == COOLING {
        heaterMode, coolingMode, evapMode := false, true, false;
      } else if mode == EVAP {
        heaterMode, coolingMode, evapMode := false, false, true;
      }
    }
  }

  // ---------------------------------------------------------------- SYST specification

  /** `value.strip()`: only a string has the method. */
  function StripText(v: Json): (r: Result<string>)
    ensures r.Ok? <==> v.JStr?
    ensures v.JStr? ==> r.value == Strip(v.s)
  {
    if v.JStr? then Ok(Strip(v.s)) else Err
  }

  /** A value .strip() accepts after the falsy-default lookup: a non-empty
      string. */
  predicate Text(v: Json) {
    v.JStr? && v.s != ""
  }

  /** `GetAttribute(data, key, None).strip()`. */
  function StrippedAttribute(data: Json, key: string): (r: Result<string>)
    ensures r.Ok? <==> data.JObj? && Text(At(data, key))
    ensures r.Ok? ==> r.value == Strip(At(data, key).s)
  {
    var v :- GetAttribute(data, key, JNull);
    StripText(v)
  }

  /** The unit (Fahrenheit exactly for TU "F") and the multi-set-point flag. */
  function ReadUnits(cfg: Json): Result<(string, bool)> {
    var tu :- GetAttribute(cfg, "TU", JNull);
    var mtsp :- GetAttribute(cfg, "MTSP", JNull);
    Ok((if tu == JStr("F") then TEMP_FAHRENHEIT else TEMP_CELSIUS, YNtoBool(mtsp)))
  }

  /** The four zone names, stripped. */
  function ReadNames(cfg: Json): Result<Zones<Option<string>>> {
    var a :- StrippedAttribute(cfg, "ZA");
    var b :- StrippedAttribute(cfg, "ZB");
    var c :- StrippedAttribute(cfg, "ZC");
    var d :- StrippedAttribute(cfg, "ZD");
    Ok(Zones(Some(a), Some(b), Some(c), Some(d)))
  }

  /** The firmware (VR) and wifi module (CV) versions, stripped. */
  function ReadVersions(cfg: Json): Result<(string, string)> {
    var fw :- StrippedAttribute(cfg, "VR");
    var wifi :- StrippedAttribute(cfg, "CV");
    Ok((fw, wifi))
  }

  /** The CFG block of SYST: units, then names, then versions. */
  function ReadConfig(cfg: Json): Result<Config> {
    var u :- ReadUnits(cfg);
    var n :- ReadNames(cfg);
    var v :- ReadVersions(cfg);
    Ok(Config(Some(u.0), u.1, n, Some(v.0), Some(v.1)))
  }

  /** The AVM block: each appliance is present exactly when its flag is "Y". */
  function ReadAvailable(avm: Json): Result<Appliances> {
    var hg :- GetAttribute(avm, "HG", JNull);
    var cg :- GetAttribute(avm, "CG", JNull);
    var ec :- GetAttribute(avm, "EC", JNull);
    Ok(Appliances(hg == JStr("Y"), cg == JStr("Y"), ec == JStr("Y")))
  }

  /** The fault flag FLT.AV. */
  function ReadFault(flt: Json): Result<bool> {
    var av :- GetAttribute(flt, "AV", JNull);
    Ok(YNtoBool(av))
  }

  /** The CFG block, read when CFG is truthy. */
  function ConfigStep(syst: Json, c: Config): Result<Config> {
    var cfg :- GetAttribute(syst, "CFG", JNull);
    if Truthy(cfg) then ReadConfig(cfg) else Ok(c)
  }

  /** The AVM block, read when AVM is truthy. */
  function AvailableStep(syst: Json, a: Appliances): Result<Appliances> {
    var avm :- GetAttribute(syst, "AVM", JNull);
    if Truthy(avm) then ReadAvailable(avm) else Ok(a)
  }

  /** The fault step as written: it looks FLT up but tests AVM, so FLT.AV
      is read whenever AVM is truthy and skipped whenever it is not. */
  function FaultStepAsWritten(syst: Json, hasFault: bool): Result<bool> {
    var flt :- GetAttribute(syst, "FLT", JNull);
    var avm :- GetAttribute(syst, "AVM", JNull);
    if Truthy(avm) then ReadFault(flt) else Ok(hasFault)
  }

  /** The fault step as its log message intends: FLT.AV is read when FLT is
      truthy. */
  function FaultStep(syst: Json, hasFault: bool): Result<bool> {
    var flt :- GetAttribute(syst, "FLT", JNull);
    if Truthy(flt) then ReadFault(flt) else Ok(hasFault)
  }

  /** The SYST half of HandleStatus on j[0], with the fault step guarded by FLT. */
  function DecodeSystem(j0: Json, s: SystemView): Result<SystemView> {
    var syst :- DictGet(j0, "SYST");
    var c :- ConfigStep(syst, s.config);
    var a :- AvailableStep(syst, s.appliances);
    var f :- FaultStep(syst, s.hasFault);
    Ok(s.(config := c, appliances := a, hasFault := f))
  }

  /** The SYST half of HandleStatus on j[0] as written. */
  function DecodeSystemAsWritten(j0: Json, s: SystemView): Result<SystemView> {
    var syst :- DictGet(j0, "SYST");
    var c :- ConfigStep(syst, s.config);
    var a :- AvailableStep(syst, s.appliances);
    var f :- FaultStepAsWritten(syst, s.hasFault);
    Ok(s.(config := c, appliances := a, hasFault := f))
  }

  // ---------------------------------------------------------------- mode dispatch specification

  /** Where a handler's installed-zone letters go as the code stands: the
      cooling and evaporative handlers append to heaterStatus.zones too. */
  function RouteAsWritten(installed: seq<string>, st: StatusView): StatusView {
    st.(heaterZones := st.heaterZones + installed)
  }

  /** Where they are read from: each mode's own status object. */
  function Route(mode: int, installed: seq<string>, st: StatusView): (r: StatusView)
    ensures mode == HEATING ==> r == st.(heaterZones := st.heaterZones + installed)
    ensures mode == COOLING ==> r == st.(coolingZones := st.coolingZones + installed)
    ensures mode == EVAP ==> r == st.(evapZones := st.evapZones + installed)
  {
    if mode == HEATING then st.(heaterZones := st.heaterZones + installed)
    else if mode == COOLING then st.(coolingZones := st.coolingZones + installed)
    else if mode == EVAP then st.(evapZones := st.evapZones + installed)
    else st
  }

  /** What follows a mode handler: its systemOn assignment, its installed
      zones, then setMode. */
  function Enter(mode: int, out: Outcome, st: StatusView): StatusView {
    Route(mode, out.installed, st.(sys := ApplyMode(mode, SwitchSystem(out.systemOn, st.sys))))
  }

  function DispatchHeating(j1: Json, st: StatusView): Result<StatusView> {
    var d :- Heater.DecodeHeating(j1, st.heater);
    Ok(Enter(HEATING, d.0, st.(heater := d.1)))
  }

  function DispatchCooling(j1: Json, st: StatusView): Result<StatusView> {
    var d :- Cooler.DecodeCooling(j1, st.cooling);
    Ok(Enter(COOLING, d.0, st.(cooling := d.1)))
  }

  function DispatchEvap(j1: Json, st: StatusView): Result<StatusView> {
    var d :- Evap.DecodeEvap(j1, st.evap);
    Ok(Enter(EVAP, d.0, st.(evap := d.1)))
  }

  /** The first of HGOM, CGOM, ECOM found in j[1] picks the handler; none
      found leaves the snapshot as it is. */
  function Dispatch(j1: Json, st: StatusView): Result<StatusView> {
    var h :- In("HGOM", j1);
    if h then DispatchHeating(j1, st)
    else
      var c :- In("CGOM", j1);
      if c then DispatchCooling(j1, st)
      else
        var e :- In("ECOM", j1);
        if e then DispatchEvap(j1, st) else Ok(st)
  }

  /** The decoding part of HandleStatus on the parsed array j: Err where the
      code raises. */
  function DecodeStatus(j: seq<Json>, st: StatusView): Result<StatusView> {
    if |j| == 0 then Err
    else
      var s :- DecodeSystem(j[0], st.sys);
      if |j| < 2 then Err else Dispatch(j[1], st.(sys := s))
  }

  /** What follows a mode handler as written: the installed letters always
      go to the heater list. */
  function EnterAsWritten(mode: int, out: Outcome, st: StatusView): StatusView {
    RouteAsWritten(out.installed, st.(sys := ApplyMode(mode, SwitchSystem(out.systemOn, st.sys))))
  }

  /** The dispatch as written: the same handlers in the same order, each
      followed by EnterAsWritten. */
  function DispatchAsWritten(j1: Json, st: StatusView): Result<StatusView> {
    var h :- In("HGOM", j1);
    if h then
      var d :- Heater.DecodeHeating(j1, st.heater);
      Ok(EnterAsWritten(HEATING, d.0, st.(heater := d.1)))
    else
      var c :- In("CGOM", j1);
      if c then
        var d :- Cooler.DecodeCooling(j1, st.cooling);
        Ok(EnterAsWritten(COOLING, d.0, st.(cooling := d.1)))
      else
        var e :- In("ECOM", j1);
        if e then
          var d :- Evap.DecodeEvap(j1, st.evap);
          Ok(EnterAsWritten(EVAP, d.0, st.(evap := d.1)))
        else Ok(st)
  }

  /** The decoding part of HandleStatus as written: the fault step tests
      AVM, and the installed letters of every mode go to the heater list. */
  function DecodeStatusAsWritten(j: seq<Json>, st: StatusView): Result<StatusView> {
    if |j| == 0 then Err
    else
      var s :- DecodeSystemAsWritten(j[0], st.sys);
      if |j| < 2 then Err else DispatchAsWritten(j[1], st.(sys := s))
  }

  // ---------------------------------------------------------------- the decoding methods

  method HandleUnits(cfg: Json, st: BrivisStatus) returns (r: Result<bool>)
    modifies st
    ensures r.Ok? <==> ReadUnits(cfg).Ok?
    ensures r.Ok? ==> st.System() == old(st.System()).(config := old(st.System()).config.(
      tempUnit := Some(ReadUnits(cfg).value.0), isMultiSetPoint := ReadUnits(cfg).value.1))
  {
    var tu :- GetAttribute(cfg, "TU", JNull);
    if tu == JStr("F") {
      st.tempUnit := Some(TEMP_FAHRENHEIT);
    } else {
      st.tempUnit := Some(TEMP_CELSIUS);
    }
    var mtsp :- GetAttribute(cfg, "MTSP", JNull);
    st.isMultiSetPoint := YNtoBool(mtsp);
    r := Ok(true);
  }

  method HandleNames(cfg: Json, st: BrivisStatus) returns (r: Result<bool>)
    modifies st
    ensures r.Ok? <==> ReadNames(cfg).Ok?
    ensures r.Ok? ==> st.System() == old(st.System()).(config := old(st.System()).config.(
      zoneDesc := ReadNames(cfg).value))
  {
    var a :- StrippedAttribute(cfg, "ZA");
    st.zoneDesc := st.zoneDesc.(a := Some(a));
    var b :- StrippedAttribute(cfg, "ZB");
    st.zoneDesc := st.zoneDesc.(b := Some(b));
    var c :- StrippedAttribute(cfg, "ZC");
    st.zoneDesc := st.zoneDesc.(c := Some(c));
    var d :- StrippedAttribute(cfg, "ZD");
    st.zoneDesc := st.zoneDesc.(d := Some(d));
    r := Ok(true);
  }

  method HandleVersions(cfg: Json, st: BrivisStatus) returns (r: Result<bool>)
    modifies st
    ensures r.Ok? <==> ReadVersions(cfg).Ok?
    ensures r.Ok? ==> st.System() == old(st.System()).(config := old(st.System()).config.(
      firmwareVersion := Some(ReadVersions(cfg).value.0), wifiModuleVersion := Some(ReadVersions(cfg).value.1)))
  {
    var fw :- StrippedAttribute(cfg, "VR");
    st.firmwareVersion := Some(fw);
    var wifi :- StrippedAttribute(cfg, "CV");
    st.wifiModuleVersion := Some(wifi);
    r := Ok(true);
  }

  /** The CFG block of HandleStatus, field by field. */
  method HandleConfig(cfg: Json, st: BrivisStatus) returns (r: Result<bool>)
    modifies st
    ensures r.Ok? <==> ReadConfig(cfg).Ok?
    ensures r.Ok? ==> st.System() == old(st.System()).(config := ReadConfig(cfg).value)
  {
    var ok :- HandleUnits(cfg, st);
    ok :- HandleNames(cfg, st);
    ok :- HandleVersions(cfg, st);
    r := Ok(true);
  }

  /** The FLT block of HandleStatus. */
  method HandleFault(flt: Json, st: BrivisStatus) returns (r: Result<bool>)
    modifies st
    ensures r.Ok? <==> ReadFault(flt).Ok?
    ensures r.Ok? ==> st.System() == old(st.System()).(hasFault := ReadFault(flt).value)
  {
    var av :- GetAttribute(flt, "AV", JNull);
    st.hasFault := YNtoBool(av);
    r := Ok(true);
  }

  /** The AVM block of HandleStatus. */
  method HandleAvailable(avm: Json, st: BrivisStatus) returns (r: Result<bool>)
    modifies st
    ensures r.Ok? <==> ReadAvailable(avm).Ok?
    ensures r.Ok? ==> st.System() == old(st.System()).(appliances := ReadAvailable(avm).value)
  {
    var hg :- GetAttribute(avm, "HG", JNull);
    st.hasHeater := hg == JStr("Y");
    var cg :- GetAttribute(avm, "CG", JNull);
    st.hasCooling := cg == JStr("Y");
    var ec :- GetAttribute(avm, "EC", JNull);
    st.hasEvap := ec == JStr("Y");
    r := Ok(true);
  }

  method HandleConfigStep(syst: Json, st: BrivisStatus) returns (r: Result<bool>)
    modifies st
    ensures r.Ok? <==> ConfigStep(syst, old(st.System()).config).Ok?
    ensures r.Ok? ==> st.System() == old(st.System()).(config := ConfigStep(syst, old(st.System()).config).value)
  {
    var cfg :- GetAttribute(syst, "CFG", JNull);
    if Truthy(cfg) {
      var ok :- HandleConfig(cfg, st);
    }
    r := Ok(true);
  }

  method HandleAvailableStep(syst: Json, st: BrivisStatus) returns (r: Result<bool>)
    modifies st
    ensures r.Ok? <==> AvailableStep(syst, old(st.System()).appliances).Ok?
    ensures r.Ok? ==>
      st.System() == old(st.System()).(appliances := AvailableStep(syst, old(st.System()).appliances).value)
  {
    var avm :- GetAttribute(syst, "AVM", JNull);
    if Truthy(avm) {
      var ok :- HandleAvailable(avm, st);
    }
    r := Ok(true);
  }

  method HandleFaultStep(syst: Json, st: BrivisStatus) returns (r: Result<bool>)
    modifies st
    ensures r.Ok? <==> FaultStep(syst, old(st.System()).hasFault).Ok?
    ensures r.Ok? ==> st.System() == old(st.System()).(hasFault := FaultStep(syst, old(st.System()).hasFault).value)
  {
    var flt :- GetAttribute(syst, "FLT", JNull);
    if Truthy(flt) {
      var ok :- HandleFault(flt, st);
    }
    r := Ok(true);
  }

  /** The SYST half of HandleStatus on j[0]. */
  method HandleSystem(j0: Json, st: BrivisStatus) returns (r: Result<bool>)
    modifies st
    ensures r.Ok? <==> DecodeSystem(j0, old(st.System())).Ok?
    ensures r.Ok? ==> st.System() == DecodeSystem(j0, old(st.System())).value
  {
    var syst :- DictGet(j0, "SYST");
    var ok :- HandleConfigStep(syst, st);
    ok :- HandleAvailableStep(syst, st);
    ok :- HandleFaultStep(syst, st);
    r := Ok(true);
  }

  /** Appends a handler's installed-zone letters to the list of its mode. */
  method HandleRoute(mode: int, installed: seq<string>, st: BrivisStatus)
    modifies st.heaterStatus, st.coolingStatus, st.evapStatus
    ensures st.View() == Route(mode, installed, old(st.View()))
  {
    if mode == HEATING {
      st.heaterStatus.zones := st.heaterStatus.zones + installed;
    } else if mode == COOLING {
      st.coolingStatus.zones := st.coolingStatus.zones + installed;
    } else if mode == EVAP {
      st.evapStatus.zones := st.evapStatus.zones + installed;
    }
  }

  /** The systemOn assignment a handler makes, if any. */
  function SwitchSystem(systemOn: Option<bool>, s: SystemView): SystemView {
    if systemOn.Some? then s.(systemOn := systemOn.value) else s
  }

  method HandleSystemOn(systemOn: Option<bool>, st: BrivisStatus)
    modifies st
    ensures st.View() == old(st.View()).(sys := SwitchSystem(systemOn, old(st.System())))
  {
    if systemOn.Some? {
      st.systemOn := systemOn.value;
    }
  }

  method HandleSetMode(mode: int, st: BrivisStatus)
    modifies st
    ensures st.View() == old(st.View()).(sys := ApplyMode(mode, old(st.System())))
  {
    st.SetMode(mode);
  }

  /** The systemOn assignment of a handler, its installed zones and setMode. */
  method HandleEntered(mode: int, out: Outcome, st: BrivisStatus)
    modifies st, st.heaterStatus, st.coolingStatus, st.evapStatus
    ensures st.View() == Enter(mode, out, old(st.View()))
  {
    HandleSystemOn(out.systemOn, st);
    HandleSetMode(mode, st);
    HandleRoute(mode, out.installed, st);
  }

  /** The dispatch half of HandleStatus on j[1]. */
  method HandleMode(j1: Json, st: BrivisStatus) returns (r: Result<bool>)
    modifies st, st.heaterStatus, st.coolingStatus, st.evapStatus
    ensures r.Ok? <==> Dispatch(j1, old(st.View())).Ok?
    ensures r.Ok? ==> st.View() == Dispatch(j1, old(st.View())).value
  {
    var h :- In("HGOM", j1);
    if h {
      var out :- Heater.HandleHeatingMode(j1, st.heaterStatus);
      HandleEntered(HEATING, out, st);
      return Ok(true);
    }
    var c :- In("CGOM", j1);
    if c {
      var out :- Cooler.HandleCoolingMode(j1, st.coolingStatus);
      HandleEntered(COOLING, out, st);
      return Ok(true);
    }
    var e :- In("ECOM", j1);
    if e {
      var out :- Evap.HandleEvapMode(j1, st.evapStatus);
      HandleEntered(EVAP, out, st);
      return Ok(true);
    }
    r := Ok(true);
  }

  /** The decoding part of HandleStatus: fills st from the parsed array j. */
  method HandleMessage(j: seq<Json>, st: BrivisStatus) returns (r: Result<bool>)
    modifies st, st.heaterStatus, st.coolingStatus, st.evapStatus
    ensures r.Ok? <==> DecodeStatus(j, old(st.View())).Ok?
    ensures r.Ok? ==> st.View() == DecodeStatus(j, old(st.View())).value
  {
    if |j| == 0 {
      return Err;
    }
    var ok :- HandleSystem(j[0], st);
    if |j| < 2 {
      return Err;
    }
    ok :- HandleMode(j[1], st);
    r := Ok(true);
  }

  // ---------------------------------------------------------------- SYST properties

  /** The SYST object of the message's first element. */
  function Syst(j0: Json): Json {
    At(j0, "SYST")
  }

  /** The CFG block decodes exactly when CFG is a dict whose zone names and
      versions are non-empty strings; then the unit is Fahrenheit exactly for
      TU "F", MTSP is read as "Y"/"N" and the names and versions are
      stripped. */
  lemma ConfigRead(cfg: Json)
    ensures ReadConfig(cfg).Ok? <==>
      cfg.JObj? && Text(At(cfg, "ZA")) && Text(At(cfg, "ZB")) && Text(At(cfg, "ZC")) && Text(At(cfg, "ZD"))
      && Text(At(cfg, "VR")) && Text(At(cfg, "CV"))
    ensures ReadConfig(cfg).Ok? ==>
      ReadConfig(cfg).value
        == Config(Some(if At(cfg, "TU") == JStr("F") then TEMP_FAHRENHEIT else TEMP_CELSIUS),
                  At(cfg, "MTSP") == JStr("Y"),
                  Zones(Some(Strip(At(cfg, "ZA").s)), Some(Strip(At(cfg, "ZB").s)),
                        Some(Strip(At(cfg, "ZC").s)), Some(Strip(At(cfg, "ZD").s))),
                  Some(Strip(At(cfg, "VR").s)), Some(Strip(At(cfg, "CV").s)))
  {
  }

  lemma AvailableRead(avm: Json)
    ensures ReadAvailable(avm).Ok? <==> avm.JObj?
    ensures ReadAvailable(avm).Ok? ==>
      ReadAvailable(avm).value == Appliances(At(avm, "HG") == JStr("Y"), At(avm, "CG") == JStr("Y"),
                                             At(avm, "EC") == JStr("Y"))
  {
  }

  lemma FaultRead(flt: Json)
    ensures ReadFault(flt).Ok? <==> flt.JObj?
    ensures ReadFault(flt).Ok? ==> ReadFault(flt).value == (At(flt, "AV") == JStr("Y"))
  {
  }

  /** The SYST step reads CFG, AVM and FLT each when truthy and keeps the
      previous values otherwise; the mode flags and systemOn are left alone. */
  lemma SystemRead(j0: Json, s: SystemView)
    requires DecodeSystem(j0, s).Ok?
    ensures j0.JObj? && Syst(j0).JObj?
    ensures var syst := Syst(j0); var r := DecodeSystem(j0, s).value;
      var cfg := At(syst, "CFG"); var avm := At(syst, "AVM"); var flt := At(syst, "FLT");
      && (Truthy(cfg) ==> ReadConfig(cfg).Ok? && r.config == ReadConfig(cfg).value)
      && (!Truthy(cfg) ==> r.config == s.config)
      && (Truthy(avm) ==> ReadAvailable(avm).Ok? && r.appliances == ReadAvailable(avm).value)
      && (!Truthy(avm) ==> r.appliances == s.appliances)
      && (Truthy(flt) ==> ReadFault(flt).Ok? && r.hasFault == ReadFault(flt).value)
      && (!Truthy(flt) ==> r.hasFault == s.hasFault)
      && r.(config := s.config, appliances := s.appliances, hasFault := s.hasFault) == s
  {
  }

  /** The unit is Fahrenheit exactly when a truthy CFG holds TU "F", Celsius
      for any other truthy CFG, and unchanged without CFG. */
  lemma SystemUnit(j0: Json, s: SystemView)
    requires DecodeSystem(j0, s).Ok?
    ensures var cfg := At(Syst(j0), "CFG");
      DecodeSystem(j0, s).value.config.tempUnit
        == if !Truthy(cfg) then s.config.tempUnit
           else Some(if At(cfg, "TU") == JStr("F") then TEMP_FAHRENHEIT else TEMP_CELSIUS)
  {
    SystemRead(j0, s);
    ConfigRead(At(Syst(j0), "CFG"));
  }

  /** With a truthy AVM each appliance is present exactly when its flag is
      "Y"; without one the three flags keep their values. */
  lemma SystemAppliances(j0: Json, s: SystemView)
    requires DecodeSystem(j0, s).Ok?
    ensures var avm := At(Syst(j0), "AVM"); var r := DecodeSystem(j0, s).value.appliances;
      if Truthy(avm) then
        && r.hasHeater == (At(avm, "HG") == JStr("Y"))
        && r.hasCooling == (At(avm, "CG") == JStr("Y"))
        && r.hasEvap == (At(avm, "EC") == JStr("Y"))
      else r == s.appliances
  {
    SystemRead(j0, s);
    AvailableRead(At(Syst(j0), "AVM"));
  }

  /** The fault flag is FLT.AV read as "Y"/"N" whenever FLT is truthy, whether
      or not AVM is present, and unchanged otherwise. */
  lemma SystemFault(j0: Json, s: SystemView)
    requires DecodeSystem(j0, s).Ok?
    ensures var flt := At(Syst(j0), "FLT");
      DecodeSystem(j0, s).value.hasFault == if Truthy(flt) then At(flt, "AV") == JStr("Y") else s.hasFault
  {
    SystemRead(j0, s);
    FaultRead(At(Syst(j0), "FLT"));
  }

  /** The SYST step raises unless j[0] is a dict whose SYST is a dict. */
  lemma SystemNeedsObjects(j0: Json, s: SystemView)
    requires !j0.JObj? || !Syst(j0).JObj?
    ensures DecodeSystem(j0, s).Err? && DecodeSystemAsWritten(j0, s).Err?
  {
  }

  /** The SYST object {"AVM": {"HG": "Y"}}: no FLT, a truthy AVM. */
  const NO_FLT := JObj(map["SYST" := JObj(map["AVM" := JObj(map["HG" := JStr("Y")])])])

  /** The SYST object {"FLT": {"AV": "Y"}}: a fault reported, no AVM. */
  const NO_AVM := JObj(map["SYST" := JObj(map["FLT" := JObj(map["AV" := JStr("Y")])])])

  /** As written, the fault step tests AVM instead of FLT: a message with AVM
      and without FLT raises (None has no .get), and a fault reported
      without AVM is ignored. */
  lemma FaultGuardAsWritten(s: SystemView)
    ensures DecodeSystemAsWritten(NO_FLT, s).Err?
    ensures DecodeSystemAsWritten(NO_AVM, s).Ok? && DecodeSystemAsWritten(NO_AVM, s).value.hasFault == s.hasFault
  {
    var avm := JObj(map["HG" := JStr("Y")]);
    assert At(Syst(NO_FLT), "AVM") == avm && At(Syst(NO_FLT), "FLT") == JNull && At(Syst(NO_FLT), "CFG") == JNull;
    assert ReadAvailable(avm).Ok?;
    assert At(Syst(NO_AVM), "AVM") == JNull && At(Syst(NO_AVM), "CFG") == JNull;
  }

  /** Guarded by FLT, both messages decode and the reported fault is read. */
  lemma FaultGuardCorrected(s: SystemView)
    ensures DecodeSystem(NO_FLT, s).Ok? && DecodeSystem(NO_FLT, s).value.hasFault == s.hasFault
    ensures DecodeSystem(NO_AVM, s).Ok? && DecodeSystem(NO_AVM, s).value.hasFault
  {
    var avm := JObj(map["HG" := JStr("Y")]);
    var flt := JObj(map["AV" := JStr("Y")]);
    assert At(Syst(NO_FLT), "AVM") == avm && At(Syst(NO_FLT), "FLT") == JNull && At(Syst(NO_FLT), "CFG") == JNull;
    assert ReadAvailable(avm).Ok?;
    assert At(Syst(NO_AVM), "AVM") == JNull && At(Syst(NO_AVM), "CFG") == JNull && At(Syst(NO_AVM), "FLT") == flt;
    assert At(flt, "AV") == JStr("Y");
  }

  /** As written, a message whose SYST has AVM and no FLT raises whatever
      follows it, so the snapshot is discarded; with the FLT guard the same
      message goes on to the dispatch. */
  lemma FaultMessageAsWritten(j1: Json, st: StatusView)
    ensures DecodeStatusAsWritten([NO_FLT, j1], st).Err?
    ensures DecodeSystem(NO_FLT, st.sys).Ok?
    ensures DecodeStatus([NO_FLT, j1], st) == Dispatch(j1, st.(sys := DecodeSystem(NO_FLT, st.sys).value))
  {
    FaultGuardAsWritten(st.sys);
    FaultGuardCorrected(st.sys);
  }

  /** The two readings differ only where the findings say: for a heating
      message whose SYST half both fault steps read alike, the code as
      written and the corrected decoding give the same result. */
  lemma HeatingAsWrittenAgrees(j0: Json, j1: Json, st: StatusView)
    requires DecodeSystemAsWritten(j0, st.sys) == DecodeSystem(j0, st.sys)
    requires j1.JObj? && "HGOM" in j1.fields
    ensures DecodeStatusAsWritten([j0, j1], st) == DecodeStatus([j0, j1], st)
  {
    if DecodeSystem(j0, st.sys).Ok? {
      var s := st.(sys := DecodeSystem(j0, st.sys).value);
      assert Dispatch(j1, s) == DispatchHeating(j1, s);
    }
  }

  // ---------------------------------------------------------------- dispatch properties

  /** A decoded message has at least two elements: SYST first, then the
      dispatch on the second. */
  lemma StatusSteps(j: seq<Json>, st: StatusView)
    requires DecodeStatus(j, st).Ok?
    ensures |j| >= 2 && DecodeSystem(j[0], st.sys).Ok?
    ensures DecodeStatus(j, st) == Dispatch(j[1], st.(sys := DecodeSystem(j[0], st.sys).value))
  {
  }

  /** HGOM in j[1] picks the heating handler whatever else j[1] holds: the
      heater fields are its result, heating becomes the only mode, its
      installed zones go to the heater's list, its systemOn assignment is
      kept, and the other appliances are untouched. */
  lemma DispatchHeatingFirst(j1: Json, st: StatusView)
    requires Dispatch(j1, st).Ok? && j1.JObj? && "HGOM" in j1.fields
    ensures Heater.DecodeHeating(j1, st.heater).Ok?
    ensures var d := Heater.DecodeHeating(j1, st.heater).value; var r := Dispatch(j1, st).value;
      && r.heater == d.1 && r.heaterZones == st.heaterZones + d.0.installed
      && r.sys.heaterMode && !r.sys.coolingMode && !r.sys.evapMode
      && r.sys.systemOn == (if d.0.systemOn.Some? then d.0.systemOn.value else st.sys.systemOn)
      && r.cooling == st.cooling && r.coolingZones == st.coolingZones
      && r.evap == st.evap && r.evapZones == st.evapZones
  {
  }

  /** CGOM without HGOM picks the cooling handler. */
  lemma DispatchCoolingSecond(j1: Json, st: StatusView)
    requires Dispatch(j1, st).Ok? && j1.JObj? && "HGOM" !in j1.fields && "CGOM" in j1.fields
    ensures Cooler.DecodeCooling(j1, st.cooling).Ok?
    ensures var d := Cooler.DecodeCooling(j1, st.cooling).value; var r := Dispatch(j1, st).value;
      && r.cooling == d.1 && r.coolingZones == st.coolingZones + d.0.installed
      && !r.sys.heaterMode && r.sys.coolingMode && !r.sys.evapMode
      && r.sys.systemOn == (if d.0.systemOn.Some? then d.0.systemOn.value else st.sys.systemOn)
      && r.heater == st.heater && r.heaterZones == st.heaterZones
      && r.evap == st.evap && r.evapZones == st.evapZones
  {
  }

  /** ECOM without HGOM and CGOM picks the evaporative handler. */
  lemma DispatchEvapThird(j1: Json, st: StatusView)
    requires Dispatch(j1, st).Ok? && j1.JObj? && "HGOM" !in j1.fields && "CGOM" !in j1.fields && "ECOM" in j1.fields
    ensures Evap.DecodeEvap(j1, st.evap).Ok?
    ensures var d := Evap.DecodeEvap(j1, st.evap).value; var r := Dispatch(j1, st).value;
      && r.evap == d.1 && r.evapZones == st.evapZones + d.0.installed
      && !r.sys.heaterMode && !r.sys.coolingMode && r.sys.evapMode
      && r.sys.systemOn == (if d.0.systemOn.Some? then d.0.systemOn.value else st.sys.systemOn)
      && r.heater == st.heater && r.heaterZones == st.heaterZones
      && r.cooling == st.cooling && r.coolingZones == st.coolingZones
  {
  }

  /** A dict with none of the three keys changes nothing: "Unknown mode". */
  lemma DispatchUnknown(j1: Json, st: StatusView)
    requires j1.JObj? && "HGOM" !in j1.fields && "CGOM" !in j1.fields && "ECOM" !in j1.fields
    ensures Dispatch(j1, st) == Ok(st)
  {
  }

  /** `in` raises on None, booleans and numbers. */
  lemma DispatchNeedsContainer(j1: Json, st: StatusView)
    requires j1.JNull? || j1.JBool? || j1.JNum?
    ensures Dispatch(j1, st).Err?
  {
  }

  /** A fresh snapshot decoded from a message whose second element names one
      of the three appliance objects ends with exactly one mode flag set; with
      none of them, no flag is set. */
  lemma FreshSnapshotMode(j: seq<Json>)
    requires DecodeStatus(j, INITIAL_STATUS).Ok? && j[1].JObj?
    ensures var r := DecodeStatus(j, INITIAL_STATUS).value;
      ModeCount(r.sys) == if "HGOM" in j[1].fields || "CGOM" in j[1].fields || "ECOM" in j[1].fields then 1 else 0
  {
    StatusSteps(j, INITIAL_STATUS);
    SystemRead(j[0], INITIAL_SYSTEM);
    var st := INITIAL_STATUS.(sys := DecodeSystem(j[0], INITIAL_SYSTEM).value);
    if "HGOM" in j[1].fields {
      DispatchHeatingFirst(j[1], st);
    } else if "CGOM" in j[1].fields {
      DispatchCoolingSecond(j[1], st);
    } else if "ECOM" in j[1].fields {
      DispatchEvapThird(j[1], st);
    } else {
      DispatchUnknown(j[1], st);
    }
  }

  // ---------------------------------------------------------------- installed-zone routing

  /** The second element {"CGOM": {"CFG": {"ZAIS": "Y"}}}: a cooling message
      whose configuration marks zone A installed. */
  const COOLING_ZONE_A := JObj(map["CGOM" := JObj(map["CFG" := JObj(map["ZAIS" := JStr("Y")])])])

  /** The cooling handler reports zone A installed for that message. */
  lemma CoolingZoneAInstalled(v: Cooler.CoolingView)
    ensures Cooler.DecodeCooling(COOLING_ZONE_A, v) == Ok((Outcome(None, ["A"]), v))
  {
    var m := JObj(map["CFG" := JObj(map["ZAIS" := JStr("Y")])]);
    var cfg := JObj(map["ZAIS" := JStr("Y")]);
    assert At(COOLING_ZONE_A, "CGOM") == m && At(m, "CFG") == cfg && At(m, "GSS") == JNull;
    assert IsInstalled(cfg, A) && !IsInstalled(cfg, B) && !IsInstalled(cfg, C) && !IsInstalled(cfg, D) by {
      assert Key(A, "IS") == "ZAIS" && Key(B, "IS") == "ZBIS" && Key(C, "IS") == "ZCIS" && Key(D, "IS") == "ZDIS";
    }
    assert Installed(cfg) == ["A"];
  }

  /** As written, the cooling and evaporative handlers put their installed
      zones in heaterStatus.zones: after the cooling message above the
      cooling list the entities read is still empty and zone A is reported
      for the heater. */
  lemma RoutingAsWritten(j0: Json)
    requires DecodeSystemAsWritten(j0, INITIAL_SYSTEM).Ok?
    ensures DecodeStatusAsWritten([j0, COOLING_ZONE_A], INITIAL_STATUS).Ok?
    ensures var r := DecodeStatusAsWritten([j0, COOLING_ZONE_A], INITIAL_STATUS).value;
      r.coolingZones == [] && r.heaterZones == ["A"] && r.sys.coolingMode
  {
    var st := INITIAL_STATUS.(sys := DecodeSystemAsWritten(j0, INITIAL_SYSTEM).value);
    CoolingZoneAInstalled(st.cooling);
    assert In("HGOM", COOLING_ZONE_A) == Ok(false) && In("CGOM", COOLING_ZONE_A) == Ok(true);
  }

  /** Routed to its own list, the cooling message marks zone A installed in
      the cooling status and leaves the heater's list alone. */
  lemma RoutingCorrected(j0: Json)
    requires DecodeSystem(j0, INITIAL_SYSTEM).Ok?
    ensures DecodeStatus([j0, COOLING_ZONE_A], INITIAL_STATUS).Ok?
    ensures var r := DecodeStatus([j0, COOLING_ZONE_A], INITIAL_STATUS).value;
      r.coolingZones == ["A"] && r.heaterZones == [] && r.sys.coolingMode
  {
    var st := INITIAL_STATUS.(sys := DecodeSystem(j0, INITIAL_SYSTEM).value);
    CoolingZoneAInstalled(st.cooling);
    assert In("HGOM", COOLING_ZONE_A) == Ok(false) && In("CGOM", COOLING_ZONE_A) == Ok(true);
    assert Dispatch(COOLING_ZONE_A, st) == DispatchCooling(COOLING_ZONE_A, st);
  }
}
