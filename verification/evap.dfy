/** The evaporative-cooling half of a status snapshot: the EvapStatus object
    and HandleEvapMode, which fills it in from the ECOM object of a status
    message. */
module Evap {
  import opened Py
  import opened Util
  import opened Zoning

  /** The value of every EvapStatus field the handler writes. */
  datatype EvapView = EvapView(
    evapOn: bool, modes: OpFlags, fanOn: bool, fanSpeed: int, waterPumpOn: bool, comfort: Json,
    commonAuto: bool, prewetting: bool, coolerBusy: bool, zoneOn: Zones<bool>, zoneAuto: Zones<bool>)

  const INITIAL_VIEW := EvapView(false, OpFlags(false, false), false, 0, false, JNum(0),
                                 false, false, false, Uniform(false), Uniform(false))

  class EvapStatus {
    var evapOn: bool
    var manualMode: bool
    var autoMode: bool
    var fanOn: bool
    var fanSpeed: int
    var waterPumpOn: bool
    var comfort: Json
    var commonAuto: bool
    var prewetting: bool
    var coolerBusy: bool
    var zones: seq<string>
    var zoneOn: Zones<bool>
    var zoneAuto: Zones<bool>

    function View(): EvapView
      reads this
    {
      EvapView(evapOn, OpFlags(autoMode, manualMode), fanOn, fanSpeed, waterPumpOn, comfort,
               commonAuto, prewetting, coolerBusy, zoneOn, zoneAuto)
    }

    constructor ()
      ensures View() == INITIAL_VIEW && zones == []
    {
      evapOn, manualMode, autoMode := false, false, false;
      fanOn, fanSpeed, waterPumpOn, comfort := false, 0, false, JNum(0);
      commonAuto, prewetting, coolerBusy := false, false, false;
      zones := [];
      zoneOn, zoneAuto := Uniform(false), Uniform(false);
    }

    /** The fan runs exactly when FS reads "N". */
    method FanOn(statusStr: Json)
      modifies this
      ensures View() == old(View()).(fanOn := statusStr == JStr("N"))
      ensures zones == old(zones)
    {
      if statusStr == JStr("N") {
        fanOn := true;
      } else {
        fanOn := false;
      }
    }

    method FanSpeed(speedInt: int)
      modifies this
      ensures View() == old(View()).(fanSpeed := speedInt)
      ensures zones == old(zones)
    {
      fanSpeed := speedInt;
    }

    /** The water pump runs exactly when PS reads "N". */
    method WaterPumpOn(statusStr: Json)
      modifies this
      ensures View() == old(View()).(waterPumpOn := statusStr == JStr("N"))
      ensures zones == old(zones)
    {
      if statusStr == JStr("N") {
        waterPumpOn := true;
      } else {
        waterPumpOn := false;
      }
    }

    /** "A" selects auto, "M" manual, anything else changes nothing. */
    method SetMode(mode: Json)
      modifies this
      ensures View() == old(View()).(modes := ApplyOpMode(mode, old(View()).modes))
      ensures zones == old(zones)
    {
      if mode == JStr("A") {
        autoMode, manualMode := true, false;
      } else if mode == JStr("M") {
        autoMode, manualMode := false, true;
      }
    }

    method Comfort(c: Json)
      modifies this
      ensures View() == old(View()).(comfort := c)
      ensures zones == old(zones)
    {
      comfort := c;
    }
  }

  // ---------------------------------------------------------------- specification

  /** Manual running: fan and pump switches, the fan speed as an integer and
      the four zone switches Z?UE. */
  function ReadManual(gso: Json, v: EvapView): Result<EvapView> {
    var fs :- GetAttribute(gso, "FS", JNull);
    var fl :- GetAttribute(gso, "FL", JNull);
    var speed :- PyInt(fl);
    var ps :- GetAttribute(gso, "PS", JNull);
    var za :- GetAttribute(gso, "ZAUE", JBool(false));
    var zb :- GetAttribute(gso, "ZBUE", JBool(false));
    var zc :- GetAttribute(gso, "ZCUE", JBool(false));
    var zd :- GetAttribute(gso, "ZDUE", JBool(false));
    Ok(v.(fanOn := fs == JStr("N"), fanSpeed := speed, waterPumpOn := ps == JStr("N"),
          zoneOn := Zones(YNtoBool(za), YNtoBool(zb), YNtoBool(zc), YNtoBool(zd))))
  }

  /** Automatic running: the comfort level SP (0 when missing), every zone off. */
  function ReadAuto(gso: Json, v: EvapView): Result<EvapView> {
    var comfort :- GetAttribute(gso, "SP", JNum(0));
    Ok(v.(comfort := comfort, zoneOn := Uniform(false)))
  }

  /** The GSS step: the zone-auto flags, prewetting and the busy flag. */
  function ReadStatus(m: Json, v: EvapView): Result<EvapView> {
    var gss :- GetAttribute(m, "GSS", JNull);
    if !Truthy(gss) then Ok(v) else ReadFlags(gss, v)
  }

  /** The flags of a present GSS object. */
  function ReadFlags(gss: Json, v: EvapView): Result<EvapView> {
    var u :- GetAttribute(gss, "ZUAE", JBool(false));
    var a :- GetAttribute(gss, "ZAAE", JBool(false));
    var b :- GetAttribute(gss, "ZBAE", JBool(false));
    var c :- GetAttribute(gss, "ZCAE", JBool(false));
    var d :- GetAttribute(gss, "ZDAE", JBool(false));
    var pw :- GetAttribute(gss, "PW", JBool(false));
    var busy :- GetAttribute(gss, "BY", JBool(false));
    Ok(v.(commonAuto := YNtoBool(u), zoneAuto := Zones(YNtoBool(a), YNtoBool(b), YNtoBool(c), YNtoBool(d)),
          prewetting := YNtoBool(pw), coolerBusy := YNtoBool(busy)))
  }

  /** SW "N": SetMode(OP), the unit is on, then the manual or the automatic
      step, then the GSS step. */
  function ReadRunning(m: Json, gso: Json, v: EvapView): Result<EvapView> {
    var op :- GetAttribute(gso, "OP", JNull);
    var on := v.(modes := ApplyOpMode(op, v.modes), evapOn := true);
    var s :- ReadSchedule(gso, op, on);
    ReadStatus(m, s)
  }

  /** The manual step when OP is "M", the automatic step otherwise. */
  function ReadSchedule(gso: Json, op: Json, v: EvapView): Result<EvapView> {
    if op == JStr("M") then ReadManual(gso, v) else ReadAuto(gso, v)
  }

  /** SW "F": the unit, every zone and every zone-auto flag are off. */
  function SwitchedOff(v: EvapView): EvapView {
    v.(evapOn := false, zoneOn := Uniform(false), commonAuto := false, zoneAuto := Uniform(false))
  }

  /** HandleEvapMode on the message's second object j1, from the field values
      v: the outcome and the new field values, or Err where the code raises. */
  function DecodeEvap(j1: Json, v: EvapView): Result<(Outcome, EvapView)> {
    var m :- DictGet(j1, "ECOM");
    var installed :- InstalledUnder(m);
    var gso :- GetAttribute(m, "GSO", JNull);
    if !Truthy(gso) then Ok((Outcome(None, installed), v))
    else
      var sw :- GetAttribute(gso, "SW", JNull);
      if sw == JStr("N") then
        var w :- ReadRunning(m, gso, v);
        Ok((Outcome(Some(true), installed), w))
      else if sw == JStr("F") then
        Ok((Outcome(Some(false), installed), SwitchedOff(v)))
      else
        Ok((Outcome(None, installed), v))
  }

  // ---------------------------------------------------------------- the handler

  /** HandleEvapMode: reads the ECOM object of j1 into es and reports the
      systemOn assignment and the installed zones. */
  method HandleEvapMode(j1: Json, es: EvapStatus) returns (r: Result<Outcome>)
    modifies es
    ensures es.zones == old(es.zones)
    ensures r.Ok? <==> DecodeEvap(j1, old(es.View())).Ok?
    ensures r.Ok? ==> (r.value, es.View()) == DecodeEvap(j1, old(es.View())).value
  {
    var m :- DictGet(j1, "ECOM");
    var installed :- InstalledUnder(m);
    var gso :- GetAttribute(m, "GSO", JNull);
    if !Truthy(gso) {
      return Ok(Outcome(None, installed));
    }
    var switch :- GetAttribute(gso, "SW", JNull);
    if switch == JStr("N") {
      var ok :- HandleRunning(m, gso, es);
      r := Ok(Outcome(Some(true), installed));
    } else if switch == JStr("F") {
      HandleSwitchOff(es);
      r := Ok(Outcome(Some(false), installed));
    } else {
      r := Ok(Outcome(None, installed));
    }
  }

  /** SW "F": the unit, every zone and every auto flag off. */
  method HandleSwitchOff(es: EvapStatus)
    modifies es
    ensures es.zones == old(es.zones)
    ensures es.View() == SwitchedOff(old(es.View()))
  {
    es.evapOn := false;
    es.zoneOn := Uniform(false);
    es.commonAuto := false;
    es.zoneAuto := Uniform(false);
  }

  /** The SW "N" branch of HandleEvapMode. */
  method HandleRunning(m: Json, gso: Json, es: EvapStatus) returns (r: Result<bool>)
    modifies es
    ensures es.zones == old(es.zones)
    ensures r.Ok? <==> ReadRunning(m, gso, old(es.View())).Ok?
    ensures r.Ok? ==> es.View() == ReadRunning(m, gso, old(es.View())).value
  {
    var opmode :- GetAttribute(gso, "OP", JNull);
    es.SetMode(opmode);
    es.evapOn := true;
    var ok :- HandleSchedule(gso, opmode, es);
    ok :- HandleStatusFlags(m, es);
    r := Ok(true);
  }

  method HandleSchedule(gso: Json, opmode: Json, es: EvapStatus) returns (r: Result<bool>)
    modifies es
    ensures es.zones == old(es.zones)
    ensures r.Ok? <==> ReadSchedule(gso, opmode, old(es.View())).Ok?
    ensures r.Ok? ==> es.View() == ReadSchedule(gso, opmode, old(es.View())).value
  {
    if opmode == JStr("M") {
      r := HandleManual(gso, es);
    } else {
      r := HandleAuto(gso, es);
    }
  }

  /** The automatic block of the SW "N" branch. */
  method HandleAuto(gso: Json, es: EvapStatus) returns (r: Result<bool>)
    modifies es
    ensures es.zones == old(es.zones)
    ensures r.Ok? <==> ReadAuto(gso, old(es.View())).Ok?
    ensures r.Ok? ==> es.View() == ReadAuto(gso, old(es.View())).value
  {
    var comfort :- GetAttribute(gso, "SP", JNum(0));
    es.Comfort(comfort);
    es.zoneOn := Uniform(false);
    r := Ok(true);
  }

  /** The manual block of the SW "N" branch. */
  method HandleManual(gso: Json, es: EvapStatus) returns (r: Result<bool>)
    modifies es
    ensures es.zones == old(es.zones)
    ensures r.Ok? <==> ReadManual(gso, old(es.View())).Ok?
    ensures r.Ok? ==> es.View() == ReadManual(gso, old(es.View())).value
  {
    var evapFan :- GetAttribute(gso, "FS", JNull);
    es.FanOn(evapFan);
    var fanSpeed :- GetAttribute(gso, "FL", JNull);
    var speed :- PyInt(fanSpeed);
    es.FanSpeed(speed);
    var waterPump :- GetAttribute(gso, "PS", JNull);
    es.WaterPumpOn(waterPump);
    var za :- GetAttribute(gso, "ZAUE", JBool(false));
    var zb :- GetAttribute(gso, "ZBUE", JBool(false));
    var zc :- GetAttribute(gso, "ZCUE", JBool(false));
    var zd :- GetAttribute(gso, "ZDUE", JBool(false));
    es.zoneOn := Zones(YNtoBool(za), YNtoBool(zb), YNtoBool(zc), YNtoBool(zd));
    r := Ok(true);
  }

  /** The GSS block of the SW "N" branch. */
  method HandleStatusFlags(m: Json, es: EvapStatus) returns (r: Result<bool>)
    modifies es
    ensures es.zones == old(es.zones)
    ensures r.Ok? <==> ReadStatus(m, old(es.View())).Ok?
    ensures r.Ok? ==> es.View() == ReadStatus(m, old(es.View())).value
  {
    var gss :- GetAttribute(m, "GSS", JNull);
    if Truthy(gss) {
      r := HandleFlags(gss, es);
    } else {
      r := Ok(true);
    }
  }

  method HandleFlags(gss: Json, es: EvapStatus) returns (r: Result<bool>)
    modifies es
    ensures es.zones == old(es.zones)
    ensures r.Ok? <==> ReadFlags(gss, old(es.View())).Ok?
    ensures r.Ok? ==> es.View() == ReadFlags(gss, old(es.View())).value
  {
    var u :- GetAttribute(gss, "ZUAE", JBool(false));
    es.commonAuto := YNtoBool(u);
    var a :- GetAttribute(gss, "ZAAE", JBool(false));
    var b :- GetAttribute(gss, "ZBAE", JBool(false));
    var c :- GetAttribute(gss, "ZCAE", JBool(false));
    var d :- GetAttribute(gss, "ZDAE", JBool(false));
    es.zoneAuto := Zones(YNtoBool(a), YNtoBool(b), YNtoBool(c), YNtoBool(d));
    var pw :- GetAttribute(gss, "PW", JBool(false));
    es.prewetting := YNtoBool(pw);
    var busy :- GetAttribute(gss, "BY", JBool(false));
    es.coolerBusy := YNtoBool(busy);
    r := Ok(true);
  }

  // ---------------------------------------------------------------- properties

  /** The ECOM sub-object named key, None when absent. */
  function Part(j1: Json, key: string): Json {
    At(At(j1, "ECOM"), key)
  }

  /** The evaporative unit's switch GSO.SW. */
  function Switch(j1: Json): Json {
    At(Part(j1, "GSO"), "SW")
  }

  /** A decoded message has dict ECOM; the result is made of the installed
      zones and, by GSO.SW, the running steps, the switched-off state or the
      unchanged fields. */
  lemma DecodeSteps(j1: Json, v: EvapView)
    requires DecodeEvap(j1, v).Ok?
    ensures j1.JObj? && At(j1, "ECOM").JObj? && InstalledUnder(At(j1, "ECOM")).Ok?
    ensures DecodeEvap(j1, v).value.0.installed == InstalledUnder(At(j1, "ECOM")).value
    ensures Switch(j1) == JStr("N") ==>
      && ReadRunning(At(j1, "ECOM"), Part(j1, "GSO"), v).Ok?
      && DecodeEvap(j1, v).value.0.systemOn == Some(true)
      && DecodeEvap(j1, v).value.1 == ReadRunning(At(j1, "ECOM"), Part(j1, "GSO"), v).value
    ensures Switch(j1) == JStr("F") ==>
      DecodeEvap(j1, v).value.0.systemOn == Some(false) && DecodeEvap(j1, v).value.1 == SwitchedOff(v)
    ensures Switch(j1) != JStr("N") && Switch(j1) != JStr("F") ==>
      DecodeEvap(j1, v).value.0.systemOn == None && DecodeEvap(j1, v).value.1 == v
  {
  }

  /** The running steps in order: SetMode(OP) and evapOn, the manual or
      automatic step, the GSS step. */
  lemma RunningSteps(m: Json, gso: Json, v: EvapView)
    requires ReadRunning(m, gso, v).Ok?
    ensures gso.JObj?
    ensures var on := v.(modes := ApplyOpMode(At(gso, "OP"), v.modes), evapOn := true);
      var s := ReadSchedule(gso, At(gso, "OP"), on);
      && s.Ok? && ReadStatus(m, s.value).Ok?
      && ReadRunning(m, gso, v).value == ReadStatus(m, s.value).value
  {
    var op := GetAttribute(gso, "OP", JNull).value;
    if op != At(gso, "OP") {
      assert !Truthy(At(gso, "OP")) && op == JNull;
    }
  }

  /** The GSS step writes only the zone-auto flags, prewetting and the busy
      flag, and nothing when GSS is falsy. */
  lemma StatusFrame(m: Json, v: EvapView)
    requires ReadStatus(m, v).Ok?
    ensures var w := ReadStatus(m, v).value;
      w.(commonAuto := v.commonAuto, zoneAuto := v.zoneAuto, prewetting := v.prewetting, coolerBusy := v.coolerBusy) == v
    ensures !Truthy(At(m, "GSS")) ==> ReadStatus(m, v).value == v
  {
  }

  lemma StatusRead(m: Json, v: EvapView, z: ZoneId)
    requires ReadStatus(m, v).Ok? && Truthy(At(m, "GSS"))
    ensures var w := ReadStatus(m, v).value;
      var gss := At(m, "GSS");
      && w.commonAuto == (At(gss, "ZUAE") == JStr("Y"))
      && w.zoneAuto.Get(z) == (At(gss, Key(z, "AE")) == JStr("Y"))
      && w.prewetting == (At(gss, "PW") == JStr("Y"))
      && w.coolerBusy == (At(gss, "BY") == JStr("Y"))
  {
    assert Key(A, "AE") == "ZAAE" && Key(B, "AE") == "ZBAE" && Key(C, "AE") == "ZCAE" && Key(D, "AE") == "ZDAE";
  }

  /** The manual step writes only the fan, the pump and the zone switches. */
  lemma ManualRead(gso: Json, v: EvapView)
    requires ReadManual(gso, v).Ok?
    ensures var w := ReadManual(gso, v).value;
      && w.(fanOn := v.fanOn, fanSpeed := v.fanSpeed, waterPumpOn := v.waterPumpOn, zoneOn := v.zoneOn) == v
      && (w.fanOn <==> At(gso, "FS") == JStr("N"))
      && (w.waterPumpOn <==> At(gso, "PS") == JStr("N"))
      && PyInt(At(gso, "FL")) == Ok(w.fanSpeed)
  {
  }

  lemma ManualZones(gso: Json, v: EvapView, z: ZoneId)
    requires ReadManual(gso, v).Ok?
    ensures ReadManual(gso, v).value.zoneOn.Get(z) <==> At(gso, Key(z, "UE")) == JStr("Y")
  {
    assert Key(A, "UE") == "ZAUE" && Key(B, "UE") == "ZBUE" && Key(C, "UE") == "ZCUE" && Key(D, "UE") == "ZDUE";
  }

  /** The manual and automatic steps leave the mode, the switch and the GSS
      fields alone. */
  lemma ScheduleFrame(gso: Json, op: Json, v: EvapView)
    requires ReadSchedule(gso, op, v).Ok?
    ensures var w := ReadSchedule(gso, op, v).value;
      && w.modes == v.modes && w.evapOn == v.evapOn && w.commonAuto == v.commonAuto && w.zoneAuto == v.zoneAuto
      && w.prewetting == v.prewetting && w.coolerBusy == v.coolerBusy
  {
    if op == JStr("M") {
      ManualRead(gso, v);
    }
  }

  /** SW "N": the system and the unit are on and OP sets the mode. */
  lemma EvapOn(j1: Json, v: EvapView)
    requires DecodeEvap(j1, v).Ok? && Switch(j1) == JStr("N")
    ensures var (out, w) := DecodeEvap(j1, v).value;
      out.systemOn == Some(true) && w.evapOn && w.modes == ApplyOpMode(At(Part(j1, "GSO"), "OP"), v.modes)
  {
    var m := At(j1, "ECOM");
    var gso := At(m, "GSO");
    DecodeSteps(j1, v);
    RunningSteps(m, gso, v);
    var on := v.(modes := ApplyOpMode(At(gso, "OP"), v.modes), evapOn := true);
    ScheduleFrame(gso, At(gso, "OP"), on);
    StatusFrame(m, ReadSchedule(gso, At(gso, "OP"), on).value);
  }

  /** SW "N" with OP "M": the fan runs when FS is "N", the pump when PS is
      "N", the fan speed is int(FL) and zone z is on when Z?UE is "Y". */
  lemma EvapManual(j1: Json, v: EvapView, z: ZoneId)
    requires DecodeEvap(j1, v).Ok? && Switch(j1) == JStr("N") && At(Part(j1, "GSO"), "OP") == JStr("M")
    ensures var w := DecodeEvap(j1, v).value.1;
      var gso := Part(j1, "GSO");
      && (w.fanOn <==> At(gso, "FS") == JStr("N"))
      && (w.waterPumpOn <==> At(gso, "PS") == JStr("N"))
      && PyInt(At(gso, "FL")) == Ok(w.fanSpeed)
      && (w.zoneOn.Get(z) <==> At(gso, Key(z, "UE")) == JStr("Y"))
  {
    var m := At(j1, "ECOM");
    var gso := At(m, "GSO");
    DecodeSteps(j1, v);
    RunningSteps(m, gso, v);
    var on := v.(modes := ApplyOpMode(At(gso, "OP"), v.modes), evapOn := true);
    ManualRead(gso, on);
    ManualZones(gso, on, z);
    StatusFrame(m, ReadManual(gso, on).value);
  }

  /** SW "N" with any other OP: the comfort level is SP (0 when falsy), every
      zone is off and the fan and pump fields keep their values. */
  lemma EvapAuto(j1: Json, v: EvapView, z: ZoneId)
    requires DecodeEvap(j1, v).Ok? && Switch(j1) == JStr("N") && At(Part(j1, "GSO"), "OP") != JStr("M")
    ensures var w := DecodeEvap(j1, v).value.1;
      && w.comfort == Or(At(Part(j1, "GSO"), "SP"), JNum(0))
      && !w.zoneOn.Get(z)
      && w.fanOn == v.fanOn && w.fanSpeed == v.fanSpeed && w.waterPumpOn == v.waterPumpOn
  {
    var m := At(j1, "ECOM");
    var gso := At(m, "GSO");
    DecodeSteps(j1, v);
    RunningSteps(m, gso, v);
    var on := v.(modes := ApplyOpMode(At(gso, "OP"), v.modes), evapOn := true);
    StatusFrame(m, ReadAuto(gso, on).value);
  }

  /** SW "N" with a truthy GSS: the common and per-zone auto flags, PW and BY
      are read from GSS as "Y"/"N" values. */
  lemma EvapStatusFlags(j1: Json, v: EvapView, z: ZoneId)
    requires DecodeEvap(j1, v).Ok? && Switch(j1) == JStr("N") && Truthy(Part(j1, "GSS"))
    ensures var w := DecodeEvap(j1, v).value.1;
      var gss := Part(j1, "GSS");
      && w.commonAuto == (At(gss, "ZUAE") == JStr("Y"))
      && w.zoneAuto.Get(z) == (At(gss, Key(z, "AE")) == JStr("Y"))
      && w.prewetting == (At(gss, "PW") == JStr("Y"))
      && w.coolerBusy == (At(gss, "BY") == JStr("Y"))
  {
    var m := At(j1, "ECOM");
    var gso := At(m, "GSO");
    DecodeSteps(j1, v);
    RunningSteps(m, gso, v);
    var on := v.(modes := ApplyOpMode(At(gso, "OP"), v.modes), evapOn := true);
    StatusRead(m, ReadSchedule(gso, At(gso, "OP"), on).value, z);
  }

  /** SW "F": the system and the unit are off, every zone and zone-auto flag
      is cleared and the mode and fan settings keep their values. */
  lemma EvapOff(j1: Json, v: EvapView, z: ZoneId)
    requires DecodeEvap(j1, v).Ok? && Switch(j1) == JStr("F")
    ensures var (out, w) := DecodeEvap(j1, v).value;
      && out.systemOn == Some(false) && !w.evapOn && !w.zoneOn.Get(z) && !w.commonAuto && !w.zoneAuto.Get(z)
      && w.modes == v.modes && w.fanOn == v.fanOn && w.fanSpeed == v.fanSpeed && w.waterPumpOn == v.waterPumpOn
  {
    DecodeSteps(j1, v);
  }

  /** No GSO, or a switch other than "N" and "F": every field keeps its value
      and systemOn is left alone. */
  lemma EvapUntouched(j1: Json, v: EvapView)
    requires DecodeEvap(j1, v).Ok? && Switch(j1) != JStr("N") && Switch(j1) != JStr("F")
    ensures DecodeEvap(j1, v).value.0.systemOn == None && DecodeEvap(j1, v).value.1 == v
  {
    DecodeSteps(j1, v);
  }

  /** Once the auto and manual flags are exclusive, a decoded message keeps
      them so. */
  lemma EvapModesExclusive(j1: Json, v: EvapView)
    requires DecodeEvap(j1, v).Ok? && !(v.modes.auto && v.modes.manual)
    ensures var w := DecodeEvap(j1, v).value.1; !(w.modes.auto && w.modes.manual)
  {
    DecodeSteps(j1, v);
    if Switch(j1) == JStr("N") {
      EvapOn(j1, v);
    }
  }

  /** The reported installed zones are those of ECOM.CFG. */
  lemma EvapInstalled(j1: Json, v: EvapView)
    requires DecodeEvap(j1, v).Ok?
    ensures DecodeEvap(j1, v).value.0.installed
         == if Truthy(Part(j1, "CFG")) then Installed(Part(j1, "CFG")) else []
  {
    DecodeSteps(j1, v);
  }

  /** The handler raises unless the message's second object is a dict whose
      ECOM is a dict. */
  lemma EvapNeedsObjects(j1: Json, v: EvapView)
    requires !j1.JObj? || !At(j1, "ECOM").JObj?
    ensures DecodeEvap(j1, v).Err?
  {
  }
}
