/** The heating-mode half of a status snapshot: the HeaterStatus object and
    HandleHeatingMode, which fills it in from the HGOM object of a status
    message. */
module Heater {
  import opened Py
  import opened Util
  import opened Zoning

  /** The value of every HeaterStatus field the handler writes. */
  datatype HeaterView = HeaterView(
    heaterOn: bool, fanSpeed: int, circulationFanOn: bool, modes: OpFlags, setTemp: int,
    preheating: bool, commonAuto: bool, temperature: Json,
    zoneOn: Zones<bool>, zoneAuto: Zones<bool>, zoneTemp: Zones<Json>, zoneSetTemp: Zones<Json>)

  /** The class defaults: everything off, temperatures at the 999 sentinel. */
  const INITIAL_VIEW := HeaterView(false, 0, false, OpFlags(false, false), 0, false, false, JNum(999),
                                   Uniform(false), Uniform(false), Uniform(JNum(999)), Uniform(JNum(999)))

  class HeaterStatus {
    var heaterOn: bool
    var fanSpeed: int
    var circulationFanOn: bool
    var manualMode: bool
    var autoMode: bool
    var setTemp: int
    var commonAuto: bool
    var temperature: Json
    var preheating: bool
    var zones: seq<string>
    var zoneOn: Zones<bool>
    var zoneAuto: Zones<bool>
    var zoneTemp: Zones<Json>
    var zoneSetTemp: Zones<Json>

    function View(): HeaterView
      reads this
    {
      HeaterView(heaterOn, fanSpeed, circulationFanOn, OpFlags(autoMode, manualMode), setTemp,
                 preheating, commonAuto, temperature, zoneOn, zoneAuto, zoneTemp, zoneSetTemp)
    }

    constructor ()
      ensures View() == INITIAL_VIEW && zones == []
    {
      heaterOn, fanSpeed, circulationFanOn := false, 0, false;
      manualMode, autoMode, setTemp := false, false, 0;
      commonAuto, temperature, preheating := false, JNum(999), false;
      zones := [];
      zoneOn, zoneAuto := Uniform(false), Uniform(false);
      zoneTemp, zoneSetTemp := Uniform(JNum(999)), Uniform(JNum(999));
    }

    /** "A" selects auto, "M" manual, anything else changes nothing. */
    method SetMode(mode: Json)
      modifies this
      ensures View() == old(View()).(modes := ApplyOpMode(mode, old(View()).modes))
      ensures zones == old(zones)
    {
      if mode == JStr("A") {
        autoMode, manualMode := true, false;
      } else if mode == JStr("M") {
        autoMode, manualMode := false, true;
      }
    }

    /** Each zone is on exactly when its UE value is "Y". */
    method SetZones(za: Json, zb: Json, zc: Json, zd: Json)
      modifies this
      ensures View() == old(View()).(zoneOn := Zones(YNtoBool(za), YNtoBool(zb), YNtoBool(zc), YNtoBool(zd)))
      ensures zones == old(zones)
    {
      zoneOn := Zones(YNtoBool(za), YNtoBool(zb), YNtoBool(zc), YNtoBool(zd));
    }

    /** The circulation fan runs exactly when the heater switch reads "Z". */
    method CirculationFanOn(statusStr: Json)
      modifies this
      ensures View() == old(View()).(circulationFanOn := statusStr == JStr("Z"))
      ensures zones == old(zones)
    {
      if statusStr == JStr("Z") {
        circulationFanOn := true;
      } else {
        circulationFanOn := false;
      }
    }
  }

  // ---------------------------------------------------------------- specification

  /** The GSO step, taken only while the heater is on: OP through SetMode,
      SP as an integer; then, when GSS is there, PH as preheating. */
  function ReadSettings(h: Json, v: HeaterView): Result<HeaterView> {
    var gso :- GetAttribute(h, "GSO", JNull);
    if !Truthy(gso) then Ok(v)
    else
      var op :- GetAttribute(gso, "OP", JNull);
      var sp :- GetAttribute(gso, "SP", JNull);
      var t :- PyInt(sp);
      var gss :- GetAttribute(h, "GSS", JNull);
      if !Truthy(gss) then Ok(v.(modes := ApplyOpMode(op, v.modes), setTemp := t))
      else
        var ph :- GetAttribute(gss, "PH", JBool(false));
        Ok(v.(modes := ApplyOpMode(op, v.modes), setTemp := t, preheating := YNtoBool(ph)))
  }

  /** The OOP.ST switch: "N" heater on, "F" off, "Z" circulation fan only;
      the first component is the systemOn assignment. */
  function ReadSwitch(h: Json, oop: Json, v: HeaterView): Result<(Option<bool>, HeaterView)> {
    var st :- GetAttribute(oop, "ST", JNull);
    if st == JStr("N") then
      var fl :- GetAttribute(oop, "FL", JNull);
      var speed :- PyInt(fl);
      var s :- ReadSettings(h, v.(heaterOn := true, circulationFanOn := false, fanSpeed := speed));
      Ok((Some(true), s))
    else if st == JStr("F") then
      Ok((Some(false), v.(heaterOn := false, circulationFanOn := false)))
    else if st == JStr("Z") then
      var fl :- GetAttribute(oop, "FL", JNull);
      var speed :- PyInt(fl);
      Ok((Some(true), v.(heaterOn := false, circulationFanOn := true, fanSpeed := speed)))
    else
      Ok((None, v))
  }

  /** Z?O of one zone: its UE value (None when Z?O is falsy) and its set
      point, 999 when SP is missing; the set point is kept when Z?O is falsy. */
  function ReadZoneOutput(h: Json, z: ZoneId, setTemp: Json): Result<(Json, Json)> {
    var o :- GetAttribute(h, Key(z, "O"), JNull);
    if !Truthy(o) then Ok((JNull, setTemp))
    else
      var ue :- GetAttribute(o, "UE", JNull);
      var sp :- GetAttribute(o, "SP", JNum(999));
      Ok((ue, sp))
  }

  /** A sensor object (Z?S or ZUS): its AE flag and its MT reading, 999 when
      MT is missing; both are kept when the object is falsy. */
  function ReadSensor(h: Json, key: string, auto: bool, temp: Json): Result<(bool, Json)> {
    var s :- GetAttribute(h, key, JNull);
    if !Truthy(s) then Ok((auto, temp))
    else
      var ae :- GetAttribute(s, "AE", JNull);
      var mt :- GetAttribute(s, "MT", JNum(999));
      Ok((YNtoBool(ae), mt))
  }

  /** The four Z?O steps, then SetZones with the UE values read. */
  function ReadOutputs(h: Json, v: HeaterView): Result<HeaterView> {
    var a :- ReadZoneOutput(h, A, v.zoneSetTemp.a);
    var b :- ReadZoneOutput(h, B, v.zoneSetTemp.b);
    var c :- ReadZoneOutput(h, C, v.zoneSetTemp.c);
    var d :- ReadZoneOutput(h, D, v.zoneSetTemp.d);
    Ok(v.(zoneSetTemp := Zones(a.1, b.1, c.1, d.1),
          zoneOn := Zones(YNtoBool(a.0), YNtoBool(b.0), YNtoBool(c.0), YNtoBool(d.0))))
  }

  /** One Z?S step: the zone's auto flag and reading. */
  function ReadZoneSensor(h: Json, z: ZoneId, v: HeaterView): Result<HeaterView> {
    var s :- ReadSensor(h, Key(z, "S"), v.zoneAuto.Get(z), v.zoneTemp.Get(z));
    Ok(v.(zoneAuto := v.zoneAuto.Set(z, s.0), zoneTemp := v.zoneTemp.Set(z, s.1)))
  }

  /** The four Z?S steps and the ZUS step. */
  function ReadSensors(h: Json, v: HeaterView): Result<HeaterView> {
    var a :- ReadZoneSensor(h, A, v);
    var b :- ReadZoneSensor(h, B, a);
    var c :- ReadZoneSensor(h, C, b);
    var d :- ReadZoneSensor(h, D, c);
    var u :- ReadSensor(h, "ZUS", d.commonAuto, d.temperature);
    Ok(d.(commonAuto := u.0, temperature := u.1))
  }

  /** HandleHeatingMode on the message's second object j1, from the field
      values v: the outcome and the new field values, or Err where the code
      raises. */
  function DecodeHeating(j1: Json, v: HeaterView): Result<(Outcome, HeaterView)> {
    var h :- DictGet(j1, "HGOM");
    var installed :- InstalledUnder(h);
    var oop :- GetAttribute(h, "OOP", JNull);
    if !Truthy(oop) then Ok((Outcome(None, installed), v))
    else
      var sw :- ReadSwitch(h, oop, v);
      var o :- ReadOutputs(h, sw.1);
      var z :- ReadSensors(h, o);
      Ok((Outcome(sw.0, installed), z))
  }

  // ---------------------------------------------------------------- the handler

  /** HandleHeatingMode: reads the HGOM object of j1 into hs and reports the
      systemOn assignment and the installed zones. */
  method HandleHeatingMode(j1: Json, hs: HeaterStatus) returns (r: Result<Outcome>)
    modifies hs
    ensures hs.zones == old(hs.zones)
    ensures r.Ok? <==> DecodeHeating(j1, old(hs.View())).Ok?
    ensures r.Ok? ==> (r.value, hs.View()) == DecodeHeating(j1, old(hs.View())).value
  {
    var h :- DictGet(j1, "HGOM");
    var installed :- InstalledUnder(h);
    var oop :- GetAttribute(h, "OOP", JNull);
    if !Truthy(oop) {
      return Ok(Outcome(None, installed));
    }
    var systemOn :- HandleSwitch(h, oop, hs);
    var ok :- HandleOutputs(h, hs);
    ok :- HandleSensors(h, hs);
    r := Ok(Outcome(systemOn, installed));
  }

  /** The OOP.ST branch of HandleHeatingMode. */
  method HandleSwitch(h: Json, oop: Json, hs: HeaterStatus) returns (r: Result<Option<bool>>)
    modifies hs
    ensures hs.zones == old(hs.zones)
    ensures r.Ok? <==> ReadSwitch(h, oop, old(hs.View())).Ok?
    ensures r.Ok? ==> (r.value, hs.View()) == ReadSwitch(h, oop, old(hs.View())).value
  {
    var switch :- GetAttribute(oop, "ST", JNull);
    if switch == JStr("N") {
      hs.heaterOn := true;
      hs.CirculationFanOn(switch);
      var fanSpeed :- GetAttribute(oop, "FL", JNull);
      var speed :- PyInt(fanSpeed);
      hs.fanSpeed := speed;
      var ok :- HandleSettings(h, hs);
      r := Ok(Some(true));
    } else if switch == JStr("F") {
      hs.heaterOn := false;
      hs.CirculationFanOn(switch);
      r := Ok(Some(false));
    } else if switch == JStr("Z") {
      hs.heaterOn := false;
      hs.CirculationFanOn(switch);
      var fanSpeed :- GetAttribute(oop, "FL", JNull);
      var speed :- PyInt(fanSpeed);
      hs.fanSpeed := speed;
      r := Ok(Some(true));
    } else {
      r := Ok(None);
    }
  }

  /** The GSO and GSS blocks, entered while the heater is on. */
  method HandleSettings(h: Json, hs: HeaterStatus) returns (r: Result<bool>)
    modifies hs
    ensures hs.zones == old(hs.zones)
    ensures r.Ok? <==> ReadSettings(h, old(hs.View())).Ok?
    ensures r.Ok? ==> hs.View() == ReadSettings(h, old(hs.View())).value
  {
    var gso :- GetAttribute(h, "GSO", JNull);
    if Truthy(gso) {
      var opMode :- GetAttribute(gso, "OP", JNull);
      hs.SetMode(opMode);
      var setTemp :- GetAttribute(gso, "SP", JNull);
      var t :- PyInt(setTemp);
      hs.setTemp := t;
      var gss :- GetAttribute(h, "GSS", JNull);
      if Truthy(gss) {
        var ph :- GetAttribute(gss, "PH", JBool(false));
        hs.preheating := YNtoBool(ph);
      }
    }
    r := Ok(true);
  }

  /** The four Z?O blocks and the SetZones call. */
  method HandleOutputs(h: Json, hs: HeaterStatus) returns (r: Result<bool>)
    modifies hs
    ensures hs.zones == old(hs.zones)
    ensures r.Ok? <==> ReadOutputs(h, old(hs.View())).Ok?
    ensures r.Ok? ==> hs.View() == ReadOutputs(h, old(hs.View())).value
  {
    var za :- HandleZoneOutput(h, A, hs);
    var zb :- HandleZoneOutput(h, B, hs);
    var zc :- HandleZoneOutput(h, C, hs);
    var zd :- HandleZoneOutput(h, D, hs);
    hs.SetZones(za, zb, zc, zd);
    r := Ok(true);
  }

  /** One Z?O step: the zone's set point is stored and its UE value returned
      for SetZones; without the object UE stays None. */
  method HandleZoneOutput(h: Json, zone: ZoneId, hs: HeaterStatus) returns (r: Result<Json>)
    modifies hs
    ensures hs.zones == old(hs.zones)
    ensures r.Ok? <==> ReadZoneOutput(h, zone, old(hs.zoneSetTemp.Get(zone))).Ok?
    ensures r.Ok? ==> var o := ReadZoneOutput(h, zone, old(hs.zoneSetTemp.Get(zone))).value;
      r.value == o.0 && hs.View() == old(hs.View()).(zoneSetTemp := old(hs.zoneSetTemp).Set(zone, o.1))
  {
    var ue := JNull;
    var z :- GetAttribute(h, Key(zone, "O"), JNull);
    if Truthy(z) {
      ue :- GetAttribute(z, "UE", JNull);
      var sp :- GetAttribute(z, "SP", JNum(999));
      hs.zoneSetTemp := hs.zoneSetTemp.Set(zone, sp);
    }
    r := Ok(ue);
  }

  /** The four Z?S blocks and the ZUS block. */
  method HandleSensors(h: Json, hs: HeaterStatus) returns (r: Result<bool>)
    modifies hs
    ensures hs.zones == old(hs.zones)
    ensures r.Ok? <==> ReadSensors(h, old(hs.View())).Ok?
    ensures r.Ok? ==> hs.View() == ReadSensors(h, old(hs.View())).value
  {
    var ok :- HandleZoneSensor(h, A, hs);
    ok :- HandleZoneSensor(h, B, hs);
    ok :- HandleZoneSensor(h, C, hs);
    ok :- HandleZoneSensor(h, D, hs);
    ok :- HandleCommonSensor(h, hs);
    r := Ok(true);
  }

  /** The ZUS step: the common auto flag and the common reading. */
  method HandleCommonSensor(h: Json, hs: HeaterStatus) returns (r: Result<bool>)
    modifies hs
    ensures hs.zones == old(hs.zones)
    ensures r.Ok? <==> ReadSensor(h, "ZUS", old(hs.commonAuto), old(hs.temperature)).Ok?
    ensures r.Ok? ==> var u := ReadSensor(h, "ZUS", old(hs.commonAuto), old(hs.temperature)).value;
      hs.View() == old(hs.View()).(commonAuto := u.0, temperature := u.1)
  {
    var z :- GetAttribute(h, "ZUS", JNull);
    if Truthy(z) {
      var ae :- GetAttribute(z, "AE", JNull);
      hs.commonAuto := YNtoBool(ae);
      var mt :- GetAttribute(z, "MT", JNum(999));
      hs.temperature := mt;
    }
    r := Ok(true);
  }

  /** One Z?S block: the zone's auto flag from AE, its reading from MT. */
  method HandleZoneSensor(h: Json, zone: ZoneId, hs: HeaterStatus) returns (r: Result<bool>)
    modifies hs
    ensures hs.zones == old(hs.zones)
    ensures r.Ok? <==> ReadZoneSensor(h, zone, old(hs.View())).Ok?
    ensures r.Ok? ==> hs.View() == ReadZoneSensor(h, zone, old(hs.View())).value
  {
    var z :- GetAttribute(h, Key(zone, "S"), JNull);
    if Truthy(z) {
      var ae :- GetAttribute(z, "AE", JNull);
      hs.zoneAuto := hs.zoneAuto.Set(zone, YNtoBool(ae));
      var mt :- GetAttribute(z, "MT", JNum(999));
      hs.zoneTemp := hs.zoneTemp.Set(zone, mt);
    }
    r := Ok(true);
  }

  // ---------------------------------------------------------------- properties

  /** The HGOM sub-object named key, None when absent. */
  function Part(j1: Json, key: string): Json {
    At(At(j1, "HGOM"), key)
  }

  /** The heater switch OOP.ST. */
  function Switch(j1: Json): Json {
    At(Part(j1, "OOP"), "ST")
  }

  /** The zone steps touch only the zone fields and the common sensor. */
  lemma ZoneStepsFrame(h: Json, v: HeaterView)
    ensures ReadOutputs(h, v).Ok? ==>
      ReadOutputs(h, v).value.(zoneOn := v.zoneOn, zoneSetTemp := v.zoneSetTemp) == v
    ensures ReadSensors(h, v).Ok? ==>
      ReadSensors(h, v).value.(zoneAuto := v.zoneAuto, zoneTemp := v.zoneTemp,
                               commonAuto := v.commonAuto, temperature := v.temperature) == v
  {
    OutputsFrame(h, v);
    SensorsFrame(h, v);
  }

  lemma OutputsFrame(h: Json, v: HeaterView)
    ensures ReadOutputs(h, v).Ok? ==>
      ReadOutputs(h, v).value.(zoneOn := v.zoneOn, zoneSetTemp := v.zoneSetTemp) == v
  {
  }

  lemma SensorsFrame(h: Json, v: HeaterView)
    ensures ReadSensors(h, v).Ok? ==>
      ReadSensors(h, v).value.(zoneAuto := v.zoneAuto, zoneTemp := v.zoneTemp,
                               commonAuto := v.commonAuto, temperature := v.temperature) == v
  {
  }

  /** A decoded message has dict HGOM; with a falsy OOP only the installed
      zones are read, otherwise the switch, output and sensor steps all
      succeed and make up the result. */
  lemma DecodeSteps(j1: Json, v: HeaterView)
    requires DecodeHeating(j1, v).Ok?
    ensures j1.JObj? && At(j1, "HGOM").JObj? && InstalledUnder(At(j1, "HGOM")).Ok?
    ensures DecodeHeating(j1, v).value.0.installed == InstalledUnder(At(j1, "HGOM")).value
    ensures !Truthy(Part(j1, "OOP")) ==> DecodeHeating(j1, v).value == (Outcome(None, InstalledUnder(At(j1, "HGOM")).value), v)
    ensures Truthy(Part(j1, "OOP")) ==>
      var sw := ReadSwitch(At(j1, "HGOM"), Part(j1, "OOP"), v);
      && sw.Ok? && ReadOutputs(At(j1, "HGOM"), sw.value.1).Ok?
      && ReadSensors(At(j1, "HGOM"), ReadOutputs(At(j1, "HGOM"), sw.value.1).value).Ok?
      && DecodeHeating(j1, v).value.0.systemOn == sw.value.0
      && DecodeHeating(j1, v).value.1 == ReadSensors(At(j1, "HGOM"), ReadOutputs(At(j1, "HGOM"), sw.value.1).value).value
  {
  }

  /** The settings step touches only the modes, the set point and preheating. */
  lemma SettingsFrame(h: Json, v: HeaterView)
    requires ReadSettings(h, v).Ok?
    ensures ReadSettings(h, v).value.(modes := v.modes, setTemp := v.setTemp, preheating := v.preheating) == v
  {
    var gso := GetAttribute(h, "GSO", JNull).value;
    if Truthy(gso) {
      var gss := GetAttribute(h, "GSS", JNull).value;
      if Truthy(gss) {
      }
    }
  }

  lemma SwitchOn(h: Json, oop: Json, v: HeaterView)
    requires ReadSwitch(h, oop, v).Ok? && At(oop, "ST") == JStr("N")
    ensures var (on, w) := ReadSwitch(h, oop, v).value;
      on == Some(true) && w.heaterOn && !w.circulationFanOn && PyInt(At(oop, "FL")) == Ok(w.fanSpeed)
  {
    var fl := GetAttribute(oop, "FL", JNull).value;
    var speed := PyInt(fl).value;
    SettingsFrame(h, v.(heaterOn := true, circulationFanOn := false, fanSpeed := speed));
  }

  /** ST "N": the system and the heater are on, the circulation fan is off and
      the fan speed is int(OOP.FL). */
  lemma HeaterOn(j1: Json, v: HeaterView)
    requires DecodeHeating(j1, v).Ok? && Switch(j1) == JStr("N")
    ensures var (out, w) := DecodeHeating(j1, v).value;
      out.systemOn == Some(true) && w.heaterOn && !w.circulationFanOn
      && PyInt(At(Part(j1, "OOP"), "FL")) == Ok(w.fanSpeed)
  {
    var h := At(j1, "HGOM");
    var oop := At(h, "OOP");
    DecodeSteps(j1, v);
    SwitchOn(h, oop, v);
    var sw := ReadSwitch(h, oop, v).value;
    ZoneStepsFrame(h, sw.1);
    ZoneStepsFrame(h, ReadOutputs(h, sw.1).value);
  }

  lemma SwitchOthers(h: Json, oop: Json, v: HeaterView)
    requires ReadSwitch(h, oop, v).Ok? && oop.JObj?
    ensures At(oop, "ST") == JStr("F") ==> ReadSwitch(h, oop, v).value == (Some(false), v.(heaterOn := false, circulationFanOn := false))
    ensures At(oop, "ST") == JStr("Z") ==>
      var (on, w) := ReadSwitch(h, oop, v).value;
      on == Some(true) && w == v.(heaterOn := false, circulationFanOn := true, fanSpeed := w.fanSpeed)
      && PyInt(At(oop, "FL")) == Ok(w.fanSpeed)
    ensures At(oop, "ST") !in {JStr("N"), JStr("F"), JStr("Z")} ==> ReadSwitch(h, oop, v).value == (None, v)
  {
  }

  /** ST "F": the system and the heater are off and so is the circulation
      fan; nothing else outside the zone fields changes. */
  lemma HeaterOff(j1: Json, v: HeaterView)
    requires DecodeHeating(j1, v).Ok? && Switch(j1) == JStr("F")
    ensures var (out, w) := DecodeHeating(j1, v).value;
      out.systemOn == Some(false) && !w.heaterOn && !w.circulationFanOn
      && w.fanSpeed == v.fanSpeed && w.modes == v.modes && w.setTemp == v.setTemp && w.preheating == v.preheating
  {
    var h := At(j1, "HGOM");
    var oop := At(h, "OOP");
    DecodeSteps(j1, v);
    SwitchOthers(h, oop, v);
    var sw := ReadSwitch(h, oop, v).value;
    ZoneStepsFrame(h, sw.1);
    ZoneStepsFrame(h, ReadOutputs(h, sw.1).value);
  }

  /** ST "Z": the system is on with the heater off and the circulation fan
      on, at the fan speed int(OOP.FL). */
  lemma HeaterFanOnly(j1: Json, v: HeaterView)
    requires DecodeHeating(j1, v).Ok? && Switch(j1) == JStr("Z")
    ensures var (out, w) := DecodeHeating(j1, v).value;
      out.systemOn == Some(true) && !w.heaterOn && w.circulationFanOn
      && PyInt(At(Part(j1, "OOP"), "FL")) == Ok(w.fanSpeed)
      && w.modes == v.modes && w.setTemp == v.setTemp && w.preheating == v.preheating
  {
    var h := At(j1, "HGOM");
    var oop := At(h, "OOP");
    DecodeSteps(j1, v);
    SwitchOthers(h, oop, v);
    var sw := ReadSwitch(h, oop, v).value;
    ZoneStepsFrame(h, sw.1);
    ZoneStepsFrame(h, ReadOutputs(h, sw.1).value);
  }

  /** Without a usable OOP, or with any other switch value, systemOn is left
      alone and so are the heater fields. */
  lemma HeaterUntouched(j1: Json, v: HeaterView)
    requires DecodeHeating(j1, v).Ok?
    requires !Truthy(Part(j1, "OOP")) || Switch(j1) !in {JStr("N"), JStr("F"), JStr("Z")}
    ensures var (out, w) := DecodeHeating(j1, v).value;
      out.systemOn == None && w.heaterOn == v.heaterOn && w.circulationFanOn == v.circulationFanOn
      && w.fanSpeed == v.fanSpeed && w.modes == v.modes && w.setTemp == v.setTemp && w.preheating == v.preheating
  {
    var h := At(j1, "HGOM");
    var oop := At(h, "OOP");
    DecodeSteps(j1, v);
    if Truthy(oop) {
      SwitchOthers(h, oop, v);
      ZoneStepsFrame(h, v);
      ZoneStepsFrame(h, ReadOutputs(h, v).value);
    }
  }

  lemma SettingsRead(h: Json, v: HeaterView)
    requires ReadSettings(h, v).Ok? && Truthy(At(h, "GSO"))
    ensures var w := ReadSettings(h, v).value;
      && w.modes == ApplyOpMode(At(At(h, "GSO"), "OP"), v.modes)
      && PyInt(At(At(h, "GSO"), "SP")) == Ok(w.setTemp)
      && w.preheating == if Truthy(At(h, "GSS")) then At(At(h, "GSS"), "PH") == JStr("Y") else v.preheating
  {
    var gso := At(h, "GSO");
    var t := PyInt(GetAttribute(gso, "SP", JNull).value).value;
    var m := ApplyOpMode(GetAttribute(gso, "OP", JNull).value, v.modes);
    if Truthy(At(h, "GSS")) {
      var ph := GetAttribute(At(h, "GSS"), "PH", JBool(false)).value;
      assert ReadSettings(h, v) == Ok(v.(modes := m, setTemp := t, preheating := YNtoBool(ph)));
    } else {
      assert ReadSettings(h, v) == Ok(v.(modes := m, setTemp := t));
    }
  }

  /** While the heater is on and GSO is present: OP selects the mode, SP is
      the set point as an integer, and PH of GSS, when GSS is present, is
      the preheating flag. In every other case none of the three changes. */
  lemma HeaterSettings(j1: Json, v: HeaterView)
    requires DecodeHeating(j1, v).Ok?
    ensures var w := DecodeHeating(j1, v).value.1;
      if Truthy(Part(j1, "OOP")) && Switch(j1) == JStr("N") && Truthy(Part(j1, "GSO")) then
        && w.modes == ApplyOpMode(At(Part(j1, "GSO"), "OP"), v.modes)
        && PyInt(At(Part(j1, "GSO"), "SP")) == Ok(w.setTemp)
        && w.preheating == if Truthy(Part(j1, "GSS")) then At(Part(j1, "GSS"), "PH") == JStr("Y") else v.preheating
      else
        w.modes == v.modes && w.setTemp == v.setTemp && w.preheating == v.preheating
  {
    var h := At(j1, "HGOM");
    var oop := At(h, "OOP");
    DecodeSteps(j1, v);
    if Truthy(oop) {
      var sw := ReadSwitch(h, oop, v).value;
      ZoneStepsFrame(h, sw.1);
      ZoneStepsFrame(h, ReadOutputs(h, sw.1).value);
      if At(oop, "ST") == JStr("N") {
        SwitchSettings(h, oop, v);
      } else {
        SwitchOthers(h, oop, v);
      }
    }
  }

  /** ST "N" applies the GSO settings when GSO is present and none otherwise. */
  lemma SwitchSettings(h: Json, oop: Json, v: HeaterView)
    requires ReadSwitch(h, oop, v).Ok? && At(oop, "ST") == JStr("N")
    ensures var w := ReadSwitch(h, oop, v).value.1;
      if Truthy(At(h, "GSO")) then
        && w.modes == ApplyOpMode(At(At(h, "GSO"), "OP"), v.modes)
        && PyInt(At(At(h, "GSO"), "SP")) == Ok(w.setTemp)
        && w.preheating == if Truthy(At(h, "GSS")) then At(At(h, "GSS"), "PH") == JStr("Y") else v.preheating
      else
        w.modes == v.modes && w.setTemp == v.setTemp && w.preheating == v.preheating
  {
    var fl := GetAttribute(oop, "FL", JNull).value;
    var u := v.(heaterOn := true, circulationFanOn := false, fanSpeed := PyInt(fl).value);
    assert ReadSwitch(h, oop, v).value.1 == ReadSettings(h, u).value;
    if Truthy(At(h, "GSO")) {
      SettingsRead(h, u);
    }
  }

  lemma ZoneOutputRead(h: Json, z: ZoneId, setTemp: Json)
    requires ReadZoneOutput(h, z, setTemp).Ok?
    ensures var o := At(h, Key(z, "O"));
      var (ue, sp) := ReadZoneOutput(h, z, setTemp).value;
      && (YNtoBool(ue) <==> At(o, "UE") == JStr("Y"))
      && sp == if Truthy(o) then Or(At(o, "SP"), JNum(999)) else setTemp
  {
  }

  lemma OutputsRead(h: Json, v: HeaterView, z: ZoneId)
    requires ReadOutputs(h, v).Ok?
    ensures var o := At(h, Key(z, "O"));
      && (ReadOutputs(h, v).value.zoneOn.Get(z) <==> At(o, "UE") == JStr("Y"))
      && ReadOutputs(h, v).value.zoneSetTemp.Get(z) == if Truthy(o) then Or(At(o, "SP"), JNum(999)) else v.zoneSetTemp.Get(z)
  {
    match z
    case A => ZoneOutputRead(h, A, v.zoneSetTemp.a);
    case B => ZoneOutputRead(h, B, v.zoneSetTemp.b);
    case C => ZoneOutputRead(h, C, v.zoneSetTemp.c);
    case D => ZoneOutputRead(h, D, v.zoneSetTemp.d);
  }

  /** With OOP present, each zone is on exactly when its Z?O.UE is "Y" (so a
      missing Z?O leaves it off), and its set point is Z?O.SP, or the
      sentinel 999 when Z?O has no SP or a falsy one. */
  lemma HeaterZoneOutputs(j1: Json, v: HeaterView, z: ZoneId)
    requires DecodeHeating(j1, v).Ok? && Truthy(Part(j1, "OOP"))
    ensures var o := Part(j1, Key(z, "O"));
      var w := DecodeHeating(j1, v).value.1;
      && (w.zoneOn.Get(z) <==> At(o, "UE") == JStr("Y"))
      && (!Truthy(o) ==> !w.zoneOn.Get(z) && w.zoneSetTemp.Get(z) == v.zoneSetTemp.Get(z))
      && (Truthy(o) ==> w.zoneSetTemp.Get(z) == Or(At(o, "SP"), JNum(999)))
  {
    var h := At(j1, "HGOM");
    DecodeSteps(j1, v);
    var sw := ReadSwitch(h, At(h, "OOP"), v).value;
    ZoneStepsFrame(h, ReadOutputs(h, sw.1).value);
    OutputsRead(h, sw.1, z);
    SwitchZonesFrame(h, At(h, "OOP"), v);
  }

  /** The switch step leaves the zone set points alone. */
  lemma SwitchZonesFrame(h: Json, oop: Json, v: HeaterView)
    requires ReadSwitch(h, oop, v).Ok?
    ensures ReadSwitch(h, oop, v).value.1.zoneSetTemp == v.zoneSetTemp
    ensures ReadSwitch(h, oop, v).value.1.zoneAuto == v.zoneAuto
    ensures ReadSwitch(h, oop, v).value.1.zoneTemp == v.zoneTemp
    ensures ReadSwitch(h, oop, v).value.1.commonAuto == v.commonAuto
    ensures ReadSwitch(h, oop, v).value.1.temperature == v.temperature
  {
    if At(oop, "ST") == JStr("N") {
      var fl := GetAttribute(oop, "FL", JNull).value;
      SettingsFrame(h, v.(heaterOn := true, circulationFanOn := false, fanSpeed := PyInt(fl).value));
    }
  }

  lemma SensorRead(h: Json, key: string, auto: bool, temp: Json)
    requires ReadSensor(h, key, auto, temp).Ok?
    ensures var o := At(h, key);
      var (ae, mt) := ReadSensor(h, key, auto, temp).value;
      && ae == (if Truthy(o) then At(o, "AE") == JStr("Y") else auto)
      && mt == (if Truthy(o) then Or(At(o, "MT"), JNum(999)) else temp)
  {
  }

  lemma SensorsRead(h: Json, v: HeaterView, z: ZoneId)
    requires ReadSensors(h, v).Ok?
    ensures var o := At(h, Key(z, "S"));
      && ReadSensors(h, v).value.zoneAuto.Get(z) == (if Truthy(o) then At(o, "AE") == JStr("Y") else v.zoneAuto.Get(z))
      && ReadSensors(h, v).value.zoneTemp.Get(z) == (if Truthy(o) then Or(At(o, "MT"), JNum(999)) else v.zoneTemp.Get(z))
    ensures var o := At(h, "ZUS");
      && ReadSensors(h, v).value.commonAuto == (if Truthy(o) then At(o, "AE") == JStr("Y") else v.commonAuto)
      && ReadSensors(h, v).value.temperature == (if Truthy(o) then Or(At(o, "MT"), JNum(999)) else v.temperature)
  {
    var a := ReadZoneSensor(h, A, v).value;
    var b := ReadZoneSensor(h, B, a).value;
    var c := ReadZoneSensor(h, C, b).value;
    var d := ReadZoneSensor(h, D, c).value;
    ZoneSensorRead(h, A, v);
    ZoneSensorRead(h, B, a);
    ZoneSensorRead(h, C, b);
    ZoneSensorRead(h, D, c);
    SensorRead(h, "ZUS", d.commonAuto, d.temperature);
    var w := ReadSensors(h, v).value;
    assert w.zoneAuto == d.zoneAuto && w.zoneTemp == d.zoneTemp;
    match z
    case A =>
      assert d.zoneAuto.Get(A) == a.zoneAuto.Get(A) && d.zoneTemp.Get(A) == a.zoneTemp.Get(A);
    case B =>
      assert d.zoneAuto.Get(B) == b.zoneAuto.Get(B) && d.zoneTemp.Get(B) == b.zoneTemp.Get(B);
    case C =>
      assert d.zoneAuto.Get(C) == c.zoneAuto.Get(C) && d.zoneTemp.Get(C) == c.zoneTemp.Get(C);
    case D =>
  }

  lemma ZoneSensorRead(h: Json, z: ZoneId, v: HeaterView)
    requires ReadZoneSensor(h, z, v).Ok?
    ensures var o := At(h, Key(z, "S"));
      var w := ReadZoneSensor(h, z, v).value;
      && w.zoneAuto.Get(z) == (if Truthy(o) then At(o, "AE") == JStr("Y") else v.zoneAuto.Get(z))
      && w.zoneTemp.Get(z) == (if Truthy(o) then Or(At(o, "MT"), JNum(999)) else v.zoneTemp.Get(z))
      && (forall y :: y != z ==> w.zoneAuto.Get(y) == v.zoneAuto.Get(y) && w.zoneTemp.Get(y) == v.zoneTemp.Get(y))
      && w.commonAuto == v.commonAuto && w.temperature == v.temperature
  {
    SensorRead(h, Key(z, "S"), v.zoneAuto.Get(z), v.zoneTemp.Get(z));
  }

  /** With OOP present, a zone's auto flag is Z?S.AE read as "Y"/"N" and its
      reading is Z?S.MT, or 999 when MT is missing; the common flag and the
      common reading come from ZUS the same way; an absent object leaves
      its fields alone. */
  lemma HeaterSensors(j1: Json, v: HeaterView, z: ZoneId)
    requires DecodeHeating(j1, v).Ok? && Truthy(Part(j1, "OOP"))
    ensures var o := Part(j1, Key(z, "S"));
      var w := DecodeHeating(j1, v).value.1;
      && w.zoneAuto.Get(z) == (if Truthy(o) then At(o, "AE") == JStr("Y") else v.zoneAuto.Get(z))
      && w.zoneTemp.Get(z) == (if Truthy(o) then Or(At(o, "MT"), JNum(999)) else v.zoneTemp.Get(z))
    ensures var u := Part(j1, "ZUS");
      var w := DecodeHeating(j1, v).value.1;
      && w.commonAuto == (if Truthy(u) then At(u, "AE") == JStr("Y") else v.commonAuto)
      && w.temperature == (if Truthy(u) then Or(At(u, "MT"), JNum(999)) else v.temperature)
  {
    var h := At(j1, "HGOM");
    DecodeSteps(j1, v);
    var sw := ReadSwitch(h, At(h, "OOP"), v).value;
    SwitchZonesFrame(h, At(h, "OOP"), v);
    ZoneStepsFrame(h, sw.1);
    SensorsRead(h, ReadOutputs(h, sw.1).value, z);
  }

  /** The letters reported as installed are those whose HGOM.CFG.Z?IS is
      "Y", in the order A to D; none when CFG is missing. */
  lemma HeaterInstalled(j1: Json, v: HeaterView)
    requires DecodeHeating(j1, v).Ok?
    ensures DecodeHeating(j1, v).value.0.installed
         == if Truthy(Part(j1, "CFG")) then Installed(Part(j1, "CFG")) else []
  {
    DecodeSteps(j1, v);
  }

  /** The handler raises unless the message's second object is a dict whose
      HGOM is a dict. */
  lemma HeaterNeedsObjects(j1: Json, v: HeaterView)
    requires !j1.JObj? || !At(j1, "HGOM").JObj?
    ensures DecodeHeating(j1, v).Err?
  {
  }
}
