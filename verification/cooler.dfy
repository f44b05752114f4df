/** The cooling-mode half of a status snapshot: the CoolingStatus object and
    HandleCoolingMode, which fills it in from the CGOM object of a status
    message. */
module Cooler {
  import opened Py
  import opened Util
  import opened Zoning

  /** The value of every CoolingStatus field the handler writes. */
  datatype CoolingView = CoolingView(
    coolingOn: bool, circulationFanOn: bool, modes: OpFlags, setTemp: int, zoneOn: Zones<bool>)

  const INITIAL_VIEW := CoolingView(false, false, OpFlags(false, false), 0, Uniform(false))

  class CoolingStatus {
    var coolingOn: bool
    var circulationFanOn: bool
    var manualMode: bool
    var autoMode: bool
    var setTemp: int
    var zoneOn: Zones<bool>
    var zones: seq<string>

    function View(): CoolingView
      reads this
    {
      CoolingView(coolingOn, circulationFanOn, OpFlags(autoMode, manualMode), setTemp, zoneOn)
    }

    constructor ()
      ensures View() == INITIAL_VIEW && zones == []
    {
      coolingOn, circulationFanOn := false, false;
      manualMode, autoMode, setTemp := false, false, 0;
      zoneOn := Uniform(false);
      zones := [];
    }

    /** "A" selects auto, "M" manual, anything else changes nothing. */
    method SetMode(mode: Json)
      modifies this
      ensures View() == old(View()).(modes := ApplyOpMode(mode, old(View()).modes))
      ensures zones == old(zones)
    {
      if mode == JStr("A") {
        autoMode, manualMode := true, false;
      } else if mode == JStr("M") {
        autoMode, manualMode := false, true;
      }
    }

    /** Each zone is on exactly when its UE value is "Y". */
    method SetZones(za: Json, zb: Json, zc: Json, zd: Json)
      modifies this
      ensures View() == old(View()).(zoneOn := Zones(YNtoBool(za), YNtoBool(zb), YNtoBool(zc), YNtoBool(zd)))
      ensures zones == old(zones)
    {
      zoneOn := Zones(YNtoBool(za), YNtoBool(zb), YNtoBool(zc), YNtoBool(zd));
    }

    /** The circulation fan runs exactly when GSS.FS reads "Y". */
    method CirculationFanOn(statusStr: Json)
      modifies this
      ensures View() == old(View()).(circulationFanOn := statusStr == JStr("Y"))
      ensures zones == old(zones)
    {
      if statusStr == JStr("Y") {
        circulationFanOn := true;
      } else {
        circulationFanOn := false;
      }
    }
  }

  // ---------------------------------------------------------------- specification

  /** The GSO step, taken only while cooling is on: OP through SetMode and SP
      as an integer. */
  function ReadSettings(m: Json, v: CoolingView): Result<CoolingView> {
    var gso :- GetAttribute(m, "GSO", JNull);
    if !Truthy(gso) then Ok(v)
    else
      var op :- GetAttribute(gso, "OP", JNull);
      var sp :- GetAttribute(gso, "SP", JNull);
      var t :- PyInt(sp);
      Ok(v.(modes := ApplyOpMode(op, v.modes), setTemp := t))
  }

  /** The GSS.CC switch: "Y" cooling on, "N" off; the first component is the
      systemOn assignment. */
  function ReadSwitch(m: Json, gss: Json, v: CoolingView): Result<(Option<bool>, CoolingView)> {
    var cc :- GetAttribute(gss, "CC", JNull);
    if cc == JStr("Y") then
      var fs :- GetAttribute(gss, "FS", JNull);
      var s :- ReadSettings(m, v.(coolingOn := true, circulationFanOn := fs == JStr("Y")));
      Ok((Some(true), s))
    else if cc == JStr("N") then
      Ok((Some(false), v.(coolingOn := false)))
    else
      Ok((None, v))
  }

  /** Z?O.UE of one zone, None when Z?O is falsy. */
  function ReadZoneUse(m: Json, z: ZoneId): Result<Json> {
    var o :- GetAttribute(m, Key(z, "O"), JNull);
    if !Truthy(o) then Ok(JNull) else GetAttribute(o, "UE", JNull)
  }

  /** The four Z?O steps, then SetZones with the UE values read. */
  function ReadZones(m: Json, v: CoolingView): Result<CoolingView> {
    var a :- ReadZoneUse(m, A);
    var b :- ReadZoneUse(m, B);
    var c :- ReadZoneUse(m, C);
    var d :- ReadZoneUse(m, D);
    Ok(v.(zoneOn := Zones(YNtoBool(a), YNtoBool(b), YNtoBool(c), YNtoBool(d))))
  }

  /** HandleCoolingMode on the message's second object j1, from the field
      values v: the outcome and the new field values, or Err where the code
      raises. */
  function DecodeCooling(j1: Json, v: CoolingView): Result<(Outcome, CoolingView)> {
    var m :- DictGet(j1, "CGOM");
    var installed :- InstalledUnder(m);
    var gss :- GetAttribute(m, "GSS", JNull);
    if !Truthy(gss) then Ok((Outcome(None, installed), v))
    else
      var sw :- ReadSwitch(m, gss, v);
      var z :- ReadZones(m, sw.1);
      Ok((Outcome(sw.0, installed), z))
  }

  // ---------------------------------------------------------------- the handler

  /** HandleCoolingMode: reads the CGOM object of j1 into cs and reports the
      systemOn assignment and the installed zones. */
  method HandleCoolingMode(j1: Json, cs: CoolingStatus) returns (r: Result<Outcome>)
    modifies cs
    ensures cs.zones == old(cs.zones)
    ensures r.Ok? <==> DecodeCooling(j1, old(cs.View())).Ok?
    ensures r.Ok? ==> (r.value, cs.View()) == DecodeCooling(j1, old(cs.View())).value
  {
    var m :- DictGet(j1, "CGOM");
    var installed :- InstalledUnder(m);
    var gss :- GetAttribute(m, "GSS", JNull);
    if !Truthy(gss) {
      return Ok(Outcome(None, installed));
    }
    var systemOn :- HandleSwitch(m, gss, cs);
    var ok :- HandleZones(m, cs);
    r := Ok(Outcome(systemOn, installed));
  }

  /** The GSS.CC branch of HandleCoolingMode. */
  method HandleSwitch(m: Json, gss: Json, cs: CoolingStatus) returns (r: Result<Option<bool>>)
    modifies cs
    ensures cs.zones == old(cs.zones)
    ensures r.Ok? <==> ReadSwitch(m, gss, old(cs.View())).Ok?
    ensures r.Ok? ==> (r.value, cs.View()) == ReadSwitch(m, gss, old(cs.View())).value
  {
    var switch :- GetAttribute(gss, "CC", JNull);
    if switch == JStr("Y") {
      cs.coolingOn := true;
      var circFan :- GetAttribute(gss, "FS", JNull);
      cs.CirculationFanOn(circFan);
      var gso :- GetAttribute(m, "GSO", JNull);
      if Truthy(gso) {
        var opMode :- GetAttribute(gso, "OP", JNull);
        cs.SetMode(opMode);
        var setTemp :- GetAttribute(gso, "SP", JNull);
        var t :- PyInt(setTemp);
        cs.setTemp := t;
      }
      r := Ok(Some(true));
    } else if switch == JStr("N") {
      cs.coolingOn := false;
      r := Ok(Some(false));
    } else {
      r := Ok(None);
    }
  }

  /** The four Z?O blocks and the SetZones call. */
  method HandleZones(m: Json, cs: CoolingStatus) returns (r: Result<bool>)
    modifies cs
    ensures cs.zones == old(cs.zones)
    ensures r.Ok? <==> ReadZones(m, old(cs.View())).Ok?
    ensures r.Ok? ==> cs.View() == ReadZones(m, old(cs.View())).value
  {
    assert Key(A, "O") == "ZAO" && Key(B, "O") == "ZBO" && Key(C, "O") == "ZCO" && Key(D, "O") == "ZDO";
    var za, zb, zc, zd := JNull, JNull, JNull, JNull;
    var z :- GetAttribute(m, "ZAO", JNull);
    if Truthy(z) {
      za :- GetAttribute(z, "UE", JNull);
    }
    z :- GetAttribute(m, "ZBO", JNull);
    if Truthy(z) {
      zb :- GetAttribute(z, "UE", JNull);
    }
    z :- GetAttribute(m, "ZCO", JNull);
    if Truthy(z) {
      zc :- GetAttribute(z, "UE", JNull);
    }
    z :- GetAttribute(m, "ZDO", JNull);
    if Truthy(z) {
      zd :- GetAttribute(z, "UE", JNull);
    }
    cs.SetZones(za, zb, zc, zd);
    r := Ok(true);
  }

  // ---------------------------------------------------------------- properties

  /** The CGOM sub-object named key, None when absent. */
  function Part(j1: Json, key: string): Json {
    At(At(j1, "CGOM"), key)
  }

  /** A decoded message has dict CGOM; with a falsy GSS only the installed
      zones are read, otherwise the switch and zone steps both succeed and
      make up the result. */
  lemma DecodeSteps(j1: Json, v: CoolingView)
    requires DecodeCooling(j1, v).Ok?
    ensures j1.JObj? && At(j1, "CGOM").JObj? && InstalledUnder(At(j1, "CGOM")).Ok?
    ensures DecodeCooling(j1, v).value.0.installed == InstalledUnder(At(j1, "CGOM")).value
    ensures !Truthy(Part(j1, "GSS")) ==> DecodeCooling(j1, v).value == (Outcome(None, InstalledUnder(At(j1, "CGOM")).value), v)
    ensures Truthy(Part(j1, "GSS")) ==>
      var sw := ReadSwitch(At(j1, "CGOM"), Part(j1, "GSS"), v);
      && sw.Ok? && ReadZones(At(j1, "CGOM"), sw.value.1).Ok?
      && DecodeCooling(j1, v).value.0.systemOn == sw.value.0
      && DecodeCooling(j1, v).value.1 == ReadZones(At(j1, "CGOM"), sw.value.1).value
  {
  }

  lemma SwitchRead(m: Json, gss: Json, v: CoolingView)
    requires ReadSwitch(m, gss, v).Ok? && gss.JObj?
    ensures var (on, w) := ReadSwitch(m, gss, v).value;
      && (At(gss, "CC") == JStr("Y") ==>
            on == Some(true) && w.coolingOn && (w.circulationFanOn <==> At(gss, "FS") == JStr("Y")))
      && (At(gss, "CC") == JStr("N") ==> on == Some(false) && w == v.(coolingOn := false))
      && (At(gss, "CC") != JStr("Y") && At(gss, "CC") != JStr("N") ==> on == None && w == v)
  {
  }

  /** GSS.CC "Y": the system and cooling are on, and the circulation fan runs
      exactly when GSS.FS is "Y". */
  lemma CoolingOn(j1: Json, v: CoolingView)
    requires DecodeCooling(j1, v).Ok? && At(Part(j1, "GSS"), "CC") == JStr("Y")
    ensures var (out, w) := DecodeCooling(j1, v).value;
      out.systemOn == Some(true) && w.coolingOn && (w.circulationFanOn <==> At(Part(j1, "GSS"), "FS") == JStr("Y"))
  {
    DecodeSteps(j1, v);
    SwitchRead(At(j1, "CGOM"), Part(j1, "GSS"), v);
  }

  /** GSS.CC "N": the system and cooling are off; the fan, the modes and the
      set point keep their values. */
  lemma CoolingOff(j1: Json, v: CoolingView)
    requires DecodeCooling(j1, v).Ok? && At(Part(j1, "GSS"), "CC") == JStr("N")
    ensures var (out, w) := DecodeCooling(j1, v).value;
      out.systemOn == Some(false) && !w.coolingOn
      && w.circulationFanOn == v.circulationFanOn && w.modes == v.modes && w.setTemp == v.setTemp
  {
    DecodeSteps(j1, v);
    SwitchRead(At(j1, "CGOM"), Part(j1, "GSS"), v);
  }

  /** While cooling is on and GSO is present, OP selects the mode and SP is
      the set point as an integer; otherwise neither changes. */
  lemma CoolingSettings(j1: Json, v: CoolingView)
    requires DecodeCooling(j1, v).Ok?
    ensures var w := DecodeCooling(j1, v).value.1;
      if At(Part(j1, "GSS"), "CC") == JStr("Y") && Truthy(Part(j1, "GSO")) then
        w.modes == ApplyOpMode(At(Part(j1, "GSO"), "OP"), v.modes) && PyInt(At(Part(j1, "GSO"), "SP")) == Ok(w.setTemp)
      else
        w.modes == v.modes && w.setTemp == v.setTemp
  {
    var m := At(j1, "CGOM");
    var gss := At(m, "GSS");
    DecodeSteps(j1, v);
    if Truthy(gss) {
      SwitchRead(m, gss, v);
      if At(gss, "CC") == JStr("Y") {
        var fs := GetAttribute(gss, "FS", JNull).value;
        var u := v.(coolingOn := true, circulationFanOn := fs == JStr("Y"));
        assert ReadSwitch(m, gss, v).value.1 == ReadSettings(m, u).value;
      }
    }
  }

  lemma ZonesRead(m: Json, v: CoolingView, z: ZoneId)
    requires ReadZones(m, v).Ok?
    ensures ReadZones(m, v).value.zoneOn.Get(z) <==> At(At(m, Key(z, "O")), "UE") == JStr("Y")
    ensures ReadZones(m, v).value.(zoneOn := v.zoneOn) == v
  {
  }

  /** With GSS present, each zone is on exactly when its Z?O.UE is "Y", so a
      missing Z?O leaves it off. */
  lemma CoolingZones(j1: Json, v: CoolingView, z: ZoneId)
    requires DecodeCooling(j1, v).Ok? && Truthy(Part(j1, "GSS"))
    ensures DecodeCooling(j1, v).value.1.zoneOn.Get(z) <==> At(Part(j1, Key(z, "O")), "UE") == JStr("Y")
    ensures !Truthy(Part(j1, Key(z, "O"))) ==> !DecodeCooling(j1, v).value.1.zoneOn.Get(z)
  {
    var m := At(j1, "CGOM");
    DecodeSteps(j1, v);
    ZonesRead(m, ReadSwitch(m, At(m, "GSS"), v).value.1, z);
  }

  /** The letters reported as installed are those whose CGOM.CFG.Z?IS is
      "Y", in the order A to D; none when CFG is missing. */
  lemma CoolingInstalled(j1: Json, v: CoolingView)
    requires DecodeCooling(j1, v).Ok?
    ensures DecodeCooling(j1, v).value.0.installed
         == if Truthy(Part(j1, "CFG")) then Installed(Part(j1, "CFG")) else []
  {
    DecodeSteps(j1, v);
  }
}
