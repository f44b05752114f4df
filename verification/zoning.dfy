/** Vocabulary shared by the three mode decoders: the four zones A to D,
    the attribute keys built from a zone letter, the installed-zone list
    read from a CFG object, and the auto/manual operating-mode switch. */
module Zoning {
  import opened Py
  import opened Util

  datatype ZoneId = A | B | C | D

  const ZONE_IDS: seq<ZoneId> := [A, B, C, D]

  function Letter(z: ZoneId): string {
    match z
    case A => "A"
    case B => "B"
    case C => "C"
    case D => "D"
  }

  /** The attribute key for zone z, as in "ZAIS", "ZBO" or "ZCUE". */
  function Key(z: ZoneId, suffix: string): string {
    "Z" + Letter(z) + suffix
  }

  /** One value per zone. */
  datatype Zones<T> = Zones(a: T, b: T, c: T, d: T) {
    function Get(z: ZoneId): T {
      match z
      case A => a
      case B => b
      case C => c
      case D => d
    }

    function Set(z: ZoneId, v: T): (r: Zones<T>)
      ensures r.Get(z) == v
      ensures forall y :: y != z ==> r.Get(y) == Get(y)
    {
      match z
      case A => this.(a := v)
      case B => this.(b := v)
      case C => this.(c := v)
      case D => this.(d := v)
    }
  }

  function Uniform<T>(v: T): Zones<T> {
    Zones(v, v, v, v)
  }

  /** Zone z is marked installed in a CFG object: its Z?IS attribute is "Y". */
  predicate IsInstalled(cfg: Json, z: ZoneId) {
    At(cfg, Key(z, "IS")) == JStr("Y")
  }

  function IfInstalled(cfg: Json, z: ZoneId): seq<string> {
    if IsInstalled(cfg, z) then [Letter(z)] else []
  }

  /** The installed-zone letters of a CFG object, A before B before C before D. */
  function Installed(cfg: Json): (r: seq<string>)
    ensures forall x :: x in r <==> exists z :: IsInstalled(cfg, z) && x == Letter(z)
    ensures forall i :: 0 <= i < |r| ==> |r[i]| == 1
    ensures forall i, j :: 0 <= i < j < |r| ==> r[i][0] < r[j][0]
  {
    IfInstalled(cfg, A) + IfInstalled(cfg, B) + IfInstalled(cfg, C) + IfInstalled(cfg, D)
  }

  /** The four `if YNtoBool(GetAttribute(cfg, "Z?IS", None))` appends of a
      decoder's CFG step; raises when cfg is not a dict. */
  function ReadInstalled(cfg: Json): (r: Result<seq<string>>)
    ensures r.Ok? <==> cfg.JObj?
    ensures r.Ok? ==> r.value == Installed(cfg)
  {
    var a :- GetAttribute(cfg, "ZAIS", JNull);
    var b :- GetAttribute(cfg, "ZBIS", JNull);
    var c :- GetAttribute(cfg, "ZCIS", JNull);
    var d :- GetAttribute(cfg, "ZDIS", JNull);
    assert Key(A, "IS") == "ZAIS" && Key(B, "IS") == "ZBIS" && Key(C, "IS") == "ZCIS" && Key(D, "IS") == "ZDIS";
    Ok((if YNtoBool(a) then ["A"] else []) + (if YNtoBool(b) then ["B"] else [])
       + (if YNtoBool(c) then ["C"] else []) + (if YNtoBool(d) then ["D"] else []))
  }

  /** What a mode handler reports besides the fields of its own status
      object: the value it assigns to brivisStatus.systemOn (None when it
      leaves it alone) and the zone letters its CFG step marks installed. */
  datatype Outcome = Outcome(systemOn: Option<bool>, installed: seq<string>)

  /** The installed letters of the CFG object found under a mode object; no
      letters when CFG is falsy. */
  function InstalledUnder(m: Json): (r: Result<seq<string>>)
    ensures r.Ok? <==> m.JObj? && (Truthy(At(m, "CFG")) ==> At(m, "CFG").JObj?)
    ensures r.Ok? ==> r.value == if Truthy(At(m, "CFG")) then Installed(At(m, "CFG")) else []
  {
    var cfg :- GetAttribute(m, "CFG", JNull);
    if Truthy(cfg) then ReadInstalled(cfg) else Ok([])
  }

  /** The auto/manual pair every status class keeps. */
  datatype OpFlags = OpFlags(auto: bool, manual: bool)

  /** SetMode(mode): "A" selects auto, "M" selects manual, anything else
      leaves both flags as they were. */
  function ApplyOpMode(mode: Json, f: OpFlags): (r: OpFlags)
    ensures mode == JStr("A") ==> r.auto && !r.manual
    ensures mode == JStr("M") ==> r.manual && !r.auto
    ensures mode != JStr("A") && mode != JStr("M") ==> r == f
  {
    if mode == JStr("A") then OpFlags(true, false)
    else if mode == JStr("M") then OpFlags(false, true)
    else f
  }

  /** After "A" or "M" the two flags are never both set, and once they are
      exclusive no later mode value makes them overlap. */
  lemma {:induction false} OpModesStayExclusive(modes: seq<Json>, f: OpFlags)
    requires !(f.auto && f.manual)
    ensures !(ApplyAll(modes, f).auto && ApplyAll(modes, f).manual)
  {
    if modes != [] {
      OpModesStayExclusive(modes[1..], ApplyOpMode(modes[0], f));
    }
  }

  function ApplyAll(modes: seq<Json>, f: OpFlags): OpFlags {
    if modes == [] then f else ApplyAll(modes[1..], ApplyOpMode(modes[0], f))
  }
}
