/** The command catalog: every command the library can send is a JSON object
    three levels deep, `{"<target>": {"<group>": {"<field>": "<value>" } } }`,
    where the target names the subsystem (SYST, HGOM, CGOM or ECOM). Some
    constants are written as ready JSON text, others as str.format templates
    with doubled braces and named placeholders such as {temp} or {zone}.
    Here each constant is built from its parts, its source text and its
    meaning are computed from those parts, and the four legality lists and
    the mode-gated validator are defined over them. */
module Commands {
  import opened Py

  /** A part of a key or value: literal text, or a named placeholder. */
  datatype Piece = Lit(s: string) | Hole(name: string)

  /** Plain: the constant is the JSON text itself.
      Template: the constant is a str.format template with doubled braces. */
  datatype Style = Plain | Template

  datatype Command = Command(style: Style, target: string, group: seq<Piece>, field: string, value: seq<Piece>)

  function PieceTokens(ps: seq<Piece>): (ts: seq<Token>)
    ensures |ts| == |ps|
  {
    if ps == [] then []
    else [match ps[0] case Lit(s) => Chars(s) case Hole(name) => Field(name)] + PieceTokens(ps[1..])
  }

  function Opening(target: string): seq<Token> {
    [OpenBrace, Chars("\"" + target + "\": "), OpenBrace, Chars("\"")]
  }

  function Middle(field: string): seq<Token> {
    [Chars("\": "), OpenBrace, Chars("\"" + field + "\": \"")]
  }

  const CLOSING: seq<Token> := [Chars("\" "), CloseBrace, Chars(" "), CloseBrace, Chars(" "), CloseBrace]

  /** The constant read as a template: braces, fixed text, group pieces,
      fixed text, value pieces, closing braces. */
  function Tokens(c: Command): seq<Token> {
    Opening(c.target) + (PieceTokens(c.group) + (Middle(c.field) + (PieceTokens(c.value) + CLOSING)))
  }

  /** Text of tokens written with single braces, as a ready JSON constant is. */
  function PlainText(ts: seq<Token>): string {
    if ts == [] then ""
    else
      var head := match ts[0]
        case Chars(s) => s
        case OpenBrace => "{"
        case CloseBrace => "}"
        case Field(name) => "{" + name + "}";
      head + PlainText(ts[1..])
  }

  /** The constant's text as it stands in the catalog. */
  function Source(c: Command): string {
    if c.style == Template then Spell(Tokens(c)) else PlainText(Tokens(c))
  }

  /** Pieces with their placeholders filled in; Err when one has no value. */
  function Fill(ps: seq<Piece>, args: map<string, string>): Result<string> {
    Expand(PieceTokens(ps), args)
  }

  /** The JSON text the command stands for once its placeholders are filled. */
  function Payload(c: Command, args: map<string, string>): Result<string> {
    Expand(Tokens(c), args)
  }

  /** The shape every command has on the wire. */
  function Render(target: string, group: string, field: string, value: string): string {
    "{\"" + target + "\": {\"" + group + "\": {\"" + field + "\": \"" + value + "\" } } }"
  }

  predicate PieceWellFormed(p: Piece) {
    match p
    case Lit(s) => NoBraces(s)
    case Hole(name) => NoBraces(name)
  }

  /** No brace inside a name or a literal piece. */
  predicate WellFormed(c: Command) {
    NoBraces(c.target) && NoBraces(c.field)
    && (forall i :: 0 <= i < |c.group| ==> PieceWellFormed(c.group[i]))
    && (forall i :: 0 <= i < |c.value| ==> PieceWellFormed(c.value[i]))
  }

  predicate NoHoles(c: Command) {
    (forall i :: 0 <= i < |c.group| ==> c.group[i].Lit?)
    && (forall i :: 0 <= i < |c.value| ==> c.value[i].Lit?)
  }

  /** The placeholder names of a sequence of pieces. */
  function HoleNames(ps: seq<Piece>): set<string> {
    if ps == [] then {} else (if ps[0].Hole? then {ps[0].name} else {}) + HoleNames(ps[1..])
  }

  lemma {:induction false} FillDefined(ps: seq<Piece>, args: map<string, string>)
    ensures Fill(ps, args).Ok? <==> HoleNames(ps) <= args.Keys
  {
    if ps != [] {
      FillDefined(ps[1..], args);
    }
  }

  lemma {:induction false} PieceTokensWellFormed(ps: seq<Piece>)
    requires forall i :: 0 <= i < |ps| ==> PieceWellFormed(ps[i])
    ensures WellFormedTokens(PieceTokens(ps))
  {
    if ps != [] {
      PieceTokensWellFormed(ps[1..]);
      var ts := PieceTokens(ps);
      forall i | 0 <= i < |ts|
        ensures match ts[i] case Chars(s) => NoBraces(s) case Field(name) => NoBraces(name) case _ => true
      {
        if i > 0 { assert ts[i] == PieceTokens(ps[1..])[i - 1]; }
      }
    }
  }

  lemma {:induction false} PlainTextIsExpansion(ts: seq<Token>, args: map<string, string>)
    requires forall i :: 0 <= i < |ts| ==> !ts[i].Field?
    ensures Expand(ts, args) == Ok(PlainText(ts))
  {
    if ts != [] {
      PlainTextIsExpansion(ts[1..], args);
    }
  }

  lemma {:induction false} NoHoleTokens(ps: seq<Piece>)
    requires forall i :: 0 <= i < |ps| ==> ps[i].Lit?
    ensures forall i :: 0 <= i < |PieceTokens(ps)| ==> !PieceTokens(ps)[i].Field?
  {
    if ps != [] {
      NoHoleTokens(ps[1..]);
      var ts := PieceTokens(ps);
      forall i | 0 <= i < |ts| ensures !ts[i].Field? {
        if i > 0 { assert ts[i] == PieceTokens(ps[1..])[i - 1]; }
      }
    }
  }

  lemma ExpandOpening(target: string, args: map<string, string>)
    ensures Expand(Opening(target), args) == Ok("{\"" + target + "\": {\"")
  {
    var ts := Opening(target);
    assert ts[3..][1..] == [];
    assert Expand(ts[3..], args) == Prepend("\"", Expand(ts[3..][1..], args));
    assert "\"" + "" == "\"";
    assert ts[2..][1..] == ts[3..];
    assert Expand(ts[2..], args) == Prepend("{", Expand(ts[3..], args));
    assert "{" + "\"" == "{\"";
    assert ts[1..][1..] == ts[2..];
    assert Expand(ts[1..], args) == Prepend("\"" + target + "\": ", Expand(ts[2..], args));
    assert Expand(ts, args) == Prepend("{", Expand(ts[1..], args));
    assert "{" + ("\"" + target + "\": " + "{\"") == "{\"" + target + "\": {\"";
  }

  lemma ExpandMiddle(field: string, args: map<string, string>)
    ensures Expand(Middle(field), args) == Ok("\": {\"" + field + "\": \"")
  {
    var ts := Middle(field);
    var f := "\"" + field + "\": \"";
    assert ts[2..][1..] == [];
    assert Expand(ts[2..], args) == Prepend(f, Expand(ts[2..][1..], args));
    assert f + "" == f;
    assert ts[1..][1..] == ts[2..];
    assert Expand(ts[1..], args) == Prepend("{", Expand(ts[2..], args));
    assert Expand(ts, args) == Prepend("\": ", Expand(ts[1..], args));
    assert "\": " + ("{" + f) == "\": {\"" + field + "\": \"";
  }

  lemma ExpandClosing(args: map<string, string>)
    ensures Expand(CLOSING, args) == Ok("\" } } }")
  {
    var ts := CLOSING;
    assert ts[5..][1..] == [];
    assert Expand(ts[5..], args) == Prepend("}", Expand(ts[5..][1..], args));
    assert "}" + "" == "}";
    assert ts[4..][1..] == ts[5..];
    assert Expand(ts[4..], args) == Prepend(" ", Expand(ts[5..], args));
    assert ts[3..][1..] == ts[4..];
    assert Expand(ts[3..], args) == Prepend("}", Expand(ts[4..], args));
    assert ts[2..][1..] == ts[3..];
    assert Expand(ts[2..], args) == Prepend(" ", Expand(ts[3..], args));
    assert ts[1..][1..] == ts[2..];
    assert Expand(ts[1..], args) == Prepend("}", Expand(ts[2..], args));
    assert Expand(ts, args) == Prepend("\" ", Expand(ts[1..], args));
    assert "\" " + ("}" + (" " + ("}" + (" " + "}")))) == "\" } } }";
  }

  lemma RenderParts(t: string, g: string, f: string, v: string)
    ensures Render(t, g, f, v) == "{\"" + t + "\": {\"" + (g + ("\": {\"" + f + "\": \"" + (v + "\" } } }")))
  {
  }

  /** Every command means the three-level JSON object of its parts: the
      expansion succeeds exactly when every placeholder has a value. */
  lemma PayloadRendered(c: Command, args: map<string, string>)
    ensures Payload(c, args).Ok? <==> Fill(c.group, args).Ok? && Fill(c.value, args).Ok?
    ensures Payload(c, args).Ok? <==> HoleNames(c.group) <= args.Keys && HoleNames(c.value) <= args.Keys
    ensures Payload(c, args).Ok? ==>
      Payload(c, args).value == Render(c.target, Fill(c.group, args).value, c.field, Fill(c.value, args).value)
  {
    var p1 := Opening(c.target);
    var g := PieceTokens(c.group);
    var p2 := Middle(c.field);
    var v := PieceTokens(c.value);
    var e3 := Expand(CLOSING, args);
    var ev := Expand(v + CLOSING, args);
    var e2 := Expand(p2 + (v + CLOSING), args);
    var eg := Expand(g + (p2 + (v + CLOSING)), args);
    ExpandClosing(args);
    ExpandMiddle(c.field, args);
    ExpandOpening(c.target, args);
    ExpandAppend(v, CLOSING, args);
    assert ev == Concat(Fill(c.value, args), e3);
    ExpandAppend(p2, v + CLOSING, args);
    assert e2 == Concat(Expand(p2, args), ev);
    ExpandAppend(g, p2 + (v + CLOSING), args);
    assert eg == Concat(Fill(c.group, args), e2);
    ExpandAppend(p1, g + (p2 + (v + CLOSING)), args);
    assert Payload(c, args) == Concat(Expand(p1, args), eg);
    FillDefined(c.group, args);
    FillDefined(c.value, args);
    if Fill(c.group, args).Ok? && Fill(c.value, args).Ok? {
      RenderParts(c.target, Fill(c.group, args).value, c.field, Fill(c.value, args).value);
    }
  }

  /** A template constant, passed through str.format, becomes its payload. */
  lemma FormatTemplate(c: Command, args: map<string, string>)
    requires c.style == Template && WellFormed(c)
    ensures Format(Source(c), args) == Payload(c, args)
  {
    PieceTokensWellFormed(c.group);
    PieceTokensWellFormed(c.value);
    var ts := Tokens(c);
    var g := PieceTokens(c.group);
    var v := PieceTokens(c.value);
    var n := |g|;
    var m := |v|;
    forall i | 0 <= i < |ts|
      ensures match ts[i] case Chars(s) => NoBraces(s) case Field(name) => NoBraces(name) case _ => true
    {
      if 4 <= i < 4 + n {
        assert ts[i] == g[i - 4];
      } else if 4 + n + 3 <= i < 4 + n + 3 + m {
        assert ts[i] == v[i - (4 + n + 3)];
      }
    }
    FormatSpell(ts, args);
  }

  /** A ready constant without placeholders is its own payload. */
  lemma PlainSource(c: Command, args: map<string, string>)
    requires c.style == Plain && NoHoles(c)
    ensures Payload(c, args) == Ok(Source(c))
  {
    NoHoleTokens(c.group);
    NoHoleTokens(c.value);
    var ts := Tokens(c);
    var g := PieceTokens(c.group);
    var v := PieceTokens(c.value);
    var n := |g|;
    var m := |v|;
    forall i | 0 <= i < |ts| ensures !ts[i].Field? {
      if 4 <= i < 4 + n {
        assert ts[i] == g[i - 4];
      } else if 4 + n + 3 <= i < 4 + n + 3 + m {
        assert ts[i] == v[i - (4 + n + 3)];
      }
    }
    PlainTextIsExpansion(ts, args);
  }

  // ---------------------------------------------------------------- the catalog

  function Ready(target: string, group: string, field: string, value: string): Command {
    Command(Plain, target, [Lit(group)], field, [Lit(value)])
  }

  function Templated(target: string, group: seq<Piece>, field: string, value: seq<Piece>): Command {
    Command(Template, target, group, field, value)
  }

  /** The key Z{zone}O of a zone switch. */
  const ZONE_GROUP: seq<Piece> := [Lit("Z"), Hole("zone"), Lit("O")]

  // Operating mode
  const MODE_COOL_CMD := Ready("SYST", "OSS", "MD", "C")
  const MODE_EVAP_CMD := Ready("SYST", "OSS", "MD", "E")
  const MODE_HEAT_CMD := Ready("SYST", "OSS", "MD", "H")

  // Heating
  const HEAT_ON_CMD := Ready("HGOM", "OOP", "ST", "N")
  const HEAT_OFF_CMD := Ready("HGOM", "OOP", "ST", "F")
  const HEAT_CIRC_FAN_ON := Ready("HGOM", "OOP", "ST", "Z")
  const HEAT_SET_TEMP := Templated("HGOM", [Lit("GSO")], "SP", [Hole("temp")])
  const HEAT_SET_MANUAL := Templated("HGOM", [Lit("GSO")], "OP", [Lit("M")])
  const HEAT_SET_AUTO := Templated("HGOM", [Lit("GSO")], "OP", [Lit("A")])
  const HEAT_ZONE_ON := Templated("HGOM", ZONE_GROUP, "UE", [Lit("Y")])
  const HEAT_ZONE_OFF := Templated("HGOM", ZONE_GROUP, "UE", [Lit("N")])

  const HEAT_COMMANDS: seq<Command> :=
    [HEAT_ON_CMD, HEAT_OFF_CMD, HEAT_SET_TEMP, HEAT_CIRC_FAN_ON, HEAT_ZONE_ON, HEAT_ZONE_OFF, HEAT_SET_MANUAL, HEAT_SET_AUTO]

  // Cooling
  const COOL_ON_CMD := Ready("CGOM", "OOP", "ST", "N")
  const COOL_OFF_CMD := Ready("CGOM", "OOP", "ST", "F")
  const COOL_CIRC_FAN_ON := Ready("CGOM", "OOP", "ST", "Z")
  const COOL_SET_TEMP := Templated("CGOM", [Lit("GSO")], "SP", [Hole("temp")])
  const COOL_SET_MANUAL := Templated("CGOM", [Lit("GSO")], "OP", [Lit("M")])
  const COOL_SET_AUTO := Templated("CGOM", [Lit("GSO")], "OP", [Lit("A")])
  const COOL_ZONE_ON := Templated("CGOM", ZONE_GROUP, "UE", [Lit("Y")])
  const COOL_ZONE_OFF := Templated("CGOM", ZONE_GROUP, "UE", [Lit("N")])

  const COOL_COMMANDS: seq<Command> :=
    [COOL_ON_CMD, COOL_OFF_CMD, COOL_SET_TEMP, COOL_CIRC_FAN_ON, COOL_ZONE_ON, COOL_ZONE_OFF, COOL_SET_MANUAL, COOL_SET_AUTO]

  // Evaporative cooling
  const EVAP_ON_CMD := Ready("ECOM", "GSO", "SW", "N")
  const EVAP_OFF_CMD := Ready("ECOM", "GSO", "SW", "F")
  const EVAP_PUMP_ON := Ready("ECOM", "GSO", "PS", "N")
  const EVAP_PUMP_OFF := Ready("ECOM", "GSO", "PS", "F")
  const EVAP_FAN_ON := Ready("ECOM", "GSO", "FS", "N")
  const EVAP_FAN_OFF := Ready("ECOM", "GSO", "FS", "F")
  const EVAP_FAN_SPEED := Templated("ECOM", [Lit("GSO")], "FL", [Hole("speed")])
  const EVAP_SET_MANUAL := Templated("ECOM", [Lit("GSO")], "OP", [Lit("M")])
  const EVAP_SET_AUTO := Templated("ECOM", [Lit("GSO")], "OP", [Lit("A")])
  const EVAP_SET_COMFORT := Templated("ECOM", [Lit("GSO")], "SP", [Hole("comfort")])

  const EVAP_COMMANDS: seq<Command> :=
    [EVAP_ON_CMD, EVAP_OFF_CMD, EVAP_PUMP_ON, EVAP_PUMP_OFF, EVAP_FAN_ON, EVAP_FAN_OFF,
     EVAP_FAN_SPEED, EVAP_SET_MANUAL, EVAP_SET_AUTO, EVAP_SET_COMFORT]

  const MODE_COMMANDS: seq<Command> :=
    [MODE_COOL_CMD, MODE_EVAP_CMD, MODE_HEAT_CMD, HEAT_ON_CMD, COOL_ON_CMD, EVAP_ON_CMD,
     HEAT_SET_AUTO, HEAT_SET_MANUAL, COOL_SET_AUTO, COOL_SET_MANUAL, EVAP_SET_AUTO, EVAP_SET_MANUAL]

  /** Every constant of the catalog. */
  const CATALOG: seq<Command> := [MODE_COOL_CMD, MODE_EVAP_CMD, MODE_HEAT_CMD] + HEAT_COMMANDS + COOL_COMMANDS + EVAP_COMMANDS

  // ---------------------------------------------------------------- the validator

  /** RinnaiSystem.validateCmd: a mode command is always allowed; any other
      command only while its subsystem's mode flag is set. */
  function ValidateCmd(cmd: Command, heaterMode: bool, coolingMode: bool, evapMode: bool): bool {
    if cmd in MODE_COMMANDS then true
    else if cmd in HEAT_COMMANDS && heaterMode then true
    else if cmd in COOL_COMMANDS && coolingMode then true
    else if cmd in EVAP_COMMANDS && evapMode then true
    else false
  }

  // ---------------------------------------------------------------- properties

  lemma FillLit(s: string, args: map<string, string>)
    ensures Fill([Lit(s)], args) == Ok(s)
  {
    var ts := PieceTokens([Lit(s)]);
    assert ts == [Chars(s)];
    assert ts[1..] == [];
    assert Expand(ts, args) == Prepend(s, Expand(ts[1..], args));
    assert s + "" == s;
  }

  /** A ready constant is, as text, the JSON object of its four parts. */
  lemma ReadyText(t: string, g: string, f: string, v: string, args: map<string, string>)
    ensures Payload(Ready(t, g, f, v), args) == Ok(Render(t, g, f, v))
    ensures Source(Ready(t, g, f, v)) == Render(t, g, f, v)
  {
    var c := Ready(t, g, f, v);
    FillLit(g, args);
    FillLit(v, args);
    PayloadRendered(c, args);
    PlainSource(c, args);
  }

  /** The three mode switches set SYST.OSS.MD to C, E and H and differ. */
  lemma ModeSwitches()
    ensures Source(MODE_COOL_CMD) == Render("SYST", "OSS", "MD", "C")
    ensures Source(MODE_EVAP_CMD) == Render("SYST", "OSS", "MD", "E")
    ensures Source(MODE_HEAT_CMD) == Render("SYST", "OSS", "MD", "H")
    ensures Source(MODE_COOL_CMD) != Source(MODE_EVAP_CMD) && Source(MODE_EVAP_CMD) != Source(MODE_HEAT_CMD)
         && Source(MODE_COOL_CMD) != Source(MODE_HEAT_CMD)
  {
    ReadyText("SYST", "OSS", "MD", "C", map[]);
    ReadyText("SYST", "OSS", "MD", "E", map[]);
    ReadyText("SYST", "OSS", "MD", "H", map[]);
    RenderValueDiffers("SYST", "OSS", "MD", "C", "E");
    RenderValueDiffers("SYST", "OSS", "MD", "E", "H");
    RenderValueDiffers("SYST", "OSS", "MD", "C", "H");
  }

  /** Two one-letter values give two different texts. */
  lemma RenderValueDiffers(t: string, g: string, f: string, v: string, w: string)
    requires |v| == 1 && |w| == 1 && v != w
    ensures Render(t, g, f, v) != Render(t, g, f, w)
  {
    var prefix := "{\"" + t + "\": {\"" + g + "\": {\"" + f + "\": \"";
    assert Render(t, g, f, v) == prefix + (v + "\" } } }");
    assert Render(t, g, f, w) == prefix + (w + "\" } } }");
    assert Render(t, g, f, v)[|prefix|] == v[0];
    assert Render(t, g, f, w)[|prefix|] == w[0];
  }

  /** Each legality list addresses one subsystem object. */
  lemma ListTargets()
    ensures forall c :: c in HEAT_COMMANDS ==> c.target == "HGOM"
    ensures forall c :: c in COOL_COMMANDS ==> c.target == "CGOM"
    ensures forall c :: c in EVAP_COMMANDS ==> c.target == "ECOM"
  {
    HeatTargets();
    CoolTargets();
    EvapTargets();
  }

  lemma HeatTargets()
    ensures forall c :: c in HEAT_COMMANDS ==> c.target == "HGOM"
  {
  }

  lemma CoolTargets()
    ensures forall c :: c in COOL_COMMANDS ==> c.target == "CGOM"
  {
  }

  lemma EvapTargets()
    ensures forall c :: c in EVAP_COMMANDS ==> c.target == "ECOM"
  {
  }

  /** The text a command puts on the wire opens with its target object. */
  lemma PayloadOpensWithTarget(c: Command, t: string, args: map<string, string>)
    requires c.target == t && Payload(c, args).Ok?
    ensures "{\"" + t + "\": " <= Payload(c, args).value
  {
    PayloadRendered(c, args);
    var gs := Fill(c.group, args).value;
    var vs := Fill(c.value, args).value;
    var head := "{\"" + t + "\": ";
    var rest := "{\"" + gs + "\": {\"" + c.field + "\": \"" + vs + "\" } } }";
    assert Render(t, gs, c.field, vs) == head + rest;
  }

  /** MODE_COMMANDS holds the three mode switches, the on command of each
      subsystem and the auto and manual command of each subsystem, and
      nothing else. */
  lemma ModeCommandsContents()
    ensures forall c :: c in MODE_COMMANDS <==>
      c in [MODE_COOL_CMD, MODE_EVAP_CMD, MODE_HEAT_CMD]
      || c in [HEAT_ON_CMD, COOL_ON_CMD, EVAP_ON_CMD]
      || c in [HEAT_SET_AUTO, HEAT_SET_MANUAL, COOL_SET_AUTO, COOL_SET_MANUAL, EVAP_SET_AUTO, EVAP_SET_MANUAL]
    ensures forall c :: c in MODE_COMMANDS && c.target != "SYST" ==>
      (c.group == [Lit("OOP")] && c.field == "ST" && c.value == [Lit("N")])
      || (c.group == [Lit("GSO")] && c.field == "SW" && c.value == [Lit("N")])
      || (c.group == [Lit("GSO")] && c.field == "OP" && (c.value == [Lit("A")] || c.value == [Lit("M")]))
  {
    ModeCommandsMembers();
    ModeCommandsShapes();
  }

  lemma ModeCommandsMembers()
    ensures forall c :: c in MODE_COMMANDS <==>
      c in [MODE_COOL_CMD, MODE_EVAP_CMD, MODE_HEAT_CMD]
      || c in [HEAT_ON_CMD, COOL_ON_CMD, EVAP_ON_CMD]
      || c in [HEAT_SET_AUTO, HEAT_SET_MANUAL, COOL_SET_AUTO, COOL_SET_MANUAL, EVAP_SET_AUTO, EVAP_SET_MANUAL]
  {
  }

  lemma ModeCommandsShapes()
    ensures forall c :: c in MODE_COMMANDS && c.target != "SYST" ==>
      (c.group == [Lit("OOP")] && c.field == "ST" && c.value == [Lit("N")])
      || (c.group == [Lit("GSO")] && c.field == "SW" && c.value == [Lit("N")])
      || (c.group == [Lit("GSO")] && c.field == "OP" && (c.value == [Lit("A")] || c.value == [Lit("M")]))
  {
  }

  /** A zone switch template, formatted with a zone name, addresses Z<zone>O. */
  lemma ZoneTemplateText(t: string, y: string, zone: string)
    requires NoBraces(t) && NoBraces(y)
    ensures Format(Source(Templated(t, ZONE_GROUP, "UE", [Lit(y)])), map["zone" := zone])
         == Ok(Render(t, "Z" + zone + "O", "UE", y))
  {
    var c := Templated(t, ZONE_GROUP, "UE", [Lit(y)]);
    var args := map["zone" := zone];
    var ts := PieceTokens(ZONE_GROUP);
    assert ts == [Chars("Z"), Field("zone"), Chars("O")];
    assert ts[2..][1..] == [];
    assert ts[1..][1..] == ts[2..];
    assert Expand(ts[2..], args) == Prepend("O", Expand(ts[2..][1..], args));
    assert "O" + "" == "O";
    assert Expand(ts[1..], args) == Prepend(zone, Expand(ts[2..], args));
    assert Expand(ts[2..], args) == Ok("O");
    assert Expand(ts[1..], args) == Ok(zone + "O");
    assert Expand(ts, args) == Prepend("Z", Expand(ts[1..], args));
    assert "Z" + (zone + "O") == "Z" + zone + "O";
    assert Fill(ZONE_GROUP, args) == Ok("Z" + zone + "O");
    FillLit(y, args);
    assert WellFormed(c) by {
      assert PieceWellFormed(ZONE_GROUP[0]) && PieceWellFormed(ZONE_GROUP[1]) && PieceWellFormed(ZONE_GROUP[2]);
    }
    FormatTemplate(c, args);
    PayloadRendered(c, args);
  }

  /** Zone on and zone off differ only in UE being Y or N; the zone name
      lands inside Z?O. */
  lemma ZoneSwitches(zone: string)
    ensures HEAT_ZONE_OFF == HEAT_ZONE_ON.(value := [Lit("N")]) && HEAT_ZONE_ON.value == [Lit("Y")]
    ensures COOL_ZONE_OFF == COOL_ZONE_ON.(value := [Lit("N")]) && COOL_ZONE_ON.value == [Lit("Y")]
    ensures Format(Source(HEAT_ZONE_ON), map["zone" := zone]) == Ok(Render("HGOM", "Z" + zone + "O", "UE", "Y"))
    ensures Format(Source(HEAT_ZONE_OFF), map["zone" := zone]) == Ok(Render("HGOM", "Z" + zone + "O", "UE", "N"))
    ensures Format(Source(COOL_ZONE_ON), map["zone" := zone]) == Ok(Render("CGOM", "Z" + zone + "O", "UE", "Y"))
    ensures Format(Source(COOL_ZONE_OFF), map["zone" := zone]) == Ok(Render("CGOM", "Z" + zone + "O", "UE", "N"))
  {
    ZoneTemplateText("HGOM", "Y", zone);
    ZoneTemplateText("HGOM", "N", zone);
    ZoneTemplateText("CGOM", "Y", zone);
    ZoneTemplateText("CGOM", "N", zone);
  }

  /** The on/off constants use N for on and F for off, and Z for
      circulation fan only. */
  lemma SwitchLetters()
    ensures HEAT_ON_CMD.value == [Lit("N")] && HEAT_OFF_CMD.value == [Lit("F")] && HEAT_CIRC_FAN_ON.value == [Lit("Z")]
    ensures COOL_ON_CMD.value == [Lit("N")] && COOL_OFF_CMD.value == [Lit("F")] && COOL_CIRC_FAN_ON.value == [Lit("Z")]
    ensures EVAP_ON_CMD.value == [Lit("N")] && EVAP_OFF_CMD.value == [Lit("F")]
    ensures EVAP_PUMP_ON.value == [Lit("N")] && EVAP_PUMP_OFF.value == [Lit("F")]
    ensures EVAP_FAN_ON.value == [Lit("N")] && EVAP_FAN_OFF.value == [Lit("F")]
    ensures HEAT_ON_CMD.field == "ST" && EVAP_ON_CMD.field == "SW" && EVAP_PUMP_ON.field == "PS" && EVAP_FAN_ON.field == "FS"
  {
  }

  /** A mode command is accepted whatever the mode flags are. */
  lemma ModeCommandsAlwaysValid(cmd: Command, heaterMode: bool, coolingMode: bool, evapMode: bool)
    requires cmd in MODE_COMMANDS
    ensures ValidateCmd(cmd, heaterMode, coolingMode, evapMode)
  {
  }

  /** Outside MODE_COMMANDS a subsystem's command is accepted exactly when
      that subsystem's mode flag is set; the other two flags do not matter. */
  lemma ValidateGatedByMode(cmd: Command, heaterMode: bool, coolingMode: bool, evapMode: bool)
    requires cmd !in MODE_COMMANDS
    ensures cmd in HEAT_COMMANDS ==> (ValidateCmd(cmd, heaterMode, coolingMode, evapMode) <==> heaterMode)
    ensures cmd in COOL_COMMANDS ==> (ValidateCmd(cmd, heaterMode, coolingMode, evapMode) <==> coolingMode)
    ensures cmd in EVAP_COMMANDS ==> (ValidateCmd(cmd, heaterMode, coolingMode, evapMode) <==> evapMode)
    ensures cmd !in HEAT_COMMANDS && cmd !in COOL_COMMANDS && cmd !in EVAP_COMMANDS
            ==> !ValidateCmd(cmd, heaterMode, coolingMode, evapMode)
  {
    ListTargets();
  }
}
