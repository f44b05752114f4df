/** The RinnaiSystem operations that send a catalog command: which constant
    each one validates, which placeholder values it formats in, and which
    text it hands to sendCmd. */
module Operations {
  import opened Py
  import opened Commands

  datatype Operation =
    | SetCoolingMode | SetEvapMode | SetHeaterMode
    | TurnHeaterOn | TurnHeaterOff | TurnHeaterFanOnly
    | SetHeaterTemp(temp: int) | SetHeaterAuto | SetHeaterManual
    | TurnHeaterZoneOn(zone: string) | TurnHeaterZoneOff(zone: string)
    | TurnCoolingOn | TurnCoolingOff | TurnCoolingFanOnly
    | SetCoolingTemp(temp: int) | SetCoolingAuto | SetCoolingManual
    | TurnCoolingZoneOn(zone: string) | TurnCoolingZoneOff(zone: string)
    | TurnEvapOn | TurnEvapOff | TurnEvapPumpOn | TurnEvapPumpOff
    | TurnEvapFanOn | TurnEvapFanOff | SetEvapAuto | SetEvapManual
    | SetEvapFanSpeed(speed: int) | SetEvapComfort(comfort: int)

  /** The constant the operation validates and sends. */
  function CommandOf(op: Operation): Command {
    match op
    case SetCoolingMode => MODE_COOL_CMD
    case SetEvapMode => MODE_EVAP_CMD
    case SetHeaterMode => MODE_HEAT_CMD
    case TurnHeaterOn => HEAT_ON_CMD
    case TurnHeaterOff => HEAT_OFF_CMD
    case TurnHeaterFanOnly => HEAT_CIRC_FAN_ON
    case SetHeaterTemp(_) => HEAT_SET_TEMP
    case SetHeaterAuto => HEAT_SET_AUTO
    case SetHeaterManual => HEAT_SET_MANUAL
    case TurnHeaterZoneOn(_) => HEAT_ZONE_ON
    case TurnHeaterZoneOff(_) => HEAT_ZONE_OFF
    case TurnCoolingOn => COOL_ON_CMD
    case TurnCoolingOff => COOL_OFF_CMD
    case TurnCoolingFanOnly => COOL_CIRC_FAN_ON
    case SetCoolingTemp(_) => COOL_SET_TEMP
    case SetCoolingAuto => COOL_SET_AUTO
    case SetCoolingManual => COOL_SET_MANUAL
    case TurnCoolingZoneOn(_) => COOL_ZONE_ON
    case TurnCoolingZoneOff(_) => COOL_ZONE_OFF
    case TurnEvapOn => EVAP_ON_CMD
    case TurnEvapOff => EVAP_OFF_CMD
    case TurnEvapPumpOn => EVAP_PUMP_ON
    case TurnEvapPumpOff => EVAP_PUMP_OFF
    case TurnEvapFanOn => EVAP_FAN_ON
    case TurnEvapFanOff => EVAP_FAN_OFF
    case SetEvapAuto => EVAP_SET_AUTO
    case SetEvapManual => EVAP_SET_MANUAL
    case SetEvapFanSpeed(_) => EVAP_FAN_SPEED
    case SetEvapComfort(_) => EVAP_SET_COMFORT
  }

  /** The keyword arguments the operation passes to str.format; the fan
      speed goes in as f'{speed:02d}'. */
  function Arguments(op: Operation): map<string, string> {
    match op
    case SetHeaterTemp(temp) => map["temp" := Str(temp)]
    case SetCoolingTemp(temp) => map["temp" := Str(temp)]
    case TurnHeaterZoneOn(zone) => map["zone" := zone]
    case TurnHeaterZoneOff(zone) => map["zone" := zone]
    case TurnCoolingZoneOn(zone) => map["zone" := zone]
    case TurnCoolingZoneOff(zone) => map["zone" := zone]
    case SetEvapFanSpeed(speed) => map["speed" := ZFill(Str(speed), 2)]
    case SetEvapComfort(comfort) => map["comfort" := Str(comfort)]
    case _ => map[]
  }

  /** The operations that call str.format themselves before sending. */
  predicate FormatsItself(op: Operation) {
    op.SetHeaterTemp? || op.SetCoolingTemp? || op.TurnHeaterZoneOn? || op.TurnHeaterZoneOff?
    || op.TurnCoolingZoneOn? || op.TurnCoolingZoneOff? || op.SetEvapFanSpeed? || op.SetEvapComfort?
  }

  /** The operations that switch an appliance between auto and manual. */
  predicate SetsAutoManual(op: Operation) {
    op.SetHeaterAuto? || op.SetHeaterManual? || op.SetCoolingAuto? || op.SetCoolingManual?
    || op.SetEvapAuto? || op.SetEvapManual?
  }

  /** The text handed to sendCmd as the code stands: operations with
      parameters format their template, the rest go through
      validate_and_send, which sends the constant unchanged. */
  function SentAsWritten(op: Operation): Result<string> {
    if FormatsItself(op) then Format(Source(CommandOf(op)), Arguments(op))
    else Ok(Source(CommandOf(op)))
  }

  /** The text handed to sendCmd: a template always passes through
      str.format, a ready constant is sent as it is. */
  function Sent(op: Operation): Result<string> {
    Emitted(CommandOf(op), Arguments(op))
  }

  /** A template passes through str.format, a ready constant is sent as it is. */
  function Emitted(c: Command, args: map<string, string>): Result<string> {
    if c.style == Template then Format(Source(c), args) else Ok(Source(c))
  }

  /** The command is well formed, a ready one has no placeholder, and every
      placeholder is among the arguments the operation supplies. */
  predicate Sendable(c: Command, keys: set<string>) {
    WellFormed(c) && (c.style == Plain ==> NoHoles(c))
    && HoleNames(c.group) <= keys && HoleNames(c.value) <= keys
  }

  /** The operation's constant is a template exactly when the operation
      formats a value into it or switches auto/manual. */
  predicate TemplateExactlyWhenFormatted(op: Operation) {
    CommandOf(op).style == (if FormatsItself(op) || SetsAutoManual(op) then Template else Plain)
  }

  /** A ready constant: one literal piece in the group and one in the value. */
  lemma ReadySendable(c: Command, keys: set<string>, t: string, g: string, f: string, v: string)
    requires c == Ready(t, g, f, v)
    requires NoBraces(t) && NoBraces(g) && NoBraces(f) && NoBraces(v)
    ensures Sendable(c, keys)
  {
    assert [Lit(g)][1..] == [] && [Lit(v)][1..] == [];
  }

  /** A template whose group and value are one piece each; a placeholder
      among them must be one of the keys. */
  lemma TemplateSendable(c: Command, keys: set<string>, t: string, g: Piece, f: string, v: Piece)
    requires c == Templated(t, [g], f, [v])
    requires NoBraces(t) && NoBraces(f) && PieceWellFormed(g) && PieceWellFormed(v)
    requires (g.Hole? ==> g.name in keys) && (v.Hole? ==> v.name in keys)
    ensures Sendable(c, keys)
  {
    assert [g][1..] == [] && [v][1..] == [];
  }

  /** A zone template: Z{zone}O in the group, one literal in the value. */
  lemma ZoneSendable(c: Command, keys: set<string>, t: string, y: string)
    requires c == Templated(t, ZONE_GROUP, "UE", [Lit(y)])
    requires NoBraces(t) && NoBraces(y) && "zone" in keys
    ensures Sendable(c, keys)
  {
    assert ZONE_GROUP[1..][1..][1..] == [];
    assert [Lit(y)][1..] == [];
  }

  lemma SetCoolingModeSendable()
    ensures Sendable(CommandOf(SetCoolingMode), Arguments(SetCoolingMode).Keys)
    ensures TemplateExactlyWhenFormatted(SetCoolingMode)
  {
    ReadySendable(CommandOf(SetCoolingMode), Arguments(SetCoolingMode).Keys, "SYST", "OSS", "MD", "C");
  }

  lemma SetEvapModeSendable()
    ensures Sendable(CommandOf(SetEvapMode), Arguments(SetEvapMode).Keys)
    ensures TemplateExactlyWhenFormatted(SetEvapMode)
  {
    ReadySendable(CommandOf(SetEvapMode), Arguments(SetEvapMode).Keys, "SYST", "OSS", "MD", "E");
  }

  lemma SetHeaterModeSendable()
    ensures Sendable(CommandOf(SetHeaterMode), Arguments(SetHeaterMode).Keys)
    ensures TemplateExactlyWhenFormatted(SetHeaterMode)
  {
    ReadySendable(CommandOf(SetHeaterMode), Arguments(SetHeaterMode).Keys, "SYST", "OSS", "MD", "H");
  }

  lemma TurnHeaterOnSendable()
    ensures Sendable(CommandOf(TurnHeaterOn), Arguments(TurnHeaterOn).Keys)
    ensures TemplateExactlyWhenFormatted(TurnHeaterOn)
  {
    ReadySendable(CommandOf(TurnHeaterOn), Arguments(TurnHeaterOn).Keys, "HGOM", "OOP", "ST", "N");
  }

  lemma TurnHeaterOffSendable()
    ensures Sendable(CommandOf(TurnHeaterOff), Arguments(TurnHeaterOff).Keys)
    ensures TemplateExactlyWhenFormatted(TurnHeaterOff)
  {
    ReadySendable(CommandOf(TurnHeaterOff), Arguments(TurnHeaterOff).Keys, "HGOM", "OOP", "ST", "F");
  }

  lemma TurnHeaterFanOnlySendable()
    ensures Sendable(CommandOf(TurnHeaterFanOnly), Arguments(TurnHeaterFanOnly).Keys)
    ensures TemplateExactlyWhenFormatted(TurnHeaterFanOnly)
  {
    ReadySendable(CommandOf(TurnHeaterFanOnly), Arguments(TurnHeaterFanOnly).Keys, "HGOM", "OOP", "ST", "Z");
  }

  lemma SetHeaterTempSendable(temp: int)
    ensures Sendable(CommandOf(SetHeaterTemp(temp)), Arguments(SetHeaterTemp(temp)).Keys)
    ensures TemplateExactlyWhenFormatted(SetHeaterTemp(temp))
  {
    TemplateSendable(CommandOf(SetHeaterTemp(temp)), Arguments(SetHeaterTemp(temp)).Keys, "HGOM", Lit("GSO"), "SP", Hole("temp"));
  }

  lemma SetHeaterAutoSendable()
    ensures Sendable(CommandOf(SetHeaterAuto), Arguments(SetHeaterAuto).Keys)
    ensures TemplateExactlyWhenFormatted(SetHeaterAuto)
  {
    TemplateSendable(CommandOf(SetHeaterAuto), Arguments(SetHeaterAuto).Keys, "HGOM", Lit("GSO"), "OP", Lit("A"));
  }

  lemma SetHeaterManualSendable()
    ensures Sendable(CommandOf(SetHeaterManual), Arguments(SetHeaterManual).Keys)
    ensures TemplateExactlyWhenFormatted(SetHeaterManual)
  {
    TemplateSendable(CommandOf(SetHeaterManual), Arguments(SetHeaterManual).Keys, "HGOM", Lit("GSO"), "OP", Lit("M"));
  }

  lemma TurnHeaterZoneOnSendable(zone: string)
    ensures Sendable(CommandOf(TurnHeaterZoneOn(zone)), Arguments(TurnHeaterZoneOn(zone)).Keys)
    ensures TemplateExactlyWhenFormatted(TurnHeaterZoneOn(zone))
  {
    ZoneSendable(CommandOf(TurnHeaterZoneOn(zone)), Arguments(TurnHeaterZoneOn(zone)).Keys, "HGOM", "Y");
  }

  lemma TurnHeaterZoneOffSendable(zone: string)
    ensures Sendable(CommandOf(TurnHeaterZoneOff(zone)), Arguments(TurnHeaterZoneOff(zone)).Keys)
    ensures TemplateExactlyWhenFormatted(TurnHeaterZoneOff(zone))
  {
    ZoneSendable(CommandOf(TurnHeaterZoneOff(zone)), Arguments(TurnHeaterZoneOff(zone)).Keys, "HGOM", "N");
  }

  lemma TurnCoolingOnSendable()
    ensures Sendable(CommandOf(TurnCoolingOn), Arguments(TurnCoolingOn).Keys)
    ensures TemplateExactlyWhenFormatted(TurnCoolingOn)
  {
    ReadySendable(CommandOf(TurnCoolingOn), Arguments(TurnCoolingOn).Keys, "CGOM", "OOP", "ST", "N");
  }

  lemma TurnCoolingOffSendable()
    ensures Sendable(CommandOf(TurnCoolingOff), Arguments(TurnCoolingOff).Keys)
    ensures TemplateExactlyWhenFormatted(TurnCoolingOff)
  {
    ReadySendable(CommandOf(TurnCoolingOff), Arguments(TurnCoolingOff).Keys, "CGOM", "OOP", "ST", "F");
  }

  lemma TurnCoolingFanOnlySendable()
    ensures Sendable(CommandOf(TurnCoolingFanOnly), Arguments(TurnCoolingFanOnly).Keys)
    ensures TemplateExactlyWhenFormatted(TurnCoolingFanOnly)
  {
    ReadySendable(CommandOf(TurnCoolingFanOnly), Arguments(TurnCoolingFanOnly).Keys, "CGOM", "OOP", "ST", "Z");
  }

  lemma SetCoolingTempSendable(temp: int)
    ensures Sendable(CommandOf(SetCoolingTemp(temp)), Arguments(SetCoolingTemp(temp)).Keys)
    ensures TemplateExactlyWhenFormatted(SetCoolingTemp(temp))
  {
    TemplateSendable(CommandOf(SetCoolingTemp(temp)), Arguments(SetCoolingTemp(temp)).Keys, "CGOM", Lit("GSO"), "SP", Hole("temp"));
  }

  lemma SetCoolingAutoSendable()
    ensures Sendable(CommandOf(SetCoolingAuto), Arguments(SetCoolingAuto).Keys)
    ensures TemplateExactlyWhenFormatted(SetCoolingAuto)
  {
    TemplateSendable(CommandOf(SetCoolingAuto), Arguments(SetCoolingAuto).Keys, "CGOM", Lit("GSO"), "OP", Lit("A"));
  }

  lemma SetCoolingManualSendable()
    ensures Sendable(CommandOf(SetCoolingManual), Arguments(SetCoolingManual).Keys)
    ensures TemplateExactlyWhenFormatted(SetCoolingManual)
  {
    TemplateSendable(CommandOf(SetCoolingManual), Arguments(SetCoolingManual).Keys, "CGOM", Lit("GSO"), "OP", Lit("M"));
  }

  lemma TurnCoolingZoneOnSendable(zone: string)
    ensures Sendable(CommandOf(TurnCoolingZoneOn(zone)), Arguments(TurnCoolingZoneOn(zone)).Keys)
    ensures TemplateExactlyWhenFormatted(TurnCoolingZoneOn(zone))
  {
    ZoneSendable(CommandOf(TurnCoolingZoneOn(zone)), Arguments(TurnCoolingZoneOn(zone)).Keys, "CGOM", "Y");
  }

  lemma TurnCoolingZoneOffSendable(zone: string)
    ensures Sendable(CommandOf(TurnCoolingZoneOff(zone)), Arguments(TurnCoolingZoneOff(zone)).Keys)
    ensures TemplateExactlyWhenFormatted(TurnCoolingZoneOff(zone))
  {
    ZoneSendable(CommandOf(TurnCoolingZoneOff(zone)), Arguments(TurnCoolingZoneOff(zone)).Keys, "CGOM", "N");
  }

  lemma TurnEvapOnSendable()
    ensures Sendable(CommandOf(TurnEvapOn), Arguments(TurnEvapOn).Keys)
    ensures TemplateExactlyWhenFormatted(TurnEvapOn)
  {
    ReadySendable(CommandOf(TurnEvapOn), Arguments(TurnEvapOn).Keys, "ECOM", "GSO", "SW", "N");
  }

  lemma TurnEvapOffSendable()
    ensures Sendable(CommandOf(TurnEvapOff), Arguments(TurnEvapOff).Keys)
    ensures TemplateExactlyWhenFormatted(TurnEvapOff)
  {
    ReadySendable(CommandOf(TurnEvapOff), Arguments(TurnEvapOff).Keys, "ECOM", "GSO", "SW", "F");
  }

  lemma TurnEvapPumpOnSendable()
    ensures Sendable(CommandOf(TurnEvapPumpOn), Arguments(TurnEvapPumpOn).Keys)
    ensures TemplateExactlyWhenFormatted(TurnEvapPumpOn)
  {
    ReadySendable(CommandOf(TurnEvapPumpOn), Arguments(TurnEvapPumpOn).Keys, "ECOM", "GSO", "PS", "N");
  }

  lemma TurnEvapPumpOffSendable()
    ensures Sendable(CommandOf(TurnEvapPumpOff), Arguments(TurnEvapPumpOff).Keys)
    ensures TemplateExactlyWhenFormatted(TurnEvapPumpOff)
  {
    ReadySendable(CommandOf(TurnEvapPumpOff), Arguments(TurnEvapPumpOff).Keys, "ECOM", "GSO", "PS", "F");
  }

  lemma TurnEvapFanOnSendable()
    ensures Sendable(CommandOf(TurnEvapFanOn), Arguments(TurnEvapFanOn).Keys)
    ensures TemplateExactlyWhenFormatted(TurnEvapFanOn)
  {
    ReadySendable(CommandOf(TurnEvapFanOn), Arguments(TurnEvapFanOn).Keys, "ECOM", "GSO", "FS", "N");
  }

  lemma TurnEvapFanOffSendable()
    ensures Sendable(CommandOf(TurnEvapFanOff), Arguments(TurnEvapFanOff).Keys)
    ensures TemplateExactlyWhenFormatted(TurnEvapFanOff)
  {
    ReadySendable(CommandOf(TurnEvapFanOff), Arguments(TurnEvapFanOff).Keys, "ECOM", "GSO", "FS", "F");
  }

  lemma SetEvapAutoSendable()
    ensures Sendable(CommandOf(SetEvapAuto), Arguments(SetEvapAuto).Keys)
    ensures TemplateExactlyWhenFormatted(SetEvapAuto)
  {
    TemplateSendable(CommandOf(SetEvapAuto), Arguments(SetEvapAuto).Keys, "ECOM", Lit("GSO"), "OP", Lit("A"));
  }

  lemma SetEvapManualSendable()
    ensures Sendable(CommandOf(SetEvapManual), Arguments(SetEvapManual).Keys)
    ensures TemplateExactlyWhenFormatted(SetEvapManual)
  {
    TemplateSendable(CommandOf(SetEvapManual), Arguments(SetEvapManual).Keys, "ECOM", Lit("GSO"), "OP", Lit("M"));
  }

  lemma SetEvapFanSpeedSendable(speed: int)
    ensures Sendable(CommandOf(SetEvapFanSpeed(speed)), Arguments(SetEvapFanSpeed(speed)).Keys)
    ensures TemplateExactlyWhenFormatted(SetEvapFanSpeed(speed))
  {
    TemplateSendable(CommandOf(SetEvapFanSpeed(speed)), Arguments(SetEvapFanSpeed(speed)).Keys, "ECOM", Lit("GSO"), "FL", Hole("speed"));
  }

  lemma SetEvapComfortSendable(comfort: int)
    ensures Sendable(CommandOf(SetEvapComfort(comfort)), Arguments(SetEvapComfort(comfort)).Keys)
    ensures TemplateExactlyWhenFormatted(SetEvapComfort(comfort))
  {
    TemplateSendable(CommandOf(SetEvapComfort(comfort)), Arguments(SetEvapComfort(comfort)).Keys, "ECOM", Lit("GSO"), "SP", Hole("comfort"));
  }

  /** Every operation's command can be sent with the operation's arguments;
      the templates are exactly the constants of the operations that take a
      value and of the auto/manual switches, the rest are ready constants. */
  lemma OperationSendable(op: Operation)
    ensures Sendable(CommandOf(op), Arguments(op).Keys)
    ensures TemplateExactlyWhenFormatted(op)
  {
    match op
    case SetCoolingMode => SetCoolingModeSendable();
    case SetEvapMode => SetEvapModeSendable();
    case SetHeaterMode => SetHeaterModeSendable();
    case TurnHeaterOn => TurnHeaterOnSendable();
    case TurnHeaterOff => TurnHeaterOffSendable();
    case TurnHeaterFanOnly => TurnHeaterFanOnlySendable();
    case SetHeaterTemp(temp) => SetHeaterTempSendable(temp);
    case SetHeaterAuto => SetHeaterAutoSendable();
    case SetHeaterManual => SetHeaterManualSendable();
    case TurnHeaterZoneOn(zone) => TurnHeaterZoneOnSendable(zone);
    case TurnHeaterZoneOff(zone) => TurnHeaterZoneOffSendable(zone);
    case TurnCoolingOn => TurnCoolingOnSendable();
    case TurnCoolingOff => TurnCoolingOffSendable();
    case TurnCoolingFanOnly => TurnCoolingFanOnlySendable();
    case SetCoolingTemp(temp) => SetCoolingTempSendable(temp);
    case SetCoolingAuto => SetCoolingAutoSendable();
    case SetCoolingManual => SetCoolingManualSendable();
    case TurnCoolingZoneOn(zone) => TurnCoolingZoneOnSendable(zone);
    case TurnCoolingZoneOff(zone) => TurnCoolingZoneOffSendable(zone);
    case TurnEvapOn => TurnEvapOnSendable();
    case TurnEvapOff => TurnEvapOffSendable();
    case TurnEvapPumpOn => TurnEvapPumpOnSendable();
    case TurnEvapPumpOff => TurnEvapPumpOffSendable();
    case TurnEvapFanOn => TurnEvapFanOnSendable();
    case TurnEvapFanOff => TurnEvapFanOffSendable();
    case SetEvapAuto => SetEvapAutoSendable();
    case SetEvapManual => SetEvapManualSendable();
    case SetEvapFanSpeed(speed) => SetEvapFanSpeedSendable(speed);
    case SetEvapComfort(comfort) => SetEvapComfortSendable(comfort);
  }

  /** A command that can be sent is emitted as the three-level JSON object,
      its placeholders filled from the arguments. */
  lemma CommandRendered(c: Command, args: map<string, string>)
    requires Sendable(c, args.Keys)
    ensures Emitted(c, args).Ok?
    ensures Emitted(c, args) == Payload(c, args)
    ensures Fill(c.group, args).Ok? && Fill(c.value, args).Ok?
    ensures Emitted(c, args).value == Render(c.target, Fill(c.group, args).value, c.field, Fill(c.value, args).value)
  {
    PayloadRendered(c, args);
    if c.style == Template {
      FormatTemplate(c, args);
    } else {
      PlainSource(c, args);
    }
  }

  /** Every operation sends the three-level JSON object of its command, with
      the placeholders filled from its arguments. */
  lemma SentRendered(op: Operation)
    ensures Sent(op).Ok?
    ensures Sent(op) == Payload(CommandOf(op), Arguments(op))
    ensures Fill(CommandOf(op).group, Arguments(op)).Ok? && Fill(CommandOf(op).value, Arguments(op)).Ok?
    ensures Sent(op).value == Render(CommandOf(op).target, Fill(CommandOf(op).group, Arguments(op)).value,
                                     CommandOf(op).field, Fill(CommandOf(op).value, Arguments(op)).value)
  {
    OperationSendable(op);
    CommandRendered(CommandOf(op), Arguments(op));
  }

  /** Where an operation formats its own template, the code as written and
      the corrected text agree. */
  lemma FormattingOperationsAgree(op: Operation)
    requires FormatsItself(op)
    ensures SentAsWritten(op) == Sent(op)
  {
    OperationSendable(op);
  }

  /** The text of a template constant opens with a doubled brace. */
  lemma TemplateOpensDoubled(c: Command)
    requires c.style == Template
    ensures |Source(c)| >= 2 && Source(c)[..2] == "{{"
  {
    var ts := Tokens(c);
    assert ts[0] == OpenBrace;
    assert Spell(ts) == "{{" + Spell(ts[1..]);
  }

  /** A payload opens with a brace and a quote. */
  lemma PayloadOpens(c: Command, args: map<string, string>)
    requires Payload(c, args).Ok?
    ensures |Payload(c, args).value| >= 2 && Payload(c, args).value[..2] == "{\""
  {
    PayloadRendered(c, args);
    var g := Fill(c.group, args).value;
    var v := Fill(c.value, args).value;
    assert Render(c.target, g, c.field, v)
        == "{\"" + (c.target + "\": {\"" + g + "\": {\"" + c.field + "\": \"" + v + "\" } } }");
  }

  /** Sent unformatted, a template constant is not its payload. */
  lemma UnformattedTemplate(c: Command, args: map<string, string>)
    requires c.style == Template && Payload(c, args).Ok?
    ensures |Source(c)| >= 2 && Source(c)[..2] == "{{"
    ensures |Payload(c, args).value| >= 2 && Payload(c, args).value[..2] == "{\""
    ensures Ok(Source(c)) != Payload(c, args)
  {
    TemplateOpensDoubled(c);
    PayloadOpens(c, args);
    assert Source(c)[1] == Source(c)[..2][1];
    assert Payload(c, args).value[1] == Payload(c, args).value[..2][1];
  }

  /** The six auto/manual operations send their template unformatted, so the
      device receives doubled braces instead of the JSON object. */
  lemma AutoManualSentUnformatted(op: Operation)
    requires SetsAutoManual(op)
    ensures SentAsWritten(op).Ok? && Sent(op).Ok?
    ensures |SentAsWritten(op).value| >= 2 && SentAsWritten(op).value[..2] == "{{"
    ensures |Sent(op).value| >= 2 && Sent(op).value[..2] == "{\""
    ensures SentAsWritten(op) != Sent(op)
  {
    OperationSendable(op);
    var c, args := CommandOf(op), Arguments(op);
    assert SentAsWritten(op) == Ok(Source(c));
    assert Sent(op) == Emitted(c, args);
    CommandRendered(c, args);
    UnformattedTemplate(c, args);
  }

  /** f'{speed:02d}' is read back by int() as the same number, so the fan
      speed the evaporative setter sends is the one the decoder reports. */
  lemma FanSpeedRoundTrip(speed: int)
    ensures "speed" in Arguments(SetEvapFanSpeed(speed))
            && PyInt(JStr(Arguments(SetEvapFanSpeed(speed))["speed"])) == Ok(speed)
    ensures 0 <= speed < 100 ==> |Arguments(SetEvapFanSpeed(speed))["speed"]| == 2
  {
    var a := ZFill(Str(speed), 2);
    assert Arguments(SetEvapFanSpeed(speed))["speed"] == a;
    ZFillRoundTrip(speed, 2);
    assert PyInt(JStr(a)) == ParseInt(a);
    if 0 <= speed < 100 {
      DecLength(speed, 2);
      assert Str(speed) == Dec(speed);
    }
  }

  /** A set point sent as str(temp) is read back by int() as temp. */
  lemma SetPointRoundTrip(temp: int)
    ensures "temp" in Arguments(SetHeaterTemp(temp)) && PyInt(JStr(Arguments(SetHeaterTemp(temp))["temp"])) == Ok(temp)
  {
    assert Arguments(SetHeaterTemp(temp)) == map["temp" := Str(temp)];
    PyIntStr(temp);
  }

  lemma CoolingSetPointRoundTrip(temp: int)
    ensures "temp" in Arguments(SetCoolingTemp(temp)) && PyInt(JStr(Arguments(SetCoolingTemp(temp))["temp"])) == Ok(temp)
  {
    assert Arguments(SetCoolingTemp(temp)) == map["temp" := Str(temp)];
    PyIntStr(temp);
  }

  lemma ComfortRoundTrip(comfort: int)
    ensures "comfort" in Arguments(SetEvapComfort(comfort))
            && PyInt(JStr(Arguments(SetEvapComfort(comfort))["comfort"])) == Ok(comfort)
  {
    assert Arguments(SetEvapComfort(comfort)) == map["comfort" := Str(comfort)];
    PyIntStr(comfort);
  }

  lemma PyIntStr(n: int)
    ensures PyInt(JStr(Str(n))) == Ok(n)
  {
    ParseStr(n);
  }
}
