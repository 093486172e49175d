/** The JSON-sensor bridge (bot/bot.py). The device publishes one JSON
    record per sensor topic (flame, gas, actuator state); the bridge keeps
    the latest record of each, pushes an alert to the operator when a flame
    or gas record reports its digital output low, and answers the operator's
    buttons with publishes on two control topics or a status report. */
module Bot {
  import opened Wrappers
  import opened Json
  import opened Text
  import opened Effects
  import opened Traces

  const TopicSubFlame := "fire_alarm/esp32_01/sensor/flame"
  const TopicSubGas := "fire_alarm/esp32_01/sensor/gas"
  const TopicSubState := "fire_alarm/esp32_01/sensor/state"
  const TopicPubBuzzer := "fire_alarm/esp32_01/control/buzzer"
  const TopicPubValve := "fire_alarm/esp32_01/control/valve"

  const FireAlert := "🔥 FIRE DETECTED! 🔥"
  const GasAlert := "☣️ GAS LEAK DETECTED! ☣️"

  const BuzzerOnButton := "🔔 Buzzer ON"
  const BuzzerOffButton := "🔕 Buzzer OFF"
  const ValveOpenButton := "🔓 Valve OPEN"
  const ValveCloseButton := "🔒 Valve CLOSE"
  const CheckStatusButton := "🔄 Check Status"

  const UnauthorizedReply := "⛔ Unauthorized access."
  const WelcomeReply := "👋 ESP32 Control Center Online."

  const DangerHeader := "🚨 <b>DANGER DETECTED</b> 🚨"
  const NormalHeader := "✅ <b>SYSTEM NORMAL</b>"
  const Rule := "━━━━━━━━━━━━━━━━━━"

  /** The three sensor topics differ in the character after the common
      prefix `fire_alarm/esp32_01/sensor/`. */
  lemma TopicsDiffer()
    ensures TopicSubFlame != TopicSubGas && TopicSubFlame != TopicSubState && TopicSubGas != TopicSubState
  {
    assert TopicSubFlame[27] == 'f' && TopicSubGas[27] == 'g' && TopicSubState[27] == 's';
  }

  /** The buttons and the headers are told apart by their first character. */
  lemma LiteralsDiffer()
    ensures BuzzerOnButton != BuzzerOffButton && BuzzerOnButton != ValveOpenButton
    ensures BuzzerOnButton != ValveCloseButton && BuzzerOnButton != CheckStatusButton
    ensures BuzzerOffButton != ValveOpenButton && BuzzerOffButton != ValveCloseButton
    ensures BuzzerOffButton != CheckStatusButton && ValveOpenButton != ValveCloseButton
    ensures ValveOpenButton != CheckStatusButton && ValveCloseButton != CheckStatusButton
    ensures DangerHeader != NormalHeader && FireAlert != GasAlert
  {
    assert BuzzerOnButton[0] == '🔔' && BuzzerOffButton[0] == '🔕';
    assert ValveOpenButton[0] == '🔓' && ValveCloseButton[0] == '🔒';
    assert CheckStatusButton[0] == '🔄';
    assert DangerHeader[0] == '🚨' && NormalHeader[0] == '✅';
    assert FireAlert[0] == '🔥' && GasAlert[0] == '☣';
  }

  /** `latest_flame`, `latest_gas` and `latest_state`: the last decoded
      record of each sensor topic, whatever its shape. */
  datatype Stores = Stores(flame: Json, gas: Json, state: Json)

  /** The stores at start-up: three empty dictionaries. */
  const EmptyStores := Stores(EmptyObject, EmptyObject, EmptyObject)

  /** A record that reports an alarm: a dictionary whose `DO_State` compares
      equal to 0. */
  predicate ReportsAlarm(record: Json) {
    record.JObject? && "DO_State" in record.fields && EqualsZero(record.fields["DO_State"])
  }

  /** The alert a sensor record raises: `data.get("DO_State") == 0`, when the
      chat side is up to receive it. A record that is not a dictionary makes
      `get` raise, which is caught, so it raises nothing. */
  function AlertFor(chat: int, record: Json, text: string, deliverable: bool): seq<Action> {
    match Get(record, "DO_State", JNull)
    case Some(level) => if deliverable && EqualsZero(level) then [Send(chat, text)] else []
    case None => []
  }

  /** The stores after one MQTT message, and what it caused. */
  type Step = Outcome<Stores, Action>

  /** `on_message`: `decoded` is `None` when the payload is not UTF-8 or not
      JSON (the exception is caught and nothing changes). Otherwise the
      record replaces the store of its topic before the alert rule reads it;
      messages on other topics change nothing. `deliverable` says whether the
      chat side's event loop and application exist to take an alert. */
  function Ingest(chat: int, s: Stores, topic: string, decoded: Option<Json>, deliverable: bool): Step {
    match decoded
    case None => Outcome(s, [])
    case Some(data) =>
      if topic == TopicSubFlame then Outcome(s.(flame := data), AlertFor(chat, data, FireAlert, deliverable))
      else if topic == TopicSubGas then Outcome(s.(gas := data), AlertFor(chat, data, GasAlert, deliverable))
      else if topic == TopicSubState then Outcome(s.(state := data), [])
      else Outcome(s, [])
  }

  /** A flame record replaces the flame store wholesale, leaves the others
      alone, and raises exactly one FIRE DETECTED alert iff it reports an
      alarm and the chat side is up. */
  lemma FlameMessage(chat: int, s: Stores, data: Json, deliverable: bool)
    ensures var r := Ingest(chat, s, TopicSubFlame, Some(data), deliverable);
      && r.state.flame == data && r.state.gas == s.gas && r.state.state == s.state
      && (r.actions != [] <==> deliverable && ReportsAlarm(data))
      && (r.actions != [] ==> r.actions == [Send(chat, FireAlert)])
  {
  }

  /** A gas record replaces the gas store wholesale, leaves the others alone,
      and raises exactly one GAS LEAK DETECTED alert iff it reports an alarm
      and the chat side is up. */
  lemma GasMessage(chat: int, s: Stores, data: Json, deliverable: bool)
    ensures var r := Ingest(chat, s, TopicSubGas, Some(data), deliverable);
      && r.state.gas == data && r.state.flame == s.flame && r.state.state == s.state
      && (r.actions != [] <==> deliverable && ReportsAlarm(data))
      && (r.actions != [] ==> r.actions == [Send(chat, GasAlert)])
  {
    TopicsDiffer();
  }

  /** A state record replaces the state store and never raises an alert. */
  lemma StateMessage(chat: int, s: Stores, data: Json, deliverable: bool)
    ensures Ingest(chat, s, TopicSubState, Some(data), deliverable) == Outcome(s.(state := data), [])
  {
    TopicsDiffer();
  }

  /** A message on any other topic, or one that does not decode, changes
      nothing and sends nothing. */
  lemma IgnoredMessage(chat: int, s: Stores, topic: string, decoded: Option<Json>, deliverable: bool)
    requires decoded.None? || topic !in {TopicSubFlame, TopicSubGas, TopicSubState}
    ensures Ingest(chat, s, topic, decoded, deliverable) == Outcome(s, [])
  {
  }

  /** Whatever arrives, the only thing ever pushed is one of the two alerts,
      to the operator, and at most one of them. */
  lemma OnlyAlertsSent(chat: int, s: Stores, topic: string, decoded: Option<Json>, deliverable: bool)
    ensures var r := Ingest(chat, s, topic, decoded, deliverable);
      && |r.actions| <= 1
      && forall a :: a in r.actions ==> a == Send(chat, FireAlert) || a == Send(chat, GasAlert)
  {
  }

  /** A reading of one sensor as the report shows it. */
  datatype Reading = Reading(alarm: bool, value: Json)

  /** What `format_status_message` reads out of the stores. */
  datatype StatusReport = StatusReport(flame: Reading, gas: Reading, buzzerOn: bool, valveOpen: bool)

  /** `DO_State` (default 1) compared with 0, and `AO_Value` (default
      `"N/A"`); `None` when the store is not a dictionary. */
  function ReadSensor(record: Json): Option<Reading> {
    var level := Get(record, "DO_State", JInt(1));
    var value := Get(record, "AO_Value", JString("N/A"));
    if level.Some? && value.Some? then Some(Reading(EqualsZero(level.value), value.value)) else None
  }

  /** The report over the three stores, with `BUZZER_State` and
      `VALVE_State` read for truth (default `False`). `None` when a store is
      not a dictionary: `get` raises and the handler gives no answer. */
  function ReadStatus(s: Stores): Option<StatusReport> {
    var flame := ReadSensor(s.flame);
    var gas := ReadSensor(s.gas);
    var buzzer := Get(s.state, "BUZZER_State", JBool(false));
    var valve := Get(s.state, "VALVE_State", JBool(false));
    if flame.Some? && gas.Some? && buzzer.Some? && valve.Some? then
      Some(StatusReport(flame.value, gas.value, Truthy(buzzer.value), Truthy(valve.value)))
    else None
  }

  const FlameLabel := "🔥 <b>Flame:</b> "
  const GasLabel := "☣️ <b>Gas:</b> "
  const BuzzerLabel := "🔊 <b>Buzzer:</b> "
  const ValveLabel := "🚰 <b>Valve:</b> "
  const FireWord := "⚠️ FIRE!"
  const LeakWord := "⚠️ LEAK!"
  const SafeWord := "Safe"

  /** A sensor's line: its caption, the alarm word or `Safe`, and its value. */
  function SensorLine(caption: string, alarmWord: string, alarm: bool, shown: string): string {
    caption + (if alarm then alarmWord else SafeWord) + " (Val: " + shown + ")"
  }

  /** The lines of the status message. `show` is Python's `str()` of a
      decoded value and `now` the local time formatted as `%H:%M:%S`. */
  function StatusLines(r: StatusReport, show: Json -> string, now: string): seq<string> {
    [ if r.flame.alarm || r.gas.alarm then DangerHeader else NormalHeader,
      Rule,
      SensorLine(FlameLabel, FireWord, r.flame.alarm, show(r.flame.value)),
      SensorLine(GasLabel, LeakWord, r.gas.alarm, show(r.gas.value)),
      Rule,
      BuzzerLabel + (if r.buzzerOn then "ON" else "OFF"),
      ValveLabel + (if r.valveOpen then "OPEN" else "CLOSED"),
      "🕒 <i>" + now + "</i>" ]
  }

  /** `format_status_message()`. */
  function FormatStatus(s: Stores, show: Json -> string, now: string): Option<string> {
    match ReadStatus(s)
    case Some(r) => Some(JoinLines(StatusLines(r, show, now)))
    case None => None
  }

  /** The sensor lines say FIRE! / LEAK! exactly for an alarm and Safe
      otherwise, each with its value; the buzzer line says ON exactly when
      the buzzer is on and the valve line OPEN exactly when the valve is. */
  lemma ReportLines(r: StatusReport, show: Json -> string, now: string)
    ensures var ls := StatusLines(r, show, now);
      && |ls| == 8
      && (ls[2] == FlameLabel + FireWord + " (Val: " + show(r.flame.value) + ")" <==> r.flame.alarm)
      && (ls[2] == FlameLabel + SafeWord + " (Val: " + show(r.flame.value) + ")" <==> !r.flame.alarm)
      && (ls[3] == GasLabel + LeakWord + " (Val: " + show(r.gas.value) + ")" <==> r.gas.alarm)
      && (ls[3] == GasLabel + SafeWord + " (Val: " + show(r.gas.value) + ")" <==> !r.gas.alarm)
      && (ls[5] == BuzzerLabel + "ON" <==> r.buzzerOn)
      && (ls[5] == BuzzerLabel + "OFF" <==> !r.buzzerOn)
      && (ls[6] == ValveLabel + "OPEN" <==> r.valveOpen)
      && (ls[6] == ValveLabel + "CLOSED" <==> !r.valveOpen)
  {
    assert FireWord[0] == '⚠' && LeakWord[0] == '⚠' && SafeWord[0] == 'S';
    SensorLineIff(FlameLabel, FireWord, r.flame.alarm, show(r.flame.value));
    SensorLineIff(GasLabel, LeakWord, r.gas.alarm, show(r.gas.value));
    SwitchLineIff(BuzzerLabel, "ON", "OFF", r.buzzerOn);
    SwitchLineIff(ValveLabel, "OPEN", "CLOSED", r.valveOpen);
  }

  /** A sensor line shows its alarm word exactly for an alarm, and `Safe`
      exactly otherwise, when the alarm word does not start like `Safe`. */
  lemma SensorLineIff(caption: string, alarmWord: string, alarm: bool, shown: string)
    requires alarmWord != [] && alarmWord[0] != SafeWord[0]
    ensures (SensorLine(caption, alarmWord, alarm, shown) == caption + alarmWord + " (Val: " + shown + ")") <==> alarm
    ensures (SensorLine(caption, alarmWord, alarm, shown) == caption + SafeWord + " (Val: " + shown + ")") <==> !alarm
  {
    var raised := caption + alarmWord + " (Val: " + shown + ")";
    var safe := caption + SafeWord + " (Val: " + shown + ")";
    assert raised[|caption|] == alarmWord[0];
    assert safe[|caption|] == SafeWord[0];
  }

  /** A line with one of two different endings ends with the first exactly
      when the switch is on. */
  lemma SwitchLineIff(caption: string, on: string, off: string, b: bool)
    requires on != off
    ensures (caption + (if b then on else off) == caption + on) <==> b
    ensures (caption + (if b then on else off) == caption + off) <==> !b
  {
    assert (caption + on)[|caption|..] == on;
    assert (caption + off)[|caption|..] == off;
  }

  /** A report exists exactly when all three stores are dictionaries. */
  lemma ReportIffDictionaries(s: Stores)
    ensures ReadStatus(s).Some? <==> s.flame.JObject? && s.gas.JObject? && s.state.JObject?
  {
  }

  /** Missing fields read as safe: no `DO_State` is no alarm, no `AO_Value`
      is `"N/A"`, and no `BUZZER_State` / `VALVE_State` is off. Present
      fields are read as they are, the actuator flags by their truth. */
  lemma MissingFieldsDefaults(s: Stores)
    requires s.flame.JObject? && s.gas.JObject? && s.state.JObject?
    ensures var r := ReadStatus(s).value;
      && r.flame.alarm == ReportsAlarm(s.flame) && r.gas.alarm == ReportsAlarm(s.gas)
      && ("AO_Value" !in s.flame.fields ==> r.flame.value == JString("N/A"))
      && ("AO_Value" in s.flame.fields ==> r.flame.value == s.flame.fields["AO_Value"])
      && ("AO_Value" !in s.gas.fields ==> r.gas.value == JString("N/A"))
      && ("AO_Value" in s.gas.fields ==> r.gas.value == s.gas.fields["AO_Value"])
      && ("BUZZER_State" !in s.state.fields ==> !r.buzzerOn)
      && ("BUZZER_State" in s.state.fields ==> r.buzzerOn == Truthy(s.state.fields["BUZZER_State"]))
      && ("VALVE_State" !in s.state.fields ==> !r.valveOpen)
      && ("VALVE_State" in s.state.fields ==> r.valveOpen == Truthy(s.state.fields["VALVE_State"]))
  {
  }

  /** The message opens with DANGER DETECTED exactly when the flame or the
      gas store reports an alarm, and with SYSTEM NORMAL otherwise. */
  lemma HeaderIff(s: Stores, show: Json -> string, now: string)
    requires FormatStatus(s, show, now).Some?
    ensures var msg := FormatStatus(s, show, now).value;
      && (ReportsAlarm(s.flame) || ReportsAlarm(s.gas) ==> msg[..|DangerHeader| + 1] == DangerHeader + "\n")
      && (!ReportsAlarm(s.flame) && !ReportsAlarm(s.gas) ==> msg[..|NormalHeader| + 1] == NormalHeader + "\n")
  {
    var r := ReadStatus(s).value;
    MissingFieldsDefaults(s);
    JoinLinesFirst(StatusLines(r, show, now));
  }

  /** At start-up the report says SYSTEM NORMAL, both sensors safe with
      value `"N/A"`, buzzer off and valve closed. */
  lemma EmptyStoresNormal(show: Json -> string, now: string)
    ensures ReadStatus(EmptyStores) == Some(StatusReport(Reading(false, JString("N/A")), Reading(false, JString("N/A")), false, false))
    ensures FormatStatus(EmptyStores, show, now).Some?
    ensures FormatStatus(EmptyStores, show, now).value[..|NormalHeader| + 1] == NormalHeader + "\n"
    ensures var ls := StatusLines(ReadStatus(EmptyStores).value, show, now);
      && FormatStatus(EmptyStores, show, now) == Some(JoinLines(ls))
      && ls[2] == FlameLabel + SafeWord + " (Val: " + show(JString("N/A")) + ")"
      && ls[3] == GasLabel + SafeWord + " (Val: " + show(JString("N/A")) + ")"
      && ls[5] == BuzzerLabel + "OFF" && ls[6] == ValveLabel + "CLOSED"
  {
    HeaderIff(EmptyStores, show, now);
    ReportLines(ReadStatus(EmptyStores).value, show, now);
  }

  /** A record that is not a dictionary (a list, a number, ...) on a sensor
      topic still replaces the store, raises no alert, and from then on the
      status request gets no answer. */
  lemma NonDictionaryRecordStored(chat: int, s: Stores, data: Json, deliverable: bool, show: Json -> string, now: string)
    requires !data.JObject?
    ensures var r := Ingest(chat, s, TopicSubFlame, Some(data), deliverable);
      r.state.flame == data && r.actions == [] && FormatStatus(r.state, show, now) == None
  {
  }

  /** `start`: the welcome for the operator's chat, a refusal for any other. */
  function OnStart(authorized: int, chatId: int): seq<Action> {
    if chatId != authorized then [Reply(UnauthorizedReply)] else [Reply(WelcomeReply)]
  }

  /** `handle_commands`: nothing for a chat other than the operator's; the
      buzzer and valve buttons publish `"ON"`/`"OFF"` on their control topic
      and confirm; "Check Status" answers with the report (nothing when
      formatting raises); any other text does nothing. */
  function OnCommand(authorized: int, s: Stores, chatId: int, text: string, show: Json -> string, now: string): seq<Action> {
    if chatId != authorized then []
    else if text == BuzzerOnButton then [Publish(TopicPubBuzzer, "ON"), Reply("✅ Sent: Buzzer ON")]
    else if text == BuzzerOffButton then [Publish(TopicPubBuzzer, "OFF"), Reply("✅ Sent: Buzzer OFF")]
    else if text == ValveOpenButton then [Publish(TopicPubValve, "ON"), Reply("✅ Sent: Valve OPEN")]
    else if text == ValveCloseButton then [Publish(TopicPubValve, "OFF"), Reply("✅ Sent: Valve CLOSE")]
    else if text == CheckStatusButton then
      match FormatStatus(s, show, now)
      case Some(msg) => [Reply(msg)]
      case None => []
    else []
  }

  /** Any other chat gets nothing from the buttons and only the refusal
      from `/start`; the operator's chat gets the welcome. */
  lemma AuthorizationGate(authorized: int, s: Stores, chatId: int, text: string, show: Json -> string, now: string)
    ensures chatId != authorized ==> OnCommand(authorized, s, chatId, text, show, now) == []
    ensures OnStart(authorized, chatId) == [Reply(UnauthorizedReply)] <==> chatId != authorized
  {
    assert UnauthorizedReply[0] == '⛔' && WelcomeReply[0] == '👋';
  }

  /** The button table: each actuator button publishes its payload once on
      its own control topic and confirms, "Check Status" publishes nothing
      and answers with the formatted report when one can be made, other text
      does nothing, and no button ever publishes anything but `"ON"`/`"OFF"`
      on the two control topics. */
  lemma CommandTable(authorized: int, s: Stores, text: string, show: Json -> string, now: string)
    ensures var r := OnCommand(authorized, s, authorized, text, show, now);
      && (text == BuzzerOnButton ==> r == [Publish(TopicPubBuzzer, "ON"), Reply("✅ Sent: Buzzer ON")])
      && (text == BuzzerOffButton ==> r == [Publish(TopicPubBuzzer, "OFF"), Reply("✅ Sent: Buzzer OFF")])
      && (text == ValveOpenButton ==> r == [Publish(TopicPubValve, "ON"), Reply("✅ Sent: Valve OPEN")])
      && (text == ValveCloseButton ==> r == [Publish(TopicPubValve, "OFF"), Reply("✅ Sent: Valve CLOSE")])
      && (text == CheckStatusButton ==>
            && (r != [] <==> ReadStatus(s).Some?)
            && r == (if FormatStatus(s, show, now).Some? then [Reply(FormatStatus(s, show, now).value)] else []))
      && (text !in {BuzzerOnButton, BuzzerOffButton, ValveOpenButton, ValveCloseButton, CheckStatusButton} ==> r == [])
      && forall a :: a in r && a.Publish? ==>
           a.topic in {TopicPubBuzzer, TopicPubValve} && a.payload in {"ON", "OFF"}
  {
    LiteralsDiffer();
  }

  /** One MQTT message as the bridge receives it. */
  datatype Delivery = Delivery(topic: string, decoded: Option<Json>, deliverable: bool)

  /** The bridge's reaction to one message. */
  function Sensors(chat: int): (Stores, Delivery) -> Step {
    (s: Stores, d: Delivery) => Ingest(chat, s, d.topic, d.decoded, d.deliverable)
  }

  /** The last record that decoded on `topic`, or `init` when there is none. */
  function LastRecord(topic: string, ds: seq<Delivery>, init: Json): Json {
    if ds == [] then init
    else
      var d := ds[|ds| - 1];
      if d.topic == topic && d.decoded.Some? then d.decoded.value else LastRecord(topic, ds[..|ds| - 1], init)
  }

  /** After any sequence of messages, each store holds the last record that
      decoded on its topic, or what it held before when there was none. */
  lemma {:induction false} LastRecordWins(chat: int, s: Stores, ds: seq<Delivery>)
    ensures Run(Sensors(chat), s, ds).state
         == Stores(LastRecord(TopicSubFlame, ds, s.flame),
                   LastRecord(TopicSubGas, ds, s.gas),
                   LastRecord(TopicSubState, ds, s.state))
    decreases |ds|
  {
    if ds != [] {
      var init := ds[..|ds| - 1];
      var d := ds[|ds| - 1];
      assert ds == init + [d];
      LastRecordWins(chat, s, init);
      RunAppend(Sensors(chat), s, init, [d]);
      var mid := Run(Sensors(chat), s, init).state;
      RunOne(Sensors(chat), mid, d);
      TopicsDiffer();
    }
  }

  /** How many messages in `ds` should raise a FIRE DETECTED alert: alarming
      flame records that arrive while the chat side is up. */
  function FireAlarms(ds: seq<Delivery>): nat {
    if ds == [] then 0
    else
      var d := ds[0];
      (if d.topic == TopicSubFlame && d.decoded.Some? && d.deliverable && ReportsAlarm(d.decoded.value) then 1 else 0)
      + FireAlarms(ds[1..])
  }

  /** Every alarming flame record delivered while the chat side is up raises
      one FIRE DETECTED alert, and nothing else does. */
  lemma {:induction false} FireAlertCount(chat: int, s: Stores, ds: seq<Delivery>)
    ensures multiset(Run(Sensors(chat), s, ds).actions)[Send(chat, FireAlert)] == FireAlarms(ds)
    decreases |ds|
  {
    if ds != [] {
      var d := ds[0];
      var first := Ingest(chat, s, d.topic, d.decoded, d.deliverable);
      FireAlertCount(chat, first.state, ds[1..]);
      LiteralsDiffer();
      if d.decoded.Some? && d.topic == TopicSubFlame {
        FlameMessage(chat, s, d.decoded.value, d.deliverable);
      } else if d.decoded.Some? && d.topic == TopicSubGas {
        TopicsDiffer();
        GasMessage(chat, s, d.decoded.value, d.deliverable);
      }
      assert multiset(first.actions)[Send(chat, FireAlert)]
          == if d.topic == TopicSubFlame && d.decoded.Some? && d.deliverable && ReportsAlarm(d.decoded.value) then 1 else 0;
    }
  }

  /** The bridge process: the operator's chat id and the three stores. */
  class JsonBridge {
    const authorizedChatId: int
    var latestFlame: Json
    var latestGas: Json
    var latestState: Json

    constructor (authorizedChatId: int)
      ensures this.authorizedChatId == authorizedChatId
      ensures Snapshot() == EmptyStores
    {
      this.authorizedChatId := authorizedChatId;
      latestFlame := EmptyObject;
      latestGas := EmptyObject;
      latestState := EmptyObject;
    }

    function Snapshot(): Stores
      reads this
    {
      Stores(latestFlame, latestGas, latestState)
    }

    /** MQTT `on_message` for the three sensor topics. */
    method OnMessage(topic: string, payload: Bytes, decode: Bytes -> Option<Json>, deliverable: bool)
      returns (alerts: seq<Action>)
      modifies this
      ensures Outcome(Snapshot(), alerts) == Ingest(authorizedChatId, old(Snapshot()), topic, decode(payload), deliverable)
    {
      alerts := [];
      var decoded := decode(payload);
      if decoded.None? {
        return;
      }
      var data := decoded.value;
      if topic == TopicSubFlame {
        latestFlame := data;
        alerts := AlertFor(authorizedChatId, data, FireAlert, deliverable);
      } else if topic == TopicSubGas {
        latestGas := data;
        alerts := AlertFor(authorizedChatId, data, GasAlert, deliverable);
      } else if topic == TopicSubState {
        latestState := data;
      }
    }

    /** Telegram handler for the keyboard buttons; it reads the stores and
        changes nothing. */
    method HandleCommands(chatId: int, text: string, show: Json -> string, now: string)
      returns (actions: seq<Action>)
      ensures actions == OnCommand(authorizedChatId, Snapshot(), chatId, text, show, now)
    {
      actions := [];
      if chatId != authorizedChatId {
        return;
      }
      if text == BuzzerOnButton {
        actions := [Publish(TopicPubBuzzer, "ON"), Reply("✅ Sent: Buzzer ON")];
      } else if text == BuzzerOffButton {
        actions := [Publish(TopicPubBuzzer, "OFF"), Reply("✅ Sent: Buzzer OFF")];
      } else if text == ValveOpenButton {
        actions := [Publish(TopicPubValve, "ON"), Reply("✅ Sent: Valve OPEN")];
      } else if text == ValveCloseButton {
        actions := [Publish(TopicPubValve, "OFF"), Reply("✅ Sent: Valve CLOSE")];
      } else if text == CheckStatusButton {
        var msg := FormatStatus(Snapshot(), show, now);
        if msg.Some? {
          actions := [Reply(msg.value)];
        }
      }
    }

    /** Telegram `/start`. */
    method Start(chatId: int) returns (actions: seq<Action>)
      ensures actions == OnStart(authorizedChatId, chatId)
    {
      if chatId != authorizedChatId {
        actions := [Reply(UnauthorizedReply)];
        return;
      }
      actions := [Reply(WelcomeReply)];
    }
  }
}
