/** The JSON-sensor bridge (bot/bot.py) and the virtual device (simulate.py)
    talking to each other over MQTT: the device's sensor and state topics are
    the bridge's subscriptions, and the bridge's control topics are the
    device's. JSON encoding followed by decoding is taken to give the record
    back. */
module EndToEnd {
  import opened Wrappers
  import opened Json
  import opened Text
  import opened Effects
  import opened Traces
  import Bot
  import Simulator

  /** The two programs agree on all five topics. */
  lemma TopicsAgree()
    ensures Simulator.TopicPubFlame == Bot.TopicSubFlame
    ensures Simulator.TopicPubGas == Bot.TopicSubGas
    ensures Simulator.TopicPubState == Bot.TopicSubState
    ensures Simulator.TopicSubBuzzer == Bot.TopicPubBuzzer
    ensures Simulator.TopicSubValve == Bot.TopicPubValve
  {
  }

  /** A device publish as the bridge receives it, with the chat side up.
      The device publishes only JSON records. */
  function Deliver(a: Action): Bot.Delivery
    requires a.PublishJson?
  {
    Bot.Delivery(a.topic, Some(a.record), true)
  }

  function DeliverAll(actions: seq<Action>): (ds: seq<Bot.Delivery>)
    requires forall i :: 0 <= i < |actions| ==> actions[i].PublishJson?
    ensures |ds| == |actions|
    ensures forall i :: 0 <= i < |actions| ==> ds[i] == Deliver(actions[i])
  {
    if actions == [] then [] else [Deliver(actions[0])] + DeliverAll(actions[1..])
  }

  /** The bridge's run over one device iteration: the three stores take
      the three records, and the alerts are those of the flame record
      followed by those of the gas record. */
  lemma {:induction false} IterationRun(chat: int, s: Bot.Stores, k: nat, t: Simulator.Tick, buzzer: bool, valve: bool)
    ensures var fr := Simulator.SensorRecord(Simulator.FlameReading(k, t.flameNoise), t.timestamp);
      var gr := Simulator.SensorRecord(Simulator.GasReading(k, t.gasNoise), t.timestamp);
      var sr := Simulator.StateRecord(buzzer, valve, t.stateTimestamp);
      Run(Bot.Sensors(chat), s, DeliverAll(Simulator.Frame(k, t, buzzer, valve)))
      == Outcome(Bot.Stores(fr, gr, sr),
                 Bot.AlertFor(chat, fr, Bot.FireAlert, true) + Bot.AlertFor(chat, gr, Bot.GasAlert, true))
  {
    var ds := DeliverAll(Simulator.Frame(k, t, buzzer, valve));
    var step := Bot.Sensors(chat);
    var fr := Simulator.SensorRecord(Simulator.FlameReading(k, t.flameNoise), t.timestamp);
    var gr := Simulator.SensorRecord(Simulator.GasReading(k, t.gasNoise), t.timestamp);
    var sr := Simulator.StateRecord(buzzer, valve, t.stateTimestamp);
    TopicsAgree();
    assert ds == [Bot.Delivery(Bot.TopicSubFlame, Some(fr), true)] + [Bot.Delivery(Bot.TopicSubGas, Some(gr), true)]
               + [Bot.Delivery(Bot.TopicSubState, Some(sr), true)];
    Bot.TopicsDiffer();
    var s1 := s.(flame := fr);
    var s2 := s1.(gas := gr);
    var a1 := Bot.AlertFor(chat, fr, Bot.FireAlert, true);
    var a2 := Bot.AlertFor(chat, gr, Bot.GasAlert, true);
    RunOne(step, s, ds[0]);
    assert Run(step, s, [ds[0]]) == Outcome(s1, a1);
    RunOne(step, s1, ds[1]);
    assert Run(step, s1, [ds[1]]) == Outcome(s2, a2);
    RunOne(step, s2, ds[2]);
    assert Run(step, s2, [ds[2]]) == Outcome(Bot.Stores(fr, gr, sr), []);
    RunAppend(step, s, [ds[0]], [ds[1]]);
    RunAppend(step, s, [ds[0]] + [ds[1]], [ds[2]]);
    assert a1 + a2 + [] == a1 + a2;
  }

  /** One iteration of the device loop, received by the bridge: a FIRE
      DETECTED alert goes out exactly in the flame window, a GAS LEAK
      DETECTED alert exactly in the gas window, never both, and the stores
      then hold the iteration's three records. */
  lemma IterationAlerts(chat: int, s: Bot.Stores, k: nat, t: Simulator.Tick, buzzer: bool, valve: bool)
    ensures var r := Run(Bot.Sensors(chat), s, DeliverAll(Simulator.Frame(k, t, buzzer, valve)));
      && (r.actions == [Send(chat, Bot.FireAlert)] <==> 15 <= k % 30 <= 20)
      && (r.actions == [Send(chat, Bot.GasAlert)] <==> 25 <= k % 30 <= 28)
      && (r.actions == [] <==> !(15 <= k % 30 <= 20) && !(25 <= k % 30 <= 28))
      && r.state == Bot.Stores(Simulator.SensorRecord(Simulator.FlameReading(k, t.flameNoise), t.timestamp),
                               Simulator.SensorRecord(Simulator.GasReading(k, t.gasNoise), t.timestamp),
                               Simulator.StateRecord(buzzer, valve, t.stateTimestamp))
  {
    IterationRun(chat, s, k, t, buzzer, valve);
    var fr := Simulator.SensorRecord(Simulator.FlameReading(k, t.flameNoise), t.timestamp);
    var gr := Simulator.SensorRecord(Simulator.GasReading(k, t.gasNoise), t.timestamp);
    var a1 := Bot.AlertFor(chat, fr, Bot.FireAlert, true);
    var a2 := Bot.AlertFor(chat, gr, Bot.GasAlert, true);
    var r := Run(Bot.Sensors(chat), s, DeliverAll(Simulator.Frame(k, t, buzzer, valve)));
    assert r.actions == a1 + a2;
    Simulator.FlameWindow(k, t.flameNoise);
    Simulator.GasWindow(k, t.gasNoise);
    Simulator.WindowsDisjoint(k, t.flameNoise, t.gasNoise);
    Bot.LiteralsDiffer();
    if 15 <= k % 30 <= 20 {
      assert a1 == [Send(chat, Bot.FireAlert)] && a2 == [];
    } else if 25 <= k % 30 <= 28 {
      assert a1 == [] && a2 == [Send(chat, Bot.GasAlert)];
      assert r.actions[0] != Send(chat, Bot.FireAlert);
    } else {
      assert a1 == [] && a2 == [];
    }
  }

  /** After one iteration has reached the bridge, "Check Status" reports
      what the device published: the flame and gas alarms of its windows,
      their analog values, and the device's actual buzzer and valve. */
  lemma IterationReported(chat: int, s: Bot.Stores, k: nat, t: Simulator.Tick, buzzer: bool, valve: bool,
                          show: Json -> string, now: string)
    ensures var r := Run(Bot.Sensors(chat), s, DeliverAll(Simulator.Frame(k, t, buzzer, valve)));
      var f := Simulator.FlameReading(k, t.flameNoise);
      var g := Simulator.GasReading(k, t.gasNoise);
      var report := Bot.StatusReport(Bot.Reading(15 <= k % 30 <= 20, JInt(f.analog)),
                                     Bot.Reading(25 <= k % 30 <= 28, JInt(g.analog)),
                                     buzzer, valve);
      var ls := Bot.StatusLines(report, show, now);
      && Bot.ReadStatus(r.state) == Some(report)
      && Bot.FormatStatus(r.state, show, now) == Some(JoinLines(ls))
      && (ls[2] == Bot.FlameLabel + Bot.FireWord + " (Val: " + show(JInt(f.analog)) + ")" <==> 15 <= k % 30 <= 20)
      && (ls[3] == Bot.GasLabel + Bot.LeakWord + " (Val: " + show(JInt(g.analog)) + ")" <==> 25 <= k % 30 <= 28)
      && (ls[5] == Bot.BuzzerLabel + "ON" <==> buzzer)
      && (ls[6] == Bot.ValveLabel + "OPEN" <==> valve)
  {
    var f := Simulator.FlameReading(k, t.flameNoise);
    var g := Simulator.GasReading(k, t.gasNoise);
    IterationRead(chat, s, k, t, buzzer, valve);
    Bot.ReportLines(Bot.StatusReport(Bot.Reading(15 <= k % 30 <= 20, JInt(f.analog)),
                                     Bot.Reading(25 <= k % 30 <= 28, JInt(g.analog)),
                                     buzzer, valve), show, now);
  }

  /** What the bridge reads out of its stores after one iteration. */
  lemma IterationRead(chat: int, s: Bot.Stores, k: nat, t: Simulator.Tick, buzzer: bool, valve: bool)
    ensures var r := Run(Bot.Sensors(chat), s, DeliverAll(Simulator.Frame(k, t, buzzer, valve)));
      var f := Simulator.FlameReading(k, t.flameNoise);
      var g := Simulator.GasReading(k, t.gasNoise);
      Bot.ReadStatus(r.state)
      == Some(Bot.StatusReport(Bot.Reading(15 <= k % 30 <= 20, JInt(f.analog)),
                               Bot.Reading(25 <= k % 30 <= 28, JInt(g.analog)),
                               buzzer, valve))
  {
    IterationAlerts(chat, s, k, t, buzzer, valve);
    var f := Simulator.FlameReading(k, t.flameNoise);
    var g := Simulator.GasReading(k, t.gasNoise);
    SensorRecordRead(f, t.timestamp);
    SensorRecordRead(g, t.timestamp);
    Simulator.FlameWindow(k, t.flameNoise);
    Simulator.GasWindow(k, t.gasNoise);
    StateRecordRead(buzzer, valve, t.stateTimestamp);
  }

  /** The bridge reads a device sensor record as its level and value. */
  lemma SensorRecordRead(r: Simulator.Reading, timestamp: int)
    ensures Bot.ReadSensor(Simulator.SensorRecord(r, timestamp)) == Some(Bot.Reading(r.level == 0, JInt(r.analog)))
  {
  }

  /** The bridge reads a device state record as its two actuators. */
  lemma StateRecordRead(buzzer: bool, valve: bool, timestamp: int)
    ensures var rec := Simulator.StateRecord(buzzer, valve, timestamp);
      && Get(rec, "BUZZER_State", JBool(false)) == Some(JBool(buzzer))
      && Get(rec, "VALVE_State", JBool(false)) == Some(JBool(valve))
  {
    Simulator.StateRecordFields(buzzer, valve, timestamp);
  }

  /** Each actuator button of the bridge, delivered to the device, puts
      that actuator where the button says and leaves the other alone. */
  lemma ButtonsDriveDevice(authorized: int, s: Bot.Stores, text: string, show: Json -> string, now: string,
                           d: Simulator.Device, timestamp: int)
    requires text in {Bot.BuzzerOnButton, Bot.BuzzerOffButton, Bot.ValveOpenButton, Bot.ValveCloseButton}
    ensures var a := Bot.OnCommand(authorized, s, authorized, text, show, now)[0];
      var r := Simulator.Receive(d, a.topic, a.payload, timestamp).state;
      && (text == Bot.BuzzerOnButton ==> r.buzzer && r.valve == d.valve)
      && (text == Bot.BuzzerOffButton ==> !r.buzzer && r.valve == d.valve)
      && (text == Bot.ValveOpenButton ==> r.valve && r.buzzer == d.buzzer)
      && (text == Bot.ValveCloseButton ==> !r.valve && r.buzzer == d.buzzer)
  {
    Bot.CommandTable(authorized, s, text, show, now);
    TopicsAgree();
    var a := Bot.OnCommand(authorized, s, authorized, text, show, now)[0];
    Simulator.BuzzerCommand(d, a.payload, timestamp);
    Simulator.ValveCommand(d, a.payload, timestamp);
  }
}
