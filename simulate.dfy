/** The virtual device (simulate.py). It stands in for the ESP32: it obeys
    ON/OFF commands for its buzzer and valve, answering each command with its
    actuator state, and once per iteration of its main loop publishes a flame
    reading, a gas reading and its actuator state, with alarms raised on a
    fixed 30-iteration schedule. */
module Simulator {
  import opened Json
  import opened Effects
  import opened Traces

  const DeviceId := "esp32_01"

  const TopicPubFlame := "fire_alarm/esp32_01/sensor/flame"
  const TopicPubGas := "fire_alarm/esp32_01/sensor/gas"
  const TopicPubState := "fire_alarm/esp32_01/sensor/state"
  const TopicSubBuzzer := "fire_alarm/esp32_01/control/buzzer"
  const TopicSubValve := "fire_alarm/esp32_01/control/valve"

  const AutoMode := "AUTO"
  const ManualMode := "MANUAL (10s)"

  /** The two command topics differ in the character after the common
      prefix `fire_alarm/esp32_01/control/`. */
  lemma CommandTopicsDiffer()
    ensures TopicSubBuzzer != TopicSubValve
  {
    assert TopicSubBuzzer[28] == 'b' && TopicSubValve[28] == 'v';
  }

  /** `buzzer_state`, `valve_state` and `current_mode`. */
  datatype Device = Device(buzzer: bool, valve: bool, mode: string)

  const InitialDevice := Device(false, false, AutoMode)

  /** An actuator after a command payload: `"ON"` switches it on, `"OFF"`
      off, and anything else leaves it as it was. */
  function Actuate(current: bool, payload: string): bool {
    if payload == "ON" then true
    else if payload == "OFF" then false
    else current
  }

  /** The actuator command vocabulary. */
  lemma ActuateTable(current: bool, payload: string)
    ensures Actuate(current, "ON") && !Actuate(current, "OFF")
    ensures payload != "ON" && payload != "OFF" ==> Actuate(current, payload) == current
    ensures Actuate(current, payload) != current ==> payload == (if current then "OFF" else "ON")
  {
  }

  /** `publish_state`: the record with the device id, the time in whole
      seconds and the two actuator states. */
  function StateRecord(buzzer: bool, valve: bool, timestamp: int): Json {
    JObject(map[ "device_id" := JString(DeviceId), "timestamp" := JInt(timestamp),
                 "BUZZER_State" := JBool(buzzer), "VALVE_State" := JBool(valve) ])
  }

  /** The state record carries the device id, the time and exactly the
      two actuator states it was built from, under the keys the bridge reads. */
  lemma StateRecordFields(buzzer: bool, valve: bool, timestamp: int)
    ensures var r := StateRecord(buzzer, valve, timestamp);
      && r.JObject? && r.fields.Keys == {"device_id", "timestamp", "BUZZER_State", "VALVE_State"}
      && r.fields["device_id"] == JString(DeviceId) && r.fields["timestamp"] == JInt(timestamp)
      && r.fields["BUZZER_State"] == JBool(buzzer) && r.fields["VALVE_State"] == JBool(valve)
  {
  }

  type Step = Outcome<Device, Action>

  /** `on_message`: a command payload (already decoded) on the buzzer or the
      valve topic drives that actuator; whatever arrives switches the mode
      to manual and publishes the state, stamped with `timestamp`. */
  function Receive(d: Device, topic: string, payload: string, timestamp: int): Step {
    var buzzer := if topic == TopicSubBuzzer then Actuate(d.buzzer, payload) else d.buzzer;
    var valve := if topic != TopicSubBuzzer && topic == TopicSubValve then Actuate(d.valve, payload) else d.valve;
    Outcome(Device(buzzer, valve, ManualMode), [PublishJson(TopicPubState, StateRecord(buzzer, valve, timestamp))])
  }

  /** A buzzer command drives the buzzer alone: `"ON"` on, `"OFF"` off,
      anything else unchanged; the valve is untouched. */
  lemma BuzzerCommand(d: Device, payload: string, timestamp: int)
    ensures var r := Receive(d, TopicSubBuzzer, payload, timestamp);
      && r.state.valve == d.valve
      && (payload == "ON" ==> r.state.buzzer)
      && (payload == "OFF" ==> !r.state.buzzer)
      && (payload != "ON" && payload != "OFF" ==> r.state.buzzer == d.buzzer)
  {
  }

  /** A valve command drives the valve alone: `"ON"` open, `"OFF"` closed,
      anything else unchanged; the buzzer is untouched. */
  lemma ValveCommand(d: Device, payload: string, timestamp: int)
    ensures var r := Receive(d, TopicSubValve, payload, timestamp);
      && r.state.buzzer == d.buzzer
      && (payload == "ON" ==> r.state.valve)
      && (payload == "OFF" ==> !r.state.valve)
      && (payload != "ON" && payload != "OFF" ==> r.state.valve == d.valve)
  {
    CommandTopicsDiffer();
  }

  /** A message on any other topic moves neither actuator. */
  lemma OtherTopicKeepsActuators(d: Device, topic: string, payload: string, timestamp: int)
    requires topic != TopicSubBuzzer && topic != TopicSubValve
    ensures var r := Receive(d, topic, payload, timestamp);
      r.state.buzzer == d.buzzer && r.state.valve == d.valve
  {
  }

  /** Every message, recognised or not, switches to manual mode and
      publishes exactly one state record, stamped with the message's time,
      which reports the new actuator states. */
  lemma EveryMessageReported(d: Device, topic: string, payload: string, timestamp: int)
    ensures var r := Receive(d, topic, payload, timestamp);
      && r.state.mode == ManualMode
      && r.actions == [PublishJson(TopicPubState, StateRecord(r.state.buzzer, r.state.valve, timestamp))]
      && r.actions[0].record.fields["BUZZER_State"] == JBool(r.state.buzzer)
      && r.actions[0].record.fields["VALVE_State"] == JBool(r.state.valve)
  {
    StateRecordFields(Receive(d, topic, payload, timestamp).state.buzzer, Receive(d, topic, payload, timestamp).state.valve, timestamp);
  }

  /** One command as the device receives it. */
  datatype Command = Command(topic: string, payload: string, timestamp: int)

  /** The device's reaction to one command. */
  function Commands(): (Device, Command) -> Step {
    (d: Device, c: Command) => Receive(d, c.topic, c.payload, c.timestamp)
  }

  /** The actuator on `topic` after `cs`: the last `"ON"` or `"OFF"` sent
      on that topic decides, and with none it is `init`. */
  function LastSetting(topic: string, cs: seq<Command>, init: bool): bool {
    if cs == [] then init
    else
      var c := cs[|cs| - 1];
      if c.topic == topic && c.payload == "ON" then true
      else if c.topic == topic && c.payload == "OFF" then false
      else LastSetting(topic, cs[..|cs| - 1], init)
  }

  /** After any sequence of commands, each actuator follows the last
      recognised command on its own topic. */
  lemma {:induction false} LastSettingWins(d: Device, cs: seq<Command>)
    ensures var r := Run(Commands(), d, cs).state;
      && r.buzzer == LastSetting(TopicSubBuzzer, cs, d.buzzer)
      && r.valve == LastSetting(TopicSubValve, cs, d.valve)
    decreases |cs|
  {
    if cs != [] {
      var init := cs[..|cs| - 1];
      var c := cs[|cs| - 1];
      assert cs == init + [c];
      LastSettingWins(d, init);
      RunAppend(Commands(), d, init, [c]);
      var mid := Run(Commands(), d, init).state;
      RunOne(Commands(), mid, c);
      CommandTopicsDiffer();
    }
  }

  /** A sensor's digital output (`DO_State`, 0 = hazard) and analog value
      (`AO_Value`). */
  datatype Reading = Reading(level: int, analog: int)

  /** The flame sensor in iteration `counter`: low at 500 for
      `15 <= counter % 30 <= 20`, otherwise high at the random `noise`. */
  function FlameReading(counter: nat, noise: int): Reading {
    if 15 <= counter % 30 <= 20 then Reading(0, 500) else Reading(1, noise)
  }

  /** The gas sensor in iteration `counter`: low at 3500 for
      `25 <= counter % 30 <= 28`, otherwise high at the random `noise`. */
  function GasReading(counter: nat, noise: int): Reading {
    if 25 <= counter % 30 <= 28 then Reading(0, 3500) else Reading(1, noise)
  }

  /** The record published for one sensor reading. */
  function SensorRecord(r: Reading, timestamp: int): Json {
    JObject(map[ "device_id" := JString(DeviceId), "timestamp" := JInt(timestamp),
                 "DO_State" := JInt(r.level), "AO_Value" := JInt(r.analog) ])
  }

  /** What one iteration of the loop draws from the outside: the time read
      at the top of the iteration, the time `publish_state` reads, and the
      two `random.randint` values. */
  datatype Tick = Tick(timestamp: int, stateTimestamp: int, flameNoise: int, gasNoise: int)

  /** `randint(3000, 4095)` and `randint(0, 1000)` stay in their ranges. */
  predicate NoiseInRange(t: Tick) {
    3000 <= t.flameNoise <= 4095 && 0 <= t.gasNoise <= 1000
  }

  /** The three publishes of iteration `counter`: flame, then gas, then
      the actuator state. */
  function Frame(counter: nat, t: Tick, buzzer: bool, valve: bool): seq<Action> {
    [ PublishJson(TopicPubFlame, SensorRecord(FlameReading(counter, t.flameNoise), t.timestamp)),
      PublishJson(TopicPubGas, SensorRecord(GasReading(counter, t.gasNoise), t.timestamp)),
      PublishJson(TopicPubState, StateRecord(buzzer, valve, t.stateTimestamp)) ]
  }

  /** Everything published by the iterations `0 .. |ticks| - 1`, in order. */
  function Frames(ticks: seq<Tick>, buzzer: bool, valve: bool): seq<Action>
    decreases |ticks|
  {
    if ticks == [] then []
    else Frames(ticks[..|ticks| - 1], buzzer, valve) + Frame(|ticks| - 1, ticks[|ticks| - 1], buzzer, valve)
  }

  /** Iteration `k` publishes exactly the three actions at `3k .. 3k + 2`:
      the counter goes up by one per iteration and each iteration publishes
      three times. */
  lemma {:induction false} FrameAt(ticks: seq<Tick>, buzzer: bool, valve: bool, k: nat)
    requires k < |ticks|
    ensures |Frames(ticks, buzzer, valve)| == 3 * |ticks|
    ensures Frames(ticks, buzzer, valve)[3 * k .. 3 * k + 3] == Frame(k, ticks[k], buzzer, valve)
    decreases |ticks|
  {
    var init := ticks[..|ticks| - 1];
    if k < |init| {
      FrameAt(init, buzzer, valve, k);
      assert init[k] == ticks[k];
    } else {
      if init != [] {
        FrameAt(init, buzzer, valve, 0);
      }
      assert Frames(ticks, buzzer, valve) == Frames(init, buzzer, valve) + Frame(k, ticks[k], buzzer, valve);
    }
  }

  /** The flame output is low exactly in the window `15 .. 20` of every 30
      iterations, reading 500 there and the random value elsewhere. */
  lemma FlameWindow(counter: nat, noise: int)
    ensures var r := FlameReading(counter, noise);
      && (r.level == 0 <==> 15 <= counter % 30 <= 20)
      && (r.level == 0 ==> r.analog == 500)
      && (r.level != 0 ==> r.level == 1 && r.analog == noise)
  {
  }

  /** The gas output is low exactly in the window `25 .. 28` of every 30
      iterations, reading 3500 there and the random value elsewhere. */
  lemma GasWindow(counter: nat, noise: int)
    ensures var r := GasReading(counter, noise);
      && (r.level == 0 <==> 25 <= counter % 30 <= 28)
      && (r.level == 0 ==> r.analog == 3500)
      && (r.level != 0 ==> r.level == 1 && r.analog == noise)
  {
  }

  /** No iteration reports both hazards. */
  lemma WindowsDisjoint(counter: nat, flameNoise: int, gasNoise: int)
    ensures FlameReading(counter, flameNoise).level == 1 || GasReading(counter, gasNoise).level == 1
  {
  }

  /** Outside their windows the analog values are the safe ones: flame in
      `[3000, 4095]`, gas in `[0, 1000]`; inside, they are out of those
      ranges. */
  lemma SafeRanges(counter: nat, t: Tick)
    requires NoiseInRange(t)
    ensures var f := FlameReading(counter, t.flameNoise);
      f.level == 1 <==> 3000 <= f.analog <= 4095
    ensures var g := GasReading(counter, t.gasNoise);
      g.level == 1 <==> 0 <= g.analog <= 1000
  {
  }

  /** The schedule repeats every 30 iterations. */
  lemma {:induction false} SchedulePeriodic(counter: nat, n: nat, flameNoise: int, gasNoise: int)
    ensures FlameReading(counter + 30 * n, flameNoise) == FlameReading(counter, flameNoise)
    ensures GasReading(counter + 30 * n, gasNoise) == GasReading(counter, gasNoise)
  {
    if n > 0 {
      SchedulePeriodic(counter, n - 1, flameNoise, gasNoise);
      assert counter + 30 * n == (counter + 30 * (n - 1)) + 30;
    }
  }

  /** The device process: `buzzer_state`, `valve_state`, `current_mode`. */
  class VirtualDevice {
    var buzzerState: bool
    var valveState: bool
    var currentMode: string

    constructor ()
      ensures Snapshot() == InitialDevice
    {
      buzzerState := false;
      valveState := false;
      currentMode := AutoMode;
    }

    function Snapshot(): Device
      reads this
    {
      Device(buzzerState, valveState, currentMode)
    }

    /** MQTT `on_message` for the two command topics; `timestamp` is the
        time `publish_state` reads. */
    method OnMessage(topic: string, payload: string, timestamp: int) returns (published: seq<Action>)
      modifies this
      ensures Outcome(Snapshot(), published) == Receive(old(Snapshot()), topic, payload, timestamp)
    {
      if topic == TopicSubBuzzer {
        if payload == "ON" {
          buzzerState := true;
        } else if payload == "OFF" {
          buzzerState := false;
        }
      } else if topic == TopicSubValve {
        if payload == "ON" {
          valveState := true;
        } else if payload == "OFF" {
          valveState := false;
        }
      }
      currentMode := ManualMode;
      published := [PublishJson(TopicPubState, StateRecord(buzzerState, valveState, timestamp))];
    }

    /** `simulation_loop`, run for one iteration per element of `ticks`
        (`simulation_loop` runs forever); it reads the actuators and changes
        nothing. */
    method SimulationLoop(ticks: seq<Tick>) returns (published: seq<Action>)
      ensures published == Frames(ticks, buzzerState, valveState)
      ensures |published| == 3 * |ticks|
    {
      published := [];
      var counter := 0;
      while counter < |ticks|
        invariant 0 <= counter <= |ticks|
        invariant published == Frames(ticks[..counter], buzzerState, valveState)
      {
        var t := ticks[counter];
        var flame := FlameReading(counter, t.flameNoise);
        var gas := GasReading(counter, t.gasNoise);
        published := published + [PublishJson(TopicPubFlame, SensorRecord(flame, t.timestamp))];
        published := published + [PublishJson(TopicPubGas, SensorRecord(gas, t.timestamp))];
        published := published + [PublishJson(TopicPubState, StateRecord(buzzerState, valveState, t.stateTimestamp))];
        assert ticks[..counter + 1][..counter] == ticks[..counter];
        counter := counter + 1;
      }
      assert ticks[..|ticks|] == ticks;
      if ticks != [] {
        FrameAt(ticks, buzzerState, valveState, 0);
      }
    }
  }
}
