# Fire-alarm MQTT ↔ Telegram bridge, modelled in Dafny

The system links a fire-alarm device that speaks MQTT with one operator on
Telegram. It comes in two bridge variants and a virtual device:

- **Compact-status bridge** (`telebot/main.py`, module `Telebot`). The device
  reports one composite status `"x1 x2 x3"` (fire level, water valve, siren).
  The bridge pushes alarms to the operator at once. It hides the all-clear
  status 0 unless the operator asked for it with "Check Status". A one-bit
  flag, `is_waiting_for_status`, remembers that request until a message
  actually goes out. The operator's buttons become publishes on one command
  topic.
- **JSON-sensor bridge** (`bot/bot.py`, module `Bot`). It keeps the latest
  JSON record of the flame, gas and actuator-state topics. It pushes FIRE /
  GAS LEAK alerts when a record's `DO_State` is 0. It answers "Check Status"
  with a report over the three records, using safe defaults for missing
  fields. Its buttons publish ON/OFF on a buzzer and a valve control topic.
- **Virtual device** (`simulate.py`, module `Simulator`). An ON/OFF
  state machine for a buzzer and a valve, which reports its state after
  every command. A loop publishes flame, gas and state records, with alarm
  windows fixed by `counter % 30`.

Every effect is a value of `Effects.Action`:

- `Publish` and `PublishJson` are MQTT publishes;
- `Send` is a push to a chat;
- `Reply` is an answer in the sender's chat.

Each handler is a pure step function from state and event to new state and
actions. A class per process holds the module globals as fields. Its
methods update those fields and are proved equal to the step functions.
`Traces.Run` folds a step function over a sequence of events, which lets
lemmas state properties of whole message sequences.

Supporting modules:

- `Text` models Python's `str.split()` and `str.strip()` over the whitespace
  set of `str.isspace()`.
- `Json` models decoded JSON values with `dict.get`, `== 0` and truthiness.
- `EndToEnd` connects the virtual device to the JSON bridge.

Three behaviours of the code are easy to miss; the model follows the code:

- **Non-dictionary records are stored.** In `bot/bot.py:118-129` a record
  that decodes as JSON but is not an object (for instance `[1]` or `5`) is
  still assigned to its store before `.get` raises. The exception is caught,
  so the message is not discarded as a malformed one. Until a dictionary
  record replaces it, the status report raises too, and "Check Status" gets
  no answer.
  `Bot.NonDictionaryRecordStored` states this.
- **A forced status needs the loop to be running.** In the compact bridge, a
  forced status-0 message is pushed, and the flag cleared, only when the
  chat side's event loop is running (`telebot/main.py:132`). Otherwise the
  message is dropped and the flag stays set.
- **The compact bridge can run without a sender check.** Its sender check is
  skipped entirely when `AUTHORIZED_CHAT_ID` is 0 (`telebot/main.py:175`).
  The JSON bridge always checks the sender.

## Model

| member | source | states |
|---|---|---|
| Text.Split | telebot/main.py:55 | defines `payload_str.split()` as the maximal runs of non-whitespace; its properties are the rows Text.SplitTokens, Text.SplitStrip and Telebot.CompactPayload |
| Text.SplitTokens | telebot/main.py:55 | `payload_str.split()`: every element is a non-empty run of non-whitespace characters |
| Text.Strip | telebot/main.py:125 | `.strip()`: the result is no longer than the input and neither starts nor ends with whitespace |
| Text.StripSlice | telebot/main.py:125 | `.strip()` keeps one contiguous piece of the input, starting where the leading whitespace ends, and everything it drops before and after that piece is whitespace |
| Text.SplitStrip | telebot/main.py:125 | stripping before splitting never changes the tokens |
| Telebot.ParseAndFormat | telebot/main.py:47-109 | defines `parse_and_format`; its properties are the rows Telebot.TooFewTokensSuppressed, Telebot.ShownIff, Telebot.HeaderByStatus, Telebot.ValveAndSirenLines, Telebot.EchoAndCodeLines and Telebot.OnlyThreeTokensMatter |
| Telebot.OnStatusMessage | telebot/main.py:121-146 | defines the compact bridge's `on_message` step; its properties are the rows from Telebot.PendingClearedIffSent to Telebot.AlertAlwaysSent and the trace rows |
| Telebot.OnCommand | telebot/main.py:169-193 | defines `handle_commands`; its properties are the rows Telebot.UnauthorizedCommandIgnored and Telebot.CommandTable |
| Telebot.CompactPayload | telebot/main.py:47-59 | a payload written `"x1 x2 x3"` is left alone by strip and splits back into exactly `x1`, `x2`, `x3` |
| Telebot.TooFewTokensSuppressed | telebot/main.py:55-57 | fewer than three tokens never yields a message, forced or not |
| Telebot.ShownIff | telebot/main.py:55-66 | a message is produced iff there are at least three tokens and the status is not `0` or display is forced |
| Telebot.HeaderByStatus | telebot/main.py:62-79 | the message's first line is SYSTEM NORMAL / WARNING / EMERGENCY ALARM / UNKNOWN SIGNAL for status `0` / `1` / `2` / anything else |
| Telebot.ValveAndSirenLines | telebot/main.py:81-91 | the valve line says OPEN iff the second token is `1`; the siren line says SILENT iff the third token is `0` and BLARING otherwise |
| Telebot.OnlyThreeTokensMatter | telebot/main.py:59-103 | payloads that agree on the first three tokens are shown under the same conditions, with the same lines except the raw-payload echo |
| Telebot.EchoAndCodeLines | telebot/main.py:77-103 | a shown message has nine lines; the eighth is the time, the last echoes the stripped payload verbatim, and an unknown status code appears as "Status Code: " followed by that code |
| Telebot.PendingClearedIffSent | telebot/main.py:128-143 | a status report sends a message iff it decodes, formats into a message and the loop is running; it sends at most one, always to the operator; while a check is pending the flag is cleared iff a message goes out; the flag is never set by a report |
| Telebot.NormalSuppressedWhenIdle | telebot/main.py:62-66 | a well-formed status-0 report with no check pending is silent and leaves the flag off |
| Telebot.ShownReportSent | telebot/main.py:130-143 | while the loop runs, a report that parses is pushed to the operator as exactly the formatted message, and the flag is cleared |
| Telebot.NormalForcedWhenPending | telebot/main.py:128-134 | with a check pending and the loop running, a status-0 report is sent once, headed SYSTEM NORMAL, and the flag is cleared |
| Telebot.AlertAlwaysSent | telebot/main.py:71-79 | while the loop runs, a well-formed report with status other than `0` is always sent, pending or not, and leaves the flag off |
| Telebot.UnauthorizedCommandIgnored | telebot/main.py:175-176 | when the configured id is non-zero and the sender differs, a command publishes nothing, replies nothing and keeps the flag |
| Telebot.CommandTable | telebot/main.py:179-193 | Toggle Valve publishes exactly `"1 0"` and confirms, Toggle Siren `"0 1"` and confirms, both keeping the flag; Check Status sets the flag, publishes `"CHECK_STATUS"` and answers that it is fetching; other text does nothing; only the command topic is ever published to |
| Telebot.SilentKeepsPending | telebot/main.py:128-134 | any run of reports that cannot be shown keeps a pending check pending and sends nothing |
| Telebot.FirstShownAfterCheckClears | telebot/main.py:189-193 | after Check Status, silent reports change nothing and the first showable report of any status is sent and clears the flag |
| Telebot.NormalsSuppressed | telebot/main.py:62-66 | with no check pending, any run of well-formed status-0 reports sends nothing, whether or not the event loop is running |
| Telebot.OnlyFirstNormalForced | telebot/main.py:128-134 | while the loop runs, of a burst of status-0 reports after one check exactly one message goes out and the flag ends cleared |
| Telebot.StatusBridge.constructor | telebot/main.py:42 | the bridge starts with no status check pending |
| Telebot.StatusBridge.OnMessage | telebot/main.py:121-146 | the new flag and the sent messages are those of the status-report step |
| Telebot.StatusBridge.HandleCommands | telebot/main.py:169-193 | the new flag and the actions are those of the command step |
| Telebot.StatusBridge.Start | telebot/main.py:161-167 | `/start` answers every sender with the welcome banner |
| Bot.Ingest | bot/bot.py:111-132 | defines the JSON bridge's `on_message` step; its properties are the rows from Bot.FlameMessage to Bot.NonDictionaryRecordStored and the trace rows |
| Bot.FlameMessage | bot/bot.py:118-121 | a flame record replaces the flame store exactly, keeps the other stores, and raises one FIRE DETECTED alert iff its `DO_State` equals 0 and the chat side is up |
| Bot.GasMessage | bot/bot.py:123-126 | a gas record replaces the gas store exactly, keeps the other stores, and raises one GAS LEAK DETECTED alert iff its `DO_State` equals 0 and the chat side is up |
| Bot.StateMessage | bot/bot.py:128-129 | a state record replaces the state store and never raises an alert |
| Bot.IgnoredMessage | bot/bot.py:113-132 | a payload that fails to decode, or a message on any other topic, changes no store and sends nothing |
| Bot.OnlyAlertsSent | bot/bot.py:111-140 | one message causes at most one push, and it is one of the two alerts, to the operator |
| Bot.NonDictionaryRecordStored | bot/bot.py:118-120 | a decoded record that is not an object still replaces its store, raises nothing, and leaves the report unformattable |
| Bot.ReadStatus | bot/bot.py:76-82 | defines what `format_status_message` reads out of the three stores; its properties are the rows Bot.ReportIffDictionaries, Bot.MissingFieldsDefaults and Bot.EmptyStoresNormal |
| Bot.FormatStatus | bot/bot.py:76-99 | defines `format_status_message`; its properties are the rows Bot.HeaderIff, Bot.ReportLines, Bot.EmptyStoresNormal and EndToEnd.IterationReported |
| Bot.ReportIffDictionaries | bot/bot.py:76-82 | the report can be formed iff all three stores are objects |
| Bot.MissingFieldsDefaults | bot/bot.py:77-82 | missing `DO_State` reads as no alarm, missing `AO_Value` as `"N/A"`, missing buzzer/valve as off; present sensor fields are read as they are, and present `BUZZER_State` / `VALVE_State` by their truth value |
| Bot.HeaderIff | bot/bot.py:84-87 | the report opens with DANGER DETECTED iff the flame or gas record has `DO_State` equal to 0, and with SYSTEM NORMAL otherwise |
| Bot.ReportLines | bot/bot.py:88-97 | the flame line shows FIRE! and the gas line LEAK! exactly for an alarm, and Safe exactly otherwise, each with its value; the buzzer line says ON exactly when it is on, OFF otherwise; the valve line OPEN exactly when it is open, CLOSED otherwise |
| Bot.EmptyStoresNormal | bot/bot.py:55-87 | with the start-up stores the report reads both sensors safe at `"N/A"`, buzzer off and valve closed, and its text is SYSTEM NORMAL with lines saying exactly that |
| Bot.OnStart | bot/bot.py:145-154 | defines the `/start` handler; its property is the row Bot.AuthorizationGate |
| Bot.OnCommand | bot/bot.py:156-180 | defines `handle_commands`; its properties are the rows Bot.AuthorizationGate, Bot.CommandTable and EndToEnd.ButtonsDriveDevice |
| Bot.AuthorizationGate | bot/bot.py:145-159 | a chat other than the operator's gets nothing from the buttons, and `/start` refuses exactly such chats |
| Bot.CommandTable | bot/bot.py:163-180 | Buzzer ON/OFF publish exactly `"ON"`/`"OFF"` on the buzzer topic, Valve OPEN/CLOSE on the valve topic, each followed by its confirmation; Check Status publishes nothing and answers with exactly the formatted report, iff one can be made; other text does nothing |
| Bot.LastRecordWins | bot/bot.py:111-129 | after any message sequence each store holds the last record decoded on its topic, or its earlier value |
| Bot.FireAlertCount | bot/bot.py:118-121 | over any message sequence the number of FIRE DETECTED alerts equals the number of alarming flame records that arrived while the chat side was up |
| Bot.JsonBridge.constructor | bot/bot.py:55-57 | the three stores start as empty dictionaries |
| Bot.JsonBridge.OnMessage | bot/bot.py:111-132 | the new stores and the alerts are those of the message step |
| Bot.JsonBridge.HandleCommands | bot/bot.py:156-180 | the actions are those of the command step over the current stores |
| Bot.JsonBridge.Start | bot/bot.py:145-154 | `/start` is refused for other chats and welcomed for the operator's |
| Simulator.Receive | simulate.py:35-63 | defines the device's `on_message` step; its properties are the rows from Simulator.ActuateTable to Simulator.EveryMessageReported and Simulator.LastSettingWins |
| Simulator.StateRecord | simulate.py:66-74 | defines the record `publish_state` sends; its property is the row Simulator.StateRecordFields |
| Simulator.ActuateTable | simulate.py:43-57 | `"ON"` switches an actuator on, `"OFF"` off, anything else leaves it; a change always comes from the opposite command |
| Simulator.BuzzerCommand | simulate.py:43-49 | a buzzer command sets the buzzer per ON/OFF, leaves it on other payloads, and never touches the valve |
| Simulator.ValveCommand | simulate.py:51-57 | a valve command sets the valve per ON/OFF, leaves it on other payloads, and never touches the buzzer |
| Simulator.OtherTopicKeepsActuators | simulate.py:43-57 | a message on any other topic moves neither actuator |
| Simulator.EveryMessageReported | simulate.py:59-63 | every message switches to manual mode and publishes exactly one state record, stamped with the message's time and carrying the new actuator states |
| Simulator.StateRecordFields | simulate.py:66-74 | the state record holds exactly the device id, the time and the two actuator states |
| Simulator.LastSettingWins | simulate.py:35-57 | after any command sequence each actuator follows the last ON/OFF on its own topic |
| Simulator.FlameReading | simulate.py:89-99 | defines the flame sensor's schedule; its properties are the rows Simulator.FlameWindow, Simulator.SafeRanges and Simulator.SchedulePeriodic |
| Simulator.GasReading | simulate.py:92-104 | defines the gas sensor's schedule; its properties are the rows Simulator.GasWindow, Simulator.WindowsDisjoint, Simulator.SafeRanges and Simulator.SchedulePeriodic |
| Simulator.Frame | simulate.py:106-126 | defines the three publishes of one loop iteration; its properties are the rows Simulator.FrameAt and EndToEnd.IterationAlerts |
| Simulator.Frames | simulate.py:82-129 | defines the publishes of successive loop iterations; its properties are the rows Simulator.FrameAt and Simulator.VirtualDevice.SimulationLoop |
| Simulator.FlameWindow | simulate.py:89-99 | flame `DO_State` is 0 (at 500) iff `15 <= counter % 30 <= 20`, otherwise 1 with the random value |
| Simulator.GasWindow | simulate.py:92-104 | gas `DO_State` is 0 (at 3500) iff `25 <= counter % 30 <= 28`, otherwise 1 with the random value |
| Simulator.WindowsDisjoint | simulate.py:96-104 | no iteration reports both hazards |
| Simulator.SafeRanges | simulate.py:89-104 | a sensor is safe iff its analog value is in its safe range (flame 3000..4095, gas 0..1000) |
| Simulator.SchedulePeriodic | simulate.py:95-104 | the alarm schedule repeats every 30 iterations |
| Simulator.FrameAt | simulate.py:106-129 | iteration `k` publishes exactly flame, gas, state at positions `3k .. 3k+2`, so the counter rises by one per iteration |
| Simulator.VirtualDevice.constructor | simulate.py:22-24 | the device starts with buzzer and valve off in AUTO mode |
| Simulator.VirtualDevice.OnMessage | simulate.py:35-63 | the new actuator states, mode and publishes are those of the command step |
| Simulator.VirtualDevice.SimulationLoop | simulate.py:77-129 | the publishes of the first iterations are the scheduled frames, three per iteration, and the actuators are untouched |
| EndToEnd.TopicsAgree | simulate.py:15-19 | the device's topics are exactly the JSON bridge's subscriptions and control topics |
| EndToEnd.IterationAlerts | simulate.py:106-126 | with the chat side up, one device iteration received by the bridge raises FIRE DETECTED exactly in the flame window, GAS LEAK DETECTED exactly in the gas window, nothing otherwise, and the stores hold its three records |
| EndToEnd.IterationReported | bot/bot.py:76-99 | after one device iteration the bridge reads the window alarms, the analog values and the device's actual buzzer and valve, and its report text says FIRE! / LEAK! exactly in the windows, buzzer ON exactly when it is on and valve OPEN exactly when it is open |
| EndToEnd.ButtonsDriveDevice | bot/bot.py:163-177 | each actuator button, delivered to the device, puts that actuator where the button says and leaves the other alone |

## Left out

- MQTT and Telegram plumbing is not modelled: client construction, connect, subscribe, `loop_start`, `on_connect`, handler registration, `run_polling`, keyboards and `parse_mode`. Publishes and messages appear only as returned actions.
- The cross-thread hand-off is not modelled: `asyncio.run_coroutine_threadsafe` and the `main_loop` / `bot_app` guards. Each bridge takes a boolean instead, `loopRunning` in `Telebot` and `deliverable` in `Bot`, saying whether the chat side can take a push. Concurrent interleaving of handlers is not modelled.
- Clocks are parameters: `datetime.now()` as an already formatted string, and `time.time()` as an integer.
- `random.randint` values are inputs (`Simulator.Tick`), constrained to their ranges where a lemma needs it. `time.sleep` is left out.
- UTF-8 decoding and `json.loads` are a function parameter returning `None` on failure. JSON text, `json.dumps`, NaN/Infinity and number formatting are not modelled. `EndToEnd` takes encoding followed by decoding to return the same record.
- Python's `str()` of a decoded value in the JSON bridge's report is a parameter `show`.
- Simulator.VirtualDevice.OnMessage: takes the payload already decoded. A payload that is not UTF-8 raises in the device's network thread; that failure is not modelled.
- Simulator.VirtualDevice.SimulationLoop: runs one iteration per given tick instead of forever. It reads the actuators once, so a command arriving mid-loop is not reflected.
- Environment-variable parsing, process exit on bad configuration, and logging/printing are not modelled.
