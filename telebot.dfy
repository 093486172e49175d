/** The compact-status bridge (telebot/main.py). The device reports one
    composite status `"x1 x2 x3"` (fire level, water valve, siren) on a single
    topic; the bridge forwards it to the operator's chat, hiding the all-clear
    status 0 unless the operator asked for it with "Check Status". The
    operator's buttons become publishes on a single command topic. */
module Telebot {
  import opened Wrappers
  import opened Text
  import opened Effects
  import opened Traces

  const TopicPublish := "fire_system/command"

  const ToggleValveButton := "🚰 Toggle Valve"
  const ToggleSirenButton := "🔔 Toggle Siren"
  const CheckStatusButton := "🔄 Check Status"

  /** Payloads on the command topic. */
  const ToggleValvePayload := "1 0"
  const ToggleSirenPayload := "0 1"
  const StatusRequestPayload := "CHECK_STATUS"

  const WelcomeBanner := "🚒 <b>FIRE ALARM MONITORING SYSTEM</b>\nMode: <i>Alert on anomaly only</i>"

  const Rule := "━━━━━━━━━━━━━━━━━━"

  const NormalHeader := "✅ <b>SYSTEM NORMAL</b>"
  const WarningHeader := "⚠️ <b>WARNING</b>"
  const AlarmHeader := "🔥 <b>EMERGENCY ALARM</b> 🔥"
  const UnknownHeader := "❓ <b>UNKNOWN SIGNAL</b>"

  const ValveOpenLine := "🚰 Water Valve: <b>OPEN</b> (Spraying)"
  const ValveClosedLine := "🔒 Water Valve: <b>CLOSED</b>"
  const SirenSilentLine := "🔇 Siren: <b>SILENT</b>"
  const SirenBlaringLine := "🔊 Siren: <b>BLARING</b>"

  /** The fire level carried by the first token. */
  datatype FireStatus = Normal | Warning | Alarm | Unknown(code: string)

  function Classify(x1: string): FireStatus {
    if x1 == "0" then Normal
    else if x1 == "1" then Warning
    else if x1 == "2" then Alarm
    else Unknown(x1)
  }

  function Header(status: FireStatus): string {
    match status
    case Normal => NormalHeader
    case Warning => WarningHeader
    case Alarm => AlarmHeader
    case Unknown(_) => UnknownHeader
  }

  function StatusText(status: FireStatus): string {
    match status
    case Normal => "🛡 Area is safe. No hazards detected."
    case Warning => "🟡 Level 1: Smoke/Heat detected. Check immediately!"
    case Alarm => "🔴 Level 2: FIRE DETECTED! ACTIVATE RESPONSE!"
    case Unknown(code) => "Status Code: " + code
  }

  /** What a status payload says, once it has been accepted for display. */
  datatype StatusView = StatusView(status: FireStatus, valveOpen: bool, sirenOn: bool, raw: string)

  /** The decision half of `parse_and_format`: `None` when the payload has
      fewer than three tokens, or reports status 0 while `forceShow` is off. */
  function ParseStatus(payload: string, forceShow: bool): Option<StatusView> {
    var parts := Split(payload);
    if |parts| < 3 then None
    else if parts[0] == "0" && !forceShow then None
    else Some(StatusView(Classify(parts[0]), parts[1] == "1", parts[2] != "0", payload))
  }

  /** The lines of the chat message for a view; `now` is the local time
      already formatted as `%Y-%m-%d %H:%M:%S`. */
  function MessageLines(view: StatusView, now: string): seq<string> {
    [ Header(view.status),
      Rule,
      StatusText(view.status),
      Rule,
      if view.valveOpen then ValveOpenLine else ValveClosedLine,
      if view.sirenOn then SirenBlaringLine else SirenSilentLine,
      Rule,
      "🕒 <i>" + now + "</i>",
      "📡 Raw data: <code>" + view.raw + "</code>" ]
  }

  /** `parse_and_format(payload_str, force_show)`. */
  function ParseAndFormat(payload: string, forceShow: bool, now: string): Option<string> {
    match ParseStatus(payload, forceShow)
    case None => None
    case Some(view) => Some(JoinLines(MessageLines(view, now)))
  }

  /** A payload with fewer than three tokens never yields a message. */
  lemma TooFewTokensSuppressed(payload: string, forceShow: bool, now: string)
    requires |Split(payload)| < 3
    ensures ParseAndFormat(payload, forceShow, now) == None
  {
  }

  /** A message is produced exactly for a payload of at least three tokens
      whose status is not 0, or whose status is 0 while forced. */
  lemma ShownIff(payload: string, forceShow: bool, now: string)
    ensures ParseAndFormat(payload, forceShow, now).Some?
        <==> |Split(payload)| >= 3 && (Split(payload)[0] != "0" || forceShow)
  {
  }

  /** The first line of a produced message is the header for the first
      token: SYSTEM NORMAL, WARNING, EMERGENCY ALARM or UNKNOWN SIGNAL. */
  lemma HeaderByStatus(payload: string, forceShow: bool, now: string)
    requires ParseAndFormat(payload, forceShow, now).Some?
    ensures var msg := ParseAndFormat(payload, forceShow, now).value;
      var x1 := Split(payload)[0];
      && (x1 == "0" ==> msg[..|NormalHeader| + 1] == NormalHeader + "\n")
      && (x1 == "1" ==> msg[..|WarningHeader| + 1] == WarningHeader + "\n")
      && (x1 == "2" ==> msg[..|AlarmHeader| + 1] == AlarmHeader + "\n")
      && (x1 != "0" && x1 != "1" && x1 != "2" ==> msg[..|UnknownHeader| + 1] == UnknownHeader + "\n")
  {
    var view := ParseStatus(payload, forceShow).value;
    JoinLinesFirst(MessageLines(view, now));
  }

  /** The valve line reads OPEN exactly when the second token is `"1"`, and
      the siren line reads SILENT exactly when the third token is `"0"`. */
  lemma ValveAndSirenLines(payload: string, forceShow: bool, now: string)
    requires ParseStatus(payload, forceShow).Some?
    ensures var ls := MessageLines(ParseStatus(payload, forceShow).value, now);
      var parts := Split(payload);
      && (ls[4] == ValveOpenLine <==> parts[1] == "1")
      && (ls[4] == ValveClosedLine <==> parts[1] != "1")
      && (ls[5] == SirenSilentLine <==> parts[2] == "0")
      && (ls[5] == SirenBlaringLine <==> parts[2] != "0")
  {
    var parts := Split(payload);
    var view := ParseStatus(payload, forceShow).value;
    assert view.valveOpen == (parts[1] == "1") && view.sirenOn == (parts[2] != "0");
    assert ValveOpenLine[0] == '🚰' && ValveClosedLine[0] == '🔒';
    assert SirenSilentLine[0] == '🔇' && SirenBlaringLine[0] == '🔊';
  }

  /** The message ends with the time and the payload echoed verbatim, and
      an unknown status code is shown as it arrived. */
  lemma EchoAndCodeLines(payload: string, forceShow: bool, now: string)
    requires ParseStatus(payload, forceShow).Some?
    ensures var ls := MessageLines(ParseStatus(payload, forceShow).value, now);
      var x1 := Split(payload)[0];
      && |ls| == 9
      && ls[7] == "🕒 <i>" + now + "</i>"
      && ls[8] == "📡 Raw data: <code>" + payload + "</code>"
      && (x1 != "0" && x1 != "1" && x1 != "2" ==> ls[2] == "Status Code: " + x1)
  {
  }

  /** Tokens after the third reach only the raw-payload echo: two payloads
      that agree on their first three tokens are shown under the same
      conditions, with the same lines except the last. */
  lemma OnlyThreeTokensMatter(p: string, q: string, forceShow: bool, now: string)
    requires |Split(p)| >= 3 && |Split(q)| >= 3
    requires Split(p)[..3] == Split(q)[..3]
    ensures ParseStatus(p, forceShow).Some? <==> ParseStatus(q, forceShow).Some?
    ensures ParseStatus(p, forceShow).Some? ==>
      && ParseStatus(q, forceShow).value == ParseStatus(p, forceShow).value.(raw := q)
      && MessageLines(ParseStatus(p, forceShow).value, now)[..8]
         == MessageLines(ParseStatus(q, forceShow).value, now)[..8]
  {
    assert Split(p)[0] == Split(p)[..3][0] && Split(q)[0] == Split(q)[..3][0];
    assert Split(p)[1] == Split(p)[..3][1] && Split(q)[1] == Split(q)[..3][1];
    assert Split(p)[2] == Split(p)[..3][2] && Split(q)[2] == Split(q)[..3][2];
  }

  /** The pending flag after one event, and what the event caused. */
  type Step = Outcome<bool, Action>

  /** `on_message`: decode and strip the payload, format it with the pending
      flag as `force_show`, and when a message comes out while the chat's
      event loop is running, push it to the operator and clear the flag.
      `decoded` is `None` when the payload is not valid UTF-8. */
  function OnStatusMessage(chat: int, waiting: bool, decoded: Option<string>, loopRunning: bool, now: string): Step {
    match decoded
    case None => Outcome(waiting, [])
    case Some(text) =>
      match ParseAndFormat(Strip(text), waiting, now)
      case Some(msg) => if loopRunning then Outcome(false, [Send(chat, msg)]) else Outcome(waiting, [])
      case None => Outcome(waiting, [])
  }

  /** `handle_commands`: the sender check, then one publish and one reply per
      button. `authorized == 0` switches the sender check off. */
  function OnCommand(authorized: int, waiting: bool, userId: int, text: string): Step {
    if authorized != 0 && userId != authorized then Outcome(waiting, [])
    else if text == ToggleValveButton then
      Outcome(waiting, [Publish(TopicPublish, ToggleValvePayload), Reply("✅ Command sent: Toggle Water Valve (1 0)")])
    else if text == ToggleSirenButton then
      Outcome(waiting, [Publish(TopicPublish, ToggleSirenPayload), Reply("✅ Command sent: Toggle Siren (0 1)")])
    else if text == CheckStatusButton then
      Outcome(true, [Publish(TopicPublish, StatusRequestPayload), Reply("⏳ Fetching latest data from device...")])
    else Outcome(waiting, [])
  }

  /** A message goes out exactly when the payload decodes, formats into a
      message and the loop is running; the pending flag is cleared exactly
      when a message goes out, and at most one message goes out per status
      report, always to the operator. */
  lemma PendingClearedIffSent(chat: int, waiting: bool, decoded: Option<string>, loopRunning: bool, now: string)
    ensures var r := OnStatusMessage(chat, waiting, decoded, loopRunning, now);
      && (r.actions != [] <==> decoded.Some? && loopRunning && ParseAndFormat(Strip(decoded.value), waiting, now).Some?)
      && |r.actions| <= 1
      && (r.actions != [] ==> r.actions[0].Send? && r.actions[0].chat == chat)
      && (waiting ==> (r.state <==> r.actions == []))
      && (!waiting ==> !r.state)
  {
  }

  /** A status-0 report with no status check pending is silent and leaves
      the flag off. */
  lemma NormalSuppressedWhenIdle(chat: int, text: string, loopRunning: bool, now: string)
    requires |Split(text)| >= 3 && Split(text)[0] == "0"
    ensures OnStatusMessage(chat, false, Some(text), loopRunning, now) == Outcome(false, [])
  {
    SplitStrip(text);
    assert ParseStatus(Strip(text), false) == None;
  }

  /** A report that parses is pushed to the operator, while the loop runs,
      and clears the flag. */
  lemma ShownReportSent(chat: int, waiting: bool, text: string, now: string)
    requires ParseStatus(Strip(text), waiting).Some?
    ensures OnStatusMessage(chat, waiting, Some(text), true, now)
         == Outcome(false, [Send(chat, ParseAndFormat(Strip(text), waiting, now).value)])
  {
  }

  /** A forced status-0 payload parses, as status Normal. */
  lemma ForcedNormalParses(text: string)
    requires |Split(text)| >= 3 && Split(text)[0] == "0"
    ensures ParseStatus(Strip(text), true).Some? && ParseStatus(Strip(text), true).value.status == Normal
  {
    var stripped := Strip(text);
    SplitStrip(text);
    var parts := Split(stripped);
    assert |parts| >= 3 && parts[0] == "0";
    assert Classify(parts[0]) == Normal;
    assert ParseStatus(stripped, true) == Some(StatusView(Normal, parts[1] == "1", parts[2] != "0", stripped));
  }

  /** With a status check pending and the event loop running, a status-0
      report is shown once, headed SYSTEM NORMAL, and the flag goes off. */
  lemma NormalForcedWhenPending(chat: int, text: string, now: string)
    requires |Split(text)| >= 3 && Split(text)[0] == "0"
    ensures var view := ParseStatus(Strip(text), true);
      && view.Some? && view.value.status == Normal && Header(view.value.status) == NormalHeader
      && OnStatusMessage(chat, true, Some(text), true, now)
         == Outcome(false, [Send(chat, ParseAndFormat(Strip(text), true, now).value)])
  {
    ForcedNormalParses(text);
    ShownReportSent(chat, true, text, now);
  }

  /** Status 1, 2 or any other non-zero code is always pushed, whether or
      not a status check is pending. */
  lemma AlertAlwaysSent(chat: int, waiting: bool, text: string, now: string)
    requires |Split(text)| >= 3 && Split(text)[0] != "0"
    ensures var r := OnStatusMessage(chat, waiting, Some(text), true, now);
      && !r.state && |r.actions| == 1 && r.actions[0].Send? && r.actions[0].chat == chat
  {
    SplitStrip(text);
    assert ParseStatus(Strip(text), waiting).Some?;
    ShownReportSent(chat, waiting, text, now);
  }

  /** The three buttons are told apart by their first character. */
  lemma ButtonsDiffer()
    ensures ToggleValveButton != ToggleSirenButton
    ensures ToggleValveButton != CheckStatusButton
    ensures ToggleSirenButton != CheckStatusButton
  {
    assert ToggleValveButton[0] == '🚰';
    assert ToggleSirenButton[0] == '🔔';
    assert CheckStatusButton[0] == '🔄';
  }

  /** A command from anyone but the operator does nothing at all (when the
      sender check is on). */
  lemma UnauthorizedCommandIgnored(authorized: int, waiting: bool, userId: int, text: string)
    requires authorized != 0 && userId != authorized
    ensures OnCommand(authorized, waiting, userId, text) == Outcome(waiting, [])
  {
  }

  /** The button table: the toggles publish `"1 0"` / `"0 1"` and keep the
      flag, "Check Status" sets it and publishes the status request, and
      any other text does nothing. */
  lemma CommandTable(authorized: int, waiting: bool, userId: int, text: string)
    requires authorized == 0 || userId == authorized
    ensures var r := OnCommand(authorized, waiting, userId, text);
      && (text == ToggleValveButton ==>
            r == Outcome(waiting, [Publish(TopicPublish, "1 0"), Reply("✅ Command sent: Toggle Water Valve (1 0)")]))
      && (text == ToggleSirenButton ==>
            r == Outcome(waiting, [Publish(TopicPublish, "0 1"), Reply("✅ Command sent: Toggle Siren (0 1)")]))
      && (text == CheckStatusButton ==>
            r == Outcome(true, [Publish(TopicPublish, "CHECK_STATUS"), Reply("⏳ Fetching latest data from device...")]))
      && (text !in {ToggleValveButton, ToggleSirenButton, CheckStatusButton} ==> r == Outcome(waiting, []))
      && (forall a :: a in r.actions ==> a.Reply? || a == Publish(TopicPublish, a.payload))
  {
    ButtonsDiffer();
  }

  /** What reaches the bridge, in arrival order. */
  datatype Event =
    | StatusReport(decoded: Option<string>, loopRunning: bool, now: string)
    | Command(userId: int, text: string)

  function Apply(chat: int, waiting: bool, e: Event): Step {
    match e
    case StatusReport(decoded, loopRunning, now) => OnStatusMessage(chat, waiting, decoded, loopRunning, now)
    case Command(userId, text) => OnCommand(chat, waiting, userId, text)
  }

  /** The bridge's reaction to one event. */
  function Bridge(chat: int): (bool, Event) -> Step {
    (waiting: bool, e: Event) => Apply(chat, waiting, e)
  }

  /** A status report that produces a message when forced. */
  predicate ShownWhenPending(e: Event) {
    e.StatusReport? && e.decoded.Some? && e.loopRunning
    && ParseStatus(Strip(e.decoded.value), true).Some?
  }

  /** Status reports that stay silent while the flag is set keep it set. */
  lemma {:induction false} SilentKeepsPending(chat: int, quiet: seq<Event>)
    requires forall i :: 0 <= i < |quiet| ==> quiet[i].StatusReport? && !ShownWhenPending(quiet[i])
    ensures Run(Bridge(chat), true, quiet) == Outcome(true, [])
  {
    if quiet != [] {
      SilentKeepsPending(chat, quiet[1..]);
    }
  }

  /** After "Check Status", the reports that cannot be shown (malformed,
      undecodable, or arriving while the loop is down) leave the flag set,
      and the first one that can be shown, of any status, is pushed and
      clears it. */
  lemma {:induction false} FirstShownAfterCheckClears(chat: int, waiting: bool, quiet: seq<Event>, m: Event)
    requires forall i :: 0 <= i < |quiet| ==> quiet[i].StatusReport? && !ShownWhenPending(quiet[i])
    requires ShownWhenPending(m)
    ensures var msg := ParseAndFormat(Strip(m.decoded.value), true, m.now).value;
      Run(Bridge(chat), waiting, [Command(chat, CheckStatusButton)] + quiet + [m])
      == Outcome(false, [ Publish(TopicPublish, StatusRequestPayload),
                          Reply("⏳ Fetching latest data from device..."),
                          Send(chat, msg) ])
  {
    var bridge := Bridge(chat);
    var check := [Command(chat, CheckStatusButton)];
    var acks := [Publish(TopicPublish, StatusRequestPayload), Reply("⏳ Fetching latest data from device...")];
    var msg := ParseAndFormat(Strip(m.decoded.value), true, m.now).value;
    CheckAcknowledged(chat, waiting);
    SilentKeepsPending(chat, quiet);
    RunAppend(bridge, waiting, check, quiet);
    assert acks + [] == acks;
    ShownClears(chat, m);
    RunAppend(bridge, waiting, check + quiet, [m]);
  }

  /** "Check Status" on its own sets the flag and acknowledges. */
  lemma CheckAcknowledged(chat: int, waiting: bool)
    ensures Run(Bridge(chat), waiting, [Command(chat, CheckStatusButton)])
         == Outcome(true, [Publish(TopicPublish, StatusRequestPayload), Reply("⏳ Fetching latest data from device...")])
  {
    RunOne(Bridge(chat), waiting, Command(chat, CheckStatusButton));
  }

  /** A report that can be shown, arriving while the flag is set, is pushed
      and clears it. */
  lemma ShownClears(chat: int, m: Event)
    requires ShownWhenPending(m)
    ensures Run(Bridge(chat), true, [m])
         == Outcome(false, [Send(chat, ParseAndFormat(Strip(m.decoded.value), true, m.now).value)])
  {
    RunOne(Bridge(chat), true, m);
    ShownReportSent(chat, true, m.decoded.value, m.now);
  }

  /** A well-formed status-0 report, whether or not the event loop runs. */
  predicate StatusZeroReport(e: Event) {
    e.StatusReport? && e.decoded.Some?
    && |Split(e.decoded.value)| >= 3 && Split(e.decoded.value)[0] == "0"
  }

  /** A well-formed status-0 report that has arrived while the event loop runs. */
  predicate NormalReport(e: Event) {
    StatusZeroReport(e) && e.loopRunning
  }

  /** With no check pending, status-0 reports are all suppressed, whether
      or not the event loop runs. */
  lemma {:induction false} NormalsSuppressed(chat: int, es: seq<Event>)
    requires forall i :: 0 <= i < |es| ==> StatusZeroReport(es[i])
    ensures Run(Bridge(chat), false, es) == Outcome(false, [])
  {
    if es != [] {
      var e := es[0];
      NormalSuppressedWhenIdle(chat, e.decoded.value, e.loopRunning, e.now);
      NormalsSuppressed(chat, es[1..]);
    }
  }

  /** Of a burst of status-0 reports after one "Check Status", only the
      first is force-shown. */
  lemma OnlyFirstNormalForced(chat: int, es: seq<Event>)
    requires |es| >= 1
    requires forall i :: 0 <= i < |es| ==> NormalReport(es[i])
    ensures var r := Run(Bridge(chat), true, es);
      !r.state && |r.actions| == 1 && r.actions[0].Send?
  {
    var e := es[0];
    NormalForcedWhenPending(chat, e.decoded.value, e.now);
    NormalsSuppressed(chat, es[1..]);
  }

  /** The bridge process: the operator's chat id and `is_waiting_for_status`. */
  class StatusBridge {
    const authorizedChatId: int
    var waitingForStatus: bool

    constructor (authorizedChatId: int)
      ensures this.authorizedChatId == authorizedChatId
      ensures !waitingForStatus
    {
      this.authorizedChatId := authorizedChatId;
      waitingForStatus := false;
    }

    /** MQTT `on_message` for the status topic. */
    method OnMessage(payload: Bytes, decode: Bytes -> Option<string>, loopRunning: bool, now: string)
      returns (sent: seq<Action>)
      modifies this
      ensures Outcome(waitingForStatus, sent)
           == OnStatusMessage(authorizedChatId, old(waitingForStatus), decode(payload), loopRunning, now)
    {
      sent := [];
      var decoded := decode(payload);
      ghost var expected := OnStatusMessage(authorizedChatId, waitingForStatus, decoded, loopRunning, now);
      if decoded.Some? {
        var payloadStr := Strip(decoded.value);
        var shouldForce := waitingForStatus;
        var textMsg := ParseAndFormat(payloadStr, shouldForce, now);
        if textMsg.Some? && loopRunning {
          assert expected == Outcome(false, [Send(authorizedChatId, textMsg.value)]);
          if waitingForStatus {
            waitingForStatus := false;
          }
          sent := [Send(authorizedChatId, textMsg.value)];
        } else {
          assert expected == Outcome(waitingForStatus, []);
        }
      } else {
        assert expected == Outcome(waitingForStatus, []);
      }
    }

    /** Telegram handler for the keyboard buttons. */
    method HandleCommands(userId: int, text: string) returns (actions: seq<Action>)
      modifies this
      ensures Outcome(waitingForStatus, actions) == OnCommand(authorizedChatId, old(waitingForStatus), userId, text)
    {
      actions := [];
      if authorizedChatId != 0 && userId != authorizedChatId {
        return;
      }
      if text == ToggleValveButton {
        actions := [Publish(TopicPublish, ToggleValvePayload), Reply("✅ Command sent: Toggle Water Valve (1 0)")];
      } else if text == ToggleSirenButton {
        actions := [Publish(TopicPublish, ToggleSirenPayload), Reply("✅ Command sent: Toggle Siren (0 1)")];
      } else if text == CheckStatusButton {
        waitingForStatus := true;
        actions := [Publish(TopicPublish, StatusRequestPayload), Reply("⏳ Fetching latest data from device...")];
      }
    }

    /** Telegram `/start`: every sender gets the banner; there is no sender
        check here, and the pending flag is untouched. */
    method Start(userId: int) returns (actions: seq<Action>)
      ensures actions == [Reply(WelcomeBanner)]
    {
      actions := [Reply(WelcomeBanner)];
    }
  }

  /** A payload written as `"x1 x2 x3"` splits back into its three tokens,
      and stripping leaves it as it is. */
  lemma CompactPayload(x1: string, x2: string, x3: string)
    requires IsToken(x1) && IsToken(x2) && IsToken(x3)
    ensures Strip(x1 + " " + x2 + " " + x3) == x1 + " " + x2 + " " + x3
    ensures Split(x1 + " " + x2 + " " + x3) == [x1, x2, x3]
  {
    var p := x1 + " " + x2 + " " + x3;
    JoinSpacedThree(x1, x2, x3);
    SplitJoinSpaced([x1, x2, x3]);
    assert p[0] == x1[0];
    assert p[|p| - 1] == x3[|x3| - 1];
    StripUnchanged(p);
  }
}
