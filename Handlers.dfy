/** The session's event listeners (bot.js:149-212) as functions from an event
    to the effects it causes: log lines, status messages to the webhook, a
    scheduled re-creation of the bot, or an exception escaping the listener. */
module Handlers {
  import opened Wrappers
  import opened KickReason

  datatype Level = Info | Warning | Failure

  datatype Effect =
    | Log(level: Level, line: string)
    | Send(content: string, sender: string)   // a webhook message and its sender label
    | ScheduleCreateBot(delayMs: int)         // `setTimeout(createBot, delay)`
    | Threw(error: KickError)                 // the listener throws

  const StatusSender: string := "Bot Status"
  const ChatSender: string := "Minecraft Chat Log"
  const DisconnectNotice: string := "Bot disconnected, reconnecting..."

  /** The settings the listeners consult. */
  datatype Config = Config(chatLog: bool, autoReconnect: bool, reconnectDelayMs: int)

  /** The session events with a listener of their own in this model. */
  datatype Event =
    | ChatEvent(username: string, message: string)
    | EndEvent
    | KickedEvent(payload: KickPayload)
    | ErrorEvent(message: string)

  function ChatLine(username: string, message: string): string {
    "<" + username + "> " + message
  }

  function KickNotice(reason: string): string {
    "Bot was kicked from the server. Reason: " + reason
  }

  function ErrorNotice(message: string): string {
    "Bot has an error: " + message
  }

  /** The number of re-creations a list of effects schedules. */
  function Schedules(effects: seq<Effect>): nat {
    if |effects| == 0 then 0
    else (if effects[0].ScheduleCreateBot? then 1 else 0) + Schedules(effects[1..])
  }

  lemma {:induction false} SchedulesAppend(a: seq<Effect>, b: seq<Effect>)
    ensures Schedules(a + b) == Schedules(a) + Schedules(b)
  {
    if |a| > 0 {
      assert (a + b)[1..] == a[1..] + b;
      SchedulesAppend(a[1..], b);
    } else {
      assert a + b == b;
    }
  }

  /** The `chat` listener: log when chat logging is on, whoever speaks; relay
      to the webhook unless the speaker is the bot itself. */
  function OnChat(cfg: Config, self: string, username: string, message: string): (r: seq<Effect>)
    ensures Log(Info, ChatLine(username, message)) in r <==> cfg.chatLog
    ensures Send(ChatLine(username, message), ChatSender) in r <==> username != self
    ensures forall e :: e in r ==> e == Log(Info, ChatLine(username, message)) ||
                                   e == Send(ChatLine(username, message), ChatSender)
    // each at most once, the log line first
    ensures |r| == (if cfg.chatLog then 1 else 0) + (if username != self then 1 else 0)
    ensures cfg.chatLog ==> r[0] == Log(Info, ChatLine(username, message))
  {
    var line := ChatLine(username, message);
    (if cfg.chatLog then [Log(Info, line)] else []) +
    (if username == self then [] else [Send(line, ChatSender)])
  }

  /** The `end` listener, registered only when auto-reconnect is configured:
      log, notify, and schedule one re-creation after the configured delay. */
  function OnEnd(cfg: Config): (r: seq<Effect>)
    // exactly one re-creation, as the last effect, after the configured delay
    ensures cfg.autoReconnect ==> |r| > 0 && r[|r| - 1] == ScheduleCreateBot(cfg.reconnectDelayMs) &&
                                  forall j :: 0 <= j < |r| - 1 ==> !r[j].ScheduleCreateBot?
    ensures cfg.autoReconnect ==> Log(Info, DisconnectNotice) in r &&
                                  Send(DisconnectNotice, StatusSender) in r
    ensures forall e :: e in r ==> e == Log(Info, DisconnectNotice) ||
                                   e == Send(DisconnectNotice, StatusSender) ||
                                   e == ScheduleCreateBot(cfg.reconnectDelayMs)
    ensures !cfg.autoReconnect ==> r == []
  {
    if cfg.autoReconnect then
      [Log(Info, DisconnectNotice), Send(DisconnectNotice, StatusSender),
       ScheduleCreateBot(cfg.reconnectDelayMs)]
    else []
  }

  /** The `kicked` listener: log and relay the cleaned reason, or throw when
      the payload has no usable reason. It never schedules a re-creation. */
  function OnKicked(p: KickPayload): (r: seq<Effect>)
    ensures forall e :: e in r ==> !e.ScheduleCreateBot?
    ensures CleanReason(p).Ok? ==>
      Log(Warning, KickNotice(CleanReason(p).value)) in r &&
      Send(KickNotice(CleanReason(p).value), StatusSender) in r && Clean(CleanReason(p).value)
    // relaying and throwing exclude each other
    ensures CleanReason(p).Ok? ==> forall e :: e in r ==>
      e == Log(Warning, KickNotice(CleanReason(p).value)) ||
      e == Send(KickNotice(CleanReason(p).value), StatusSender)
    ensures CleanReason(p).Err? ==> r == [Threw(CleanReason(p).error)]
  {
    match CleanReason(p)
    case Ok(reason) =>
      [Log(Warning, KickNotice(reason)), Send(KickNotice(reason), StatusSender)]
    case Err(e) => [Threw(e)]
  }

  /** The `error` listener: log and relay the message; no re-creation. */
  function OnError(message: string): (r: seq<Effect>)
    ensures forall e :: e in r ==> !e.ScheduleCreateBot?
    ensures Log(Failure, message) in r && Send(ErrorNotice(message), StatusSender) in r
    ensures forall e :: e in r ==> e == Log(Failure, message) || e == Send(ErrorNotice(message), StatusSender)
  {
    [Log(Failure, message), Send(ErrorNotice(message), StatusSender)]
  }

  /** The effects of one event on a session whose bot is called `self`. */
  function Handle(cfg: Config, self: string, ev: Event): (r: seq<Effect>)
    // only an `end` event with auto-reconnect on schedules a re-creation
    ensures forall e :: e in r && e.ScheduleCreateBot? ==>
      ev.EndEvent? && cfg.autoReconnect && e.delayMs == cfg.reconnectDelayMs
    // only a `kicked` event can throw
    ensures forall e :: e in r && e.Threw? ==> ev.KickedEvent?
  {
    match ev
    case ChatEvent(u, m) => OnChat(cfg, self, u, m)
    case EndEvent => OnEnd(cfg)
    case KickedEvent(p) => OnKicked(p)
    case ErrorEvent(m) => OnError(m)
  }

  /** The effects of a stream of events, in delivery order. */
  function Dispatch(cfg: Config, self: string, events: seq<Event>): (r: seq<Effect>)
    // every scheduled re-creation comes from the `end` listener and uses the configured delay
    ensures forall e :: e in r && e.ScheduleCreateBot? ==>
      cfg.autoReconnect && e.delayMs == cfg.reconnectDelayMs
    ensures forall e :: e in r && e.Threw? ==> exists j :: 0 <= j < |events| && events[j].KickedEvent?
  {
    if |events| == 0 then []
    else Handle(cfg, self, events[0]) + Dispatch(cfg, self, events[1..])
  }

  function Ends(events: seq<Event>): nat {
    if |events| == 0 then 0
    else (if events[0].EndEvent? then 1 else 0) + Ends(events[1..])
  }

  /** Re-creation is scheduled once per `end` event when auto-reconnect is
      configured and never otherwise; `kicked`, `error` and `chat` events
      schedule nothing. */
  lemma {:induction false} OneReconnectPerEnd(cfg: Config, self: string, events: seq<Event>)
    ensures Schedules(Dispatch(cfg, self, events)) == if cfg.autoReconnect then Ends(events) else 0
  {
    if |events| > 0 {
      var h := Handle(cfg, self, events[0]);
      OneReconnectPerEnd(cfg, self, events[1..]);
      SchedulesAppend(h, Dispatch(cfg, self, events[1..]));
      if events[0].EndEvent? && cfg.autoReconnect {
        var last := |h| - 1;
        assert h == h[..last] + [h[last]];
        NoSchedules(h[..last]);
        SchedulesAppend(h[..last], [h[last]]);
      } else {
        NoSchedules(h);
      }
    }
  }

  lemma {:induction false} NoSchedules(effects: seq<Effect>)
    requires forall e :: e in effects ==> !e.ScheduleCreateBot?
    ensures Schedules(effects) == 0
  {
    if |effects| > 0 {
      assert effects[0] in effects;
      NoSchedules(effects[1..]);
    }
  }

  /** Every chat line relayed to the webhook was spoken by someone other than
      the bot itself, in one of the delivered chat events. */
  lemma {:induction false} RelaysOnlyOthers(cfg: Config, self: string, events: seq<Event>, e: Effect)
    requires e in Dispatch(cfg, self, events) && e.Send? && e.sender == ChatSender
    ensures exists j :: 0 <= j < |events| && events[j].ChatEvent? && events[j].username != self &&
                        e.content == ChatLine(events[j].username, events[j].message)
  {
    var h := Handle(cfg, self, events[0]);
    if e in h {
      match events[0]
      case ChatEvent(u, m) =>
        assert e == Send(ChatLine(u, m), ChatSender);
      case EndEvent =>
      case KickedEvent(p) =>
      case ErrorEvent(m) =>
    } else {
      RelaysOnlyOthers(cfg, self, events[1..], e);
      var j :| 0 <= j < |events[1..]| && events[1..][j].ChatEvent? && events[1..][j].username != self &&
               e.content == ChatLine(events[1..][j].username, events[1..][j].message);
      assert events[j + 1] == events[1..][j];
    }
  }
}
