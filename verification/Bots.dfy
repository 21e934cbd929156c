/**
 What each bot operation does to the state: installation, channel membership, subscriptions, event queues,
 commands and bot-authored messages.
 */
module Bots {
  import opened JsCollections
  import opened Ids
  import opened DmNames
  import opened Domain
  import opened MessageStore

  // ---------------------------------------------------------------- dispatch

  predicate Matches(bot: BotState, b: BotId, c: ChannelId, eventType: EventType) {
    b in bot.bots.vals && c in bot.bots.vals[b].channelIds && eventType in bot.bots.vals[b].subscribedEvents
  }

  function MatchingBots(bot: BotState, c: ChannelId, eventType: EventType): seq<BotId> {
    Filter(bot.bots.keys, b => Matches(bot, b, c, eventType))
  }

  type Queues = map<BotId, seq<BotEvent>>

  function QueueIn(queues: Queues, b: BotId): seq<BotEvent> {
    if b in queues then queues[b] else []
  }

  function Queue(bot: BotState, b: BotId): seq<BotEvent> {
    QueueIn(bot.queues, b)
  }

  /** The event goes to the end of the queue of each bot that is in the channel and subscribed, and nowhere else. */
  function Publish(bot: BotState, e: BotEvent): BotState {
    bot.(queues := map b | b in bot.queues.Keys + bot.bots.vals.Keys && (b in bot.queues || Matches(bot, b, e.channelId, e.eventType)) ::
                     if Matches(bot, b, e.channelId, e.eventType) then Queue(bot, b) + [e] else Queue(bot, b))
  }

  /** `slice(0, limit)` is returned, `slice(limit)` stays. */
  function Poll(bot: BotState, b: BotId, limit: int): (BotState, seq<BotEvent>) {
    var events := Queue(bot, b);
    var cut := SliceCut(|events|, limit);
    (bot.(queues := bot.queues[b := events[cut..]]), events[..cut])
  }

  // ---------------------------------------------------------------- membership and subscriptions

  function Install(bot: BotState, w: WorkspaceId, manifest: Manifest): BotState {
    bot.(bots := bot.bots.Set(manifest.id, Bot(w, manifest, {}, {})))
  }

  function PutBot(bot: BotState, b: BotId, value: Bot): BotState {
    bot.(bots := bot.bots.Set(b, value))
  }

  function AddToChannel(s: State, b: BotId, c: ChannelId): (BotState, Outcome<()>) {
    if b !in s.bot.bots.vals || c !in s.ws.channels.vals then (s.bot, Fail(NotFound))
    else if s.ws.channels.vals[c].mode == E2e then (s.bot, Fail(E2eBotNotAllowed))
    else
      var it := s.bot.bots.vals[b];
      (PutBot(s.bot, b, it.(channelIds := it.channelIds + {c})), Ok(()))
  }

  function RemoveFromChannel(s: State, b: BotId, c: ChannelId): (BotState, Outcome<()>) {
    if b !in s.bot.bots.vals || c !in s.ws.channels.vals then (s.bot, Fail(NotFound))
    else
      var it := s.bot.bots.vals[b];
      (PutBot(s.bot, b, it.(channelIds := it.channelIds - {c})), if c in it.channelIds then Ok(()) else Fail(NotFound))
  }

  function Subscribe(bot: BotState, b: BotId, eventType: EventType): (BotState, Outcome<()>) {
    if b !in bot.bots.vals then (bot, Fail(NotFound))
    else
      var it := bot.bots.vals[b];
      (PutBot(bot, b, it.(subscribedEvents := it.subscribedEvents + {eventType})), Ok(()))
  }

  function Unsubscribe(bot: BotState, b: BotId, eventType: EventType): (BotState, Outcome<()>) {
    if b !in bot.bots.vals then (bot, Fail(NotFound))
    else
      var it := bot.bots.vals[b];
      (PutBot(bot, b, it.(subscribedEvents := it.subscribedEvents - {eventType})), Ok(()))
  }

  /** The calls that touch only the bot tables. */
  datatype BotOp =
    | InstallOp(w: WorkspaceId, manifest: Manifest)
    | AddToChannelOp(b: BotId, c: ChannelId)
    | RemoveFromChannelOp(b: BotId, c: ChannelId)
    | SubscribeOp(b: BotId, eventType: EventType)
    | UnsubscribeOp(b: BotId, eventType: EventType)
    | PollOp(b: BotId, limit: int)

  function ApplyBotOp(s: State, op: BotOp): BotState {
    match op
    case InstallOp(w, manifest) => Install(s.bot, w, manifest)
    case AddToChannelOp(b, c) => AddToChannel(s, b, c).0
    case RemoveFromChannelOp(b, c) => RemoveFromChannel(s, b, c).0
    case SubscribeOp(b, eventType) => Subscribe(s.bot, b, eventType).0
    case UnsubscribeOp(b, eventType) => Unsubscribe(s.bot, b, eventType).0
    case PollOp(b, limit) => Poll(s.bot, b, limit).0
  }

  // ---------------------------------------------------------------- commands and bot messages

  datatype Invocation =
    | Dispatched(event: BotEvent)
    | HelpReply(botId: BotId, messageId: MessageId, text: string)

  function HelpLines(commands: seq<Command>): string {
    if commands == [] then ""
    else if |commands| == 1 then commands[0].name + " - " + commands[0].description
    else commands[0].name + " - " + commands[0].description + "\n" + HelpLines(commands[1..])
  }

  function HelpText(commands: seq<Command>): string {
    "Available commands:\n" + HelpLines(commands)
  }

  predicate OffersHelp(bot: BotState, b: BotId, w: WorkspaceId) {
    b in bot.bots.vals && bot.bots.vals[b].workspaceId == w
    && exists command | command in bot.bots.vals[b].manifest.commands :: command.name == "/help"
  }

  function FindHelpBot(bot: BotState, w: WorkspaceId): Option<BotId> {
    FindFirst(bot.bots.keys, b => OffersHelp(bot, b, w))
  }

  function HelpMessage(id: MessageId, w: WorkspaceId, c: ChannelId, b: BotId, text: string, now: nat): Message {
    Message(id, w, c, b, BotReply(id), Text(text, []), StatusSent, None, None, now, None, None)
  }

  datatype InvokeResult = InvokeResult(state: State, outcome: Outcome<Invocation>, published: seq<BotEvent>)

  /** The event is published first; `/help` then stores the first help bot's reply under the fresh id. */
  function InvokeCommand(
      s: State, w: WorkspaceId, c: ChannelId, user: UserId, command: string, args: string, id: MessageId,
      now: nat): InvokeResult
  {
    if c !in s.ws.channels.vals || s.ws.channels.vals[c].mode == E2e then InvokeResult(s, Fail(E2eBotNotAllowed), [])
    else
      var event := BotEvent(CommandInvoked, w, c, CommandPayload(user, command, args), now);
      var s1 := s.(bot := Publish(s.bot, event));
      var helper := FindHelpBot(s1.bot, w);
      if command in {"/help", "help"} && helper.Some? then
        var text := HelpText(s1.bot.bots.vals[helper.value].manifest.commands);
        var msg' := Create(s1.msg, HelpMessage(id, w, c, helper.value, text, now), {}).0;
        InvokeResult(s1.(msg := msg'), Ok(HelpReply(helper.value, id, text)), [event])
      else
        InvokeResult(s1, Ok(Dispatched(event)), [event])
  }

  function BotMessage(id: MessageId, b: BotId, input: SendInput, now: nat): Message {
    Message(id, input.workspaceId, input.channelId, b, input.clientMsgId, input.content, StatusSent, None, None, now, None, None)
  }

  function SendBotMessage(s: State, b: BotId, input: SendInput, id: MessageId, now: nat): (State, Outcome<Message>) {
    if b !in s.bot.bots.vals || input.channelId !in s.ws.channels.vals then (s, Fail(NotFound))
    else if s.ws.channels.vals[input.channelId].mode == E2e then (s, Fail(E2eBotNotAllowed))
    else if !s.bot.bots.vals[b].manifest.canWrite || input.channelId !in s.bot.bots.vals[b].channelIds then (s, Fail(Forbidden))
    else
      var (msg', created) := Create(s.msg, BotMessage(id, b, input, now), {});
      (s.(msg := msg'), Ok(created))
  }

  // ---------------------------------------------------------------- isolation of bots from E2E channels

  predicate IsNormal(ws: WorkspaceState, c: ChannelId) {
    c in ws.channels.vals && ws.channels.vals[c].mode == Normal
  }

  predicate Plain(e: BotEvent) {
    !(e.payload.MessagePayload? && e.payload.message.content.Ciphertext?)
  }

  /** No bot is in an E2E channel, and no queued event names one. */
  ghost predicate BotsPlaced(ws: WorkspaceState, bot: BotState) {
    && bot.bots.Valid()
    && (forall b, c :: b in bot.bots.vals && c in bot.bots.vals[b].channelIds ==> IsNormal(ws, c))
    && (forall b, e :: b in bot.queues && e in bot.queues[b] ==> IsNormal(ws, e.channelId))
  }

  /** No queued event carries ciphertext. */
  ghost predicate EventsPlain(bot: BotState) {
    forall b, e :: b in bot.queues && e in bot.queues[b] ==> Plain(e)
  }

  ghost predicate Heard(bot: BotState, e: BotEvent) {
    exists b :: Matches(bot, b, e.channelId, e.eventType)
  }

  lemma PublishPlaced(ws: WorkspaceState, bot: BotState, e: BotEvent)
    requires BotsPlaced(ws, bot) && IsNormal(ws, e.channelId)
    ensures BotsPlaced(ws, Publish(bot, e))
  {
    var bot' := Publish(bot, e);
    forall b, x | b in bot'.queues && x in bot'.queues[b]
      ensures IsNormal(ws, x.channelId)
    {
      if x != e {
        assert x in Queue(bot, b);
      }
    }
  }

  /** Publishing keeps ciphertext out of the queues exactly when the event carries none or no bot gets it. */
  lemma PublishPlainIff(bot: BotState, e: BotEvent)
    ensures EventsPlain(Publish(bot, e)) <==> EventsPlain(bot) && (Plain(e) || !Heard(bot, e))
  {
    var bot' := Publish(bot, e);
    forall b, x | b in bot.queues && x in bot.queues[b]
      ensures b in bot'.queues && x in bot'.queues[b]
    {
      assert x in Queue(bot, b);
    }
    forall b, x | b in bot'.queues && x in bot'.queues[b]
      ensures (x == e && Heard(bot, e)) || (b in bot.queues && x in bot.queues[b])
    {
      assert x in Queue(bot, b) + [e];
    }
    if b :| Matches(bot, b, e.channelId, e.eventType) {
      assert e in bot'.queues[b];
    }
  }

  lemma PollKeeps(ws: WorkspaceState, bot: BotState, b: BotId, limit: int)
    requires BotsPlaced(ws, bot)
    ensures BotsPlaced(ws, Poll(bot, b, limit).0) && (EventsPlain(bot) ==> EventsPlain(Poll(bot, b, limit).0))
  {
    var bot' := Poll(bot, b, limit).0;
    forall x, e | x in bot'.queues && e in bot'.queues[x]
      ensures x in bot.queues && e in bot.queues[x]
    {
      if x == b {
        assert e in Queue(bot, b);
      }
    }
  }

  lemma PutBotKeeps(ws: WorkspaceState, bot: BotState, b: BotId, value: Bot)
    requires BotsPlaced(ws, bot) && (forall c :: c in value.channelIds ==> IsNormal(ws, c))
    ensures BotsPlaced(ws, PutBot(bot, b, value)) && PutBot(bot, b, value).queues == bot.queues
  {
  }

  lemma AddToChannelKeeps(s: State, b: BotId, c: ChannelId)
    requires BotsPlaced(s.ws, s.bot)
    ensures BotsPlaced(s.ws, AddToChannel(s, b, c).0)
  {
    if b in s.bot.bots.vals && IsNormal(s.ws, c) {
      var it := s.bot.bots.vals[b];
      PutBotKeeps(s.ws, s.bot, b, it.(channelIds := it.channelIds + {c}));
    }
  }

  lemma RemoveFromChannelKeeps(s: State, b: BotId, c: ChannelId)
    requires BotsPlaced(s.ws, s.bot)
    ensures BotsPlaced(s.ws, RemoveFromChannel(s, b, c).0)
  {
    if b in s.bot.bots.vals {
      var it := s.bot.bots.vals[b];
      PutBotKeeps(s.ws, s.bot, b, it.(channelIds := it.channelIds - {c}));
    }
  }

  lemma SubscriptionKeeps(ws: WorkspaceState, bot: BotState, b: BotId, eventType: EventType)
    requires BotsPlaced(ws, bot)
    ensures BotsPlaced(ws, Subscribe(bot, b, eventType).0) && BotsPlaced(ws, Unsubscribe(bot, b, eventType).0)
  {
    if b in bot.bots.vals {
      var it := bot.bots.vals[b];
      PutBotKeeps(ws, bot, b, it.(subscribedEvents := it.subscribedEvents + {eventType}));
      PutBotKeeps(ws, bot, b, it.(subscribedEvents := it.subscribedEvents - {eventType}));
    }
  }

  lemma ApplyBotOpKeeps(s: State, op: BotOp)
    requires BotsPlaced(s.ws, s.bot)
    ensures BotsPlaced(s.ws, ApplyBotOp(s, op)) && (EventsPlain(s.bot) ==> EventsPlain(ApplyBotOp(s, op)))
  {
    match op
    case InstallOp(w, manifest) => PutBotKeeps(s.ws, s.bot, manifest.id, Bot(w, manifest, {}, {}));
    case AddToChannelOp(b, c) => AddToChannelKeeps(s, b, c);
    case RemoveFromChannelOp(b, c) => RemoveFromChannelKeeps(s, b, c);
    case SubscribeOp(b, t) => SubscriptionKeeps(s.ws, s.bot, b, t);
    case UnsubscribeOp(b, t) => SubscriptionKeeps(s.ws, s.bot, b, t);
    case PollOp(b, limit) => PollKeeps(s.ws, s.bot, b, limit);
  }

  /** What publishing does to one queue. */
  lemma PublishQueue(bot: BotState, e: BotEvent, b: BotId)
    ensures Queue(Publish(bot, e), b) == Queue(bot, b) + if Matches(bot, b, e.channelId, e.eventType) then [e] else []
  {
  }

  /** Polling splits a queue: what is returned, then what stays. A limit of zero or more says how many are returned at
      most, a negative one how many stay at most. */
  lemma PollQueue(bot: BotState, b: BotId, limit: int, x: BotId)
    ensures var (bot', polled) := Poll(bot, b, limit);
      && Queue(bot, x) == (if x == b then polled else []) + Queue(bot', x)
      && (if limit >= 0 then |polled| == Min(limit, |Queue(bot, b)|) else |Queue(bot', b)| == Min(-limit, |Queue(bot, b)|))
  {
  }
}
