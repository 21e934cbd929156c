/**
 The bot service, updating the store in place; each method is proved to do exactly what `Bots` says.
 */
module BotService {
  import opened JsCollections
  import opened Ids
  import opened DmNames
  import opened Domain
  import Bots
  import MessagePersistence

  method Enqueue(store: InMemoryStore, b: BotId, e: BotEvent)
    modifies store`pendingEvents
    ensures store.pendingEvents == old(store.pendingEvents)[b := Bots.QueueIn(old(store.pendingEvents), b) + [e]]
  {
    store.pendingEvents := store.pendingEvents[b := Bots.QueueIn(store.pendingEvents, b) + [e]];
  }

  /** The bots of `ids` have got the event at the end of their queues, and no other queue has changed. */
  ghost predicate Dispatched(before: Bots.Queues, after: Bots.Queues, ids: seq<BotId>, e: BotEvent) {
    && (forall b :: b in after <==> b in before || b in ids)
    && (forall b :: b in after ==> after[b] == Bots.QueueIn(before, b) + if b in ids then [e] else [])
  }

  lemma DispatchOne(before: Bots.Queues, after: Bots.Queues, ids: seq<BotId>, b: BotId, e: BotEvent)
    requires Dispatched(before, after, ids, e) && b !in ids
    ensures Dispatched(before, after[b := Bots.QueueIn(after, b) + [e]], ids + [b], e)
  {
  }

  lemma DispatchAll(bot: BotState, after: Bots.Queues, e: BotEvent)
    requires Dispatched(bot.queues, after, Bots.MatchingBots(bot, e.channelId, e.eventType), e) && bot.bots.Valid()
    ensures bot.(queues := after) == Bots.Publish(bot, e)
  {
    hide Bots.MatchingBots;
    MatchingAre(bot, e);
    var published := Bots.Publish(bot, e).queues;
    forall b
      ensures b in after <==> b in published
      ensures b in after ==> after[b] == published[b]
    {
    }
    assert after == published;
  }

  lemma MatchingAre(bot: BotState, e: BotEvent)
    requires bot.bots.Valid()
    ensures var ids := Bots.MatchingBots(bot, e.channelId, e.eventType);
      Distinct(ids) && forall b :: b in ids <==> Bots.Matches(bot, b, e.channelId, e.eventType)
  {
    FilterDistinct(bot.bots.keys, b => Bots.Matches(bot, b, e.channelId, e.eventType));
  }

  /** One pass over the matching bots, each getting the event at the end of its queue. */
  method PublishEvent(store: InMemoryStore, e: BotEvent)
    requires store.Valid()
    modifies store`pendingEvents
    ensures store.BotView() == Bots.Publish(old(store.BotView()), e)
  {
    hide Dispatched, Bots.MatchingBots, Bots.Publish;
    ghost var before := store.BotView();
    var matching := Bots.MatchingBots(store.BotView(), e.channelId, e.eventType);
    MatchingAre(before, e);
    NothingDispatched(before.queues, e);
    for i := 0 to |matching|
      invariant store.bots == before.bots
      invariant Dispatched(before.queues, store.pendingEvents, matching[..i], e)
    {
      assert matching[..i + 1] == matching[..i] + [matching[i]] && matching[i] !in matching[..i];
      DispatchOne(before.queues, store.pendingEvents, matching[..i], matching[i], e);
      Enqueue(store, matching[i], e);
    }
    assert matching[..|matching|] == matching;
    DispatchAll(before, store.pendingEvents, e);
  }

  lemma NothingDispatched(queues: Bots.Queues, e: BotEvent)
    ensures Dispatched(queues, queues, [], e)
  {
  }

  method PollEvents(store: InMemoryStore, b: BotId, limit: int) returns (polled: seq<BotEvent>)
    modifies store`pendingEvents
    ensures (store.BotView(), polled) == Bots.Poll(old(store.BotView()), b, limit)
  {
    var events := Bots.Queue(store.BotView(), b);
    var cut := SliceCut(|events|, limit);
    polled := events[..cut];
    store.pendingEvents := store.pendingEvents[b := events[cut..]];
  }

  method Install(store: InMemoryStore, w: WorkspaceId, manifest: Manifest)
    requires store.Valid()
    modifies store`bots
    ensures store.Valid()
    ensures store.BotView() == Bots.Install(old(store.BotView()), w, manifest)
  {
    store.bots := store.bots.Set(manifest.id, Bot(w, manifest, {}, {}));
  }

  method AddToChannel(store: InMemoryStore, b: BotId, c: ChannelId) returns (outcome: Outcome<()>)
    requires store.Valid()
    modifies store`bots
    ensures store.Valid()
    ensures (store.BotView(), outcome) == Bots.AddToChannel(old(store.View()), b, c)
  {
    if b !in store.bots.vals || c !in store.channels.vals {
      return Fail(NotFound);
    }
    if store.channels.vals[c].mode == E2e {
      return Fail(E2eBotNotAllowed);
    }
    var bot := store.bots.vals[b];
    store.bots := store.bots.Set(b, bot.(channelIds := bot.channelIds + {c}));
    outcome := Ok(());
  }

  method RemoveFromChannel(store: InMemoryStore, b: BotId, c: ChannelId) returns (outcome: Outcome<()>)
    requires store.Valid()
    modifies store`bots
    ensures store.Valid()
    ensures (store.BotView(), outcome) == Bots.RemoveFromChannel(old(store.View()), b, c)
  {
    if b !in store.bots.vals || c !in store.channels.vals {
      return Fail(NotFound);
    }
    var bot := store.bots.vals[b];
    outcome := if c in bot.channelIds then Ok(()) else Fail(NotFound);
    store.bots := store.bots.Set(b, bot.(channelIds := bot.channelIds - {c}));
  }

  method Subscribe(store: InMemoryStore, b: BotId, eventType: EventType) returns (outcome: Outcome<()>)
    requires store.Valid()
    modifies store`bots
    ensures store.Valid()
    ensures (store.BotView(), outcome) == Bots.Subscribe(old(store.BotView()), b, eventType)
  {
    if b !in store.bots.vals {
      return Fail(NotFound);
    }
    var bot := store.bots.vals[b];
    store.bots := store.bots.Set(b, bot.(subscribedEvents := bot.subscribedEvents + {eventType}));
    outcome := Ok(());
  }

  method Unsubscribe(store: InMemoryStore, b: BotId, eventType: EventType) returns (outcome: Outcome<()>)
    requires store.Valid()
    modifies store`bots
    ensures store.Valid()
    ensures (store.BotView(), outcome) == Bots.Unsubscribe(old(store.BotView()), b, eventType)
  {
    if b !in store.bots.vals {
      return Fail(NotFound);
    }
    var bot := store.bots.vals[b];
    store.bots := store.bots.Set(b, bot.(subscribedEvents := bot.subscribedEvents - {eventType}));
    outcome := Ok(());
  }

  method InvokeCommand(
      store: InMemoryStore, w: WorkspaceId, c: ChannelId, user: UserId, command: string, args: string,
      id: MessageId, now: nat)
    returns (outcome: Outcome<Bots.Invocation>)
    requires store.Valid()
    modifies store
    ensures store.Valid()
    ensures var r := Bots.InvokeCommand(old(store.View()), w, c, user, command, args, id, now);
      store.View() == r.state && outcome == r.outcome
  {
    hide Bots.Publish, Bots.HelpText, Bots.Queue;
    if c !in store.channels.vals || store.channels.vals[c].mode == E2e {
      return Fail(E2eBotNotAllowed);
    }
    var event := BotEvent(CommandInvoked, w, c, CommandPayload(user, command, args), now);
    PublishEvent(store, event);
    assert store.View() == old(store.View()).(bot := Bots.Publish(old(store.BotView()), event));
    if command == "/help" || command == "help" {
      var helper := Bots.FindHelpBot(store.BotView(), w);
      if helper.Some? {
        var text := Bots.HelpText(store.bots.vals[helper.value].manifest.commands);
        var message := Message(id, w, c, helper.value, BotReply(id), Text(text, []), StatusSent, None, None, now, None, None);
        assert (set f: FileId | f in []) == {};
        var _ := MessagePersistence.Create(store, message, []);
        return Ok(Bots.HelpReply(helper.value, id, text));
      }
    }
    outcome := Ok(Bots.Dispatched(event));
  }

  method SendBotMessage(
      store: InMemoryStore, b: BotId, input: SendInput, id: MessageId, now: nat) returns (outcome: Outcome<Message>)
    requires store.Valid()
    modifies store
    ensures store.Valid()
    ensures (store.View(), outcome) == Bots.SendBotMessage(old(store.View()), b, input, id, now)
  {
    var c := input.channelId;
    if b !in store.bots.vals || c !in store.channels.vals {
      return Fail(NotFound);
    }
    if store.channels.vals[c].mode == E2e {
      return Fail(E2eBotNotAllowed);
    }
    if !(store.bots.vals[b].manifest.canWrite && c in store.bots.vals[b].channelIds) {
      return Fail(Forbidden);
    }
    var message := Message(id, input.workspaceId, c, b, input.clientMsgId, input.content, StatusSent, None, None, now, None, None);
    assert (set f: FileId | f in []) == {};
    var created := MessagePersistence.Create(store, message, []);
    outcome := Ok(created);
  }
}
