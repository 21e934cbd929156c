/**
 The message service, updating the store in place; each method is proved to do exactly what `Messages` says.
 */
module MessageService {
  import opened JsCollections
  import opened Ids
  import opened DmNames
  import opened Domain
  import Workspaces
  import MessageStore
  import Bots
  import Messages
  import Effects
  import Reactions
  import BotService
  import MessagePersistence

  // ---------------------------------------------------------------- sending

  method Send(store: InMemoryStore, actor: UserId, input: SendInput, attachmentError: Option<Error>, id: MessageId, now: nat)
    returns (outcome: Outcome<Message>)
    requires store.Valid()
    modifies store
    ensures store.Valid()
    ensures var r := Messages.Send(old(store.View()), actor, input, attachmentError, id, now);
      store.View() == r.state && outcome == r.outcome
  {
    hide Workspaces.CanAccessChannel, MessageStore.FindByClient, Messages.Finish;
    var s := store.View();
    var c := input.channelId;
    if c !in store.channels.vals || store.channels.vals[c].workspaceId != input.workspaceId
       || !Workspaces.CanAccessChannel(s.ws, actor, c) {
      return Fail(Forbidden);
    }
    var mode := store.channels.vals[c].mode;
    if mode == E2e && !input.content.Ciphertext? {
      return Fail(ValidationFailed);
    }
    if mode == Normal && input.content.Ciphertext? {
      return Fail(ValidationFailed);
    }
    var existing := MessageStore.FindByClient(s.msg, actor, input.clientMsgId);
    if existing.Some? {
      return Ok(existing.value);
    }
    if input.replyTo.Some? {
      var reply := MessageStore.Find(s.msg, input.replyTo.value);
      if reply.None? || reply.value.channelId != c || reply.value.status == StatusDeleted {
        return Fail(NotFound);
      }
    }
    if attachmentError.Some? {
      return Fail(attachmentError.value);
    }
    var created := Finish(store, actor, input, id, now);
    outcome := Ok(created);
  }

  /** The second half: whatever `create` answers is published, when the channel is normal. */
  method Finish(store: InMemoryStore, actor: UserId, input: SendInput, id: MessageId, now: nat) returns (created: Message)
    requires store.Valid()
    modifies store
    ensures store.Valid()
    ensures var r := Messages.Finish(old(store.View()), actor, input, id, now);
      store.View() == r.state && Ok(created) == r.outcome
  {
    hide MessageStore.FindByClient, MessageStore.Create, Bots.Publish;
    var c := input.channelId;
    var message := Message(
      id, input.workspaceId, c, actor, input.clientMsgId, input.content, StatusSent, input.replyTo, None, now, None, None);
    var files := if input.content.Tombstone? then [] else input.content.attachments;
    created := MessagePersistence.Create(store, message, files);
    if c in store.channels.vals && store.channels.vals[c].mode == Normal {
      BotService.PublishEvent(store, BotEvent(MessageCreated, input.workspaceId, c, MessagePayload(created), now));
    }
  }

  // ---------------------------------------------------------------- reading

  method ListPage(
      store: InMemoryStore, actor: UserId, c: ChannelId, cursor: Option<MessageId>, limit: nat, now: nat) returns (page: Messages.Page)
    requires store.Valid()
    ensures page == Messages.ListPage(store.View(), actor, c, cursor, limit, now)
  {
    if !Workspaces.CanAccessChannel(store.WorkspaceView(), actor, c) {
      return Messages.Page([], None);
    }
    var items := Messages.AllVisible(MessageStore.List(store.MessageView(), c, cursor, limit), now);
    if |items| == limit && |items| > 0 {
      page := Messages.Page(items, Some(items[|items| - 1].id));
    } else {
      page := Messages.Page(items, None);
    }
  }

  method GetReactions(store: InMemoryStore, actor: UserId, c: ChannelId) returns (summary: Reactions.Summary)
    requires store.Valid()
    ensures if Workspaces.CanAccessChannel(store.WorkspaceView(), actor, c)
      then Reactions.SummaryIs(summary, store.messages, store.messageReactions.keys, c, actor)
      else summary == Empty()
  {
    if Workspaces.CanAccessChannel(store.WorkspaceView(), actor, c) {
      summary := Reactions.Aggregate(store.messages, store.messageReactions, c, actor);
    } else {
      summary := Empty();
    }
  }

  // ---------------------------------------------------------------- changing messages

  method Edit(store: InMemoryStore, actor: UserId, id: MessageId, text: string, now: nat) returns (outcome: Outcome<Message>)
    requires store.Valid()
    modifies store
    ensures store.Valid()
    ensures var (msg', r) := Messages.Edit(old(store.MessageView()), actor, id, text, now);
      store.View() == old(store.View()).(msg := msg') && outcome == r
  {
    var m := MessageStore.Find(store.MessageView(), id);
    if m.None? || m.value.senderId != actor {
      return Fail(Forbidden);
    }
    if !m.value.content.Text? {
      return Fail(ValidationFailed);
    }
    var updated := m.value.(content := m.value.content.(text := text), editedAt := Some(now));
    MessagePersistence.Update(store, updated);
    store.messageEvents := store.messageEvents + [MessageUpdated(updated, now)];
    outcome := Ok(updated);
  }

  method SoftDelete(store: InMemoryStore, actor: UserId, id: MessageId, now: nat) returns (outcome: Outcome<Message>)
    requires store.Valid()
    modifies store
    ensures store.Valid()
    ensures var (msg', r) := Messages.SoftDelete(old(store.MessageView()), actor, id, now);
      store.View() == old(store.View()).(msg := msg') && outcome == r
  {
    var m := MessageStore.Find(store.MessageView(), id);
    if m.None? || m.value.senderId != actor {
      return Fail(Forbidden);
    }
    var updated := Messages.Entomb(m.value, Deleted, now);
    MessagePersistence.Update(store, updated);
    store.messageEvents := store.messageEvents + [MessageDeleted(updated, now)];
    outcome := Ok(updated);
  }

  method Forward(
      store: InMemoryStore, actor: UserId, id: MessageId, target: ChannelId, client: ClientMsgId,
      attachmentError: Option<Error>, newId: MessageId, now: nat)
    returns (outcome: Outcome<Message>)
    requires store.Valid()
    modifies store
    ensures store.Valid()
    ensures var r := Messages.Forward(old(store.View()), actor, id, target, client, attachmentError, newId, now);
      store.View() == r.state && outcome == r.outcome
  {
    hide Workspaces.CanAccessChannel, Messages.Send;
    var s := store.View();
    var source := MessageStore.Find(s.msg, id);
    if source.None? || target !in store.channels.vals {
      return Fail(NotFound);
    }
    if !Workspaces.CanAccessChannel(s.ws, actor, source.value.channelId) {
      return Fail(Forbidden);
    }
    var input := SendInput(store.channels.vals[target].workspaceId, target, client, source.value.content, None);
    var sent := Send(store, actor, input, attachmentError, newId, now);
    if sent.Fail? {
      return sent;
    }
    var origin := if source.value.origin.Some? then source.value.origin.value
                  else Origin(source.value.id, source.value.senderId, source.value.createdAt);
    var updated := sent.value.(origin := Some(origin));
    MessagePersistence.Update(store, updated);
    outcome := Ok(updated);
  }

  method Save(store: InMemoryStore, actor: UserId, id: MessageId, now: nat) returns (outcome: Outcome<nat>)
    requires store.Valid()
    modifies store
    ensures store.Valid()
    ensures var (msg', r) := Messages.Save(old(store.View()), actor, id, now);
      store.View() == old(store.View()).(msg := msg') && outcome == r
  {
    var m := MessageStore.Find(store.MessageView(), id);
    if m.None? {
      return Fail(NotFound);
    }
    if !Workspaces.CanAccessChannel(store.WorkspaceView(), actor, m.value.channelId) {
      return Fail(Forbidden);
    }
    var savedAt := MessagePersistence.Save(store, actor, id, now);
    outcome := Ok(savedAt);
  }

  method React(
      store: InMemoryStore, actor: UserId, id: MessageId, emoji: Emoji, add: bool, now: nat) returns (outcome: Outcome<nat>)
    requires store.Valid()
    modifies store
    ensures store.Valid()
    ensures var (msg', r) := Messages.React(old(store.View()), actor, id, emoji, add, now);
      store.View() == old(store.View()).(msg := msg') && outcome == r
  {
    var m := MessageStore.Find(store.MessageView(), id);
    if m.None? {
      return Fail(NotFound);
    }
    if !Workspaces.CanAccessChannel(store.WorkspaceView(), actor, m.value.channelId) {
      return Fail(Forbidden);
    }
    var count := MessagePersistence.React(store, id, actor, emoji, add, now);
    store.messageEvents := store.messageEvents + [MessageReaction(m.value.channelId, id, emoji, count, add, now)];
    outcome := Ok(count);
  }

  // ---------------------------------------------------------------- receipts

  method AckRead(store: InMemoryStore, actor: UserId, id: MessageId, now: nat) returns (outcome: Outcome<()>)
    requires store.Valid()
    modifies store
    ensures store.Valid()
    ensures var (msg', r) := Messages.AckRead(old(store.View()), actor, id, now);
      store.View() == old(store.View()).(msg := msg') && outcome == r
  {
    hide Messages.Entomb;
    hide Workspaces.CanAccessChannel;
    var m := MessageStore.Find(store.MessageView(), id);
    if m.None? {
      return Fail(NotFound);
    }
    if !Workspaces.CanAccessChannel(store.WorkspaceView(), actor, m.value.channelId) {
      return Fail(Forbidden);
    }
    if m.value.senderId != actor {
      var first := MessagePersistence.RecordReceipt(store, Receipt(id, actor));
      if first {
        store.pendingReadReceipts := store.pendingReadReceipts + [Receipt(id, actor)];
      }
    }
    var read := m.value.(status := StatusRead);
    if m.value.content.Ciphertext? && m.value.content.readOnce {
      MessagePersistence.Update(store, Messages.Entomb(read, ReadOnceConsumed, now));
    } else {
      MessagePersistence.Update(store, read);
    }
    outcome := Ok(());
  }

  /** Drains the selected receipts, groups the readers by message, and looks each message up again for its channel. */
  method FlushReadReceipts(store: InMemoryStore, channel: Option<ChannelId>, now: nat) returns (batches: seq<Messages.Batch>)
    requires store.Valid()
    modifies store
    ensures store.Valid()
    ensures var (msg', r) := Messages.FlushReceipts(old(store.MessageView()), channel, now);
      store.View() == old(store.View()).(msg := msg') && batches == r
  {
    ghost var before := store.MessageView();
    var msg := store.MessageView();
    var pending := Filter(store.pendingReadReceipts, Messages.Drained(msg, channel));
    store.pendingReadReceipts := Filter(store.pendingReadReceipts, Messages.Undrained(msg, channel));
    var groups := GroupByMessage(pending);
    var ids := groups.keys;
    batches := [];
    for i := 0 to |ids|
      invariant batches == Messages.BatchesFor(before, ids[..i], groups.vals, now)
    {
      assert ids[..i + 1][..i] == ids[..i];
      if ids[i] in store.messages.vals {
        batches := batches + [Messages.Batch(ids[i], store.messages.vals[ids[i]].channelId, groups.vals[ids[i]], now)];
      }
    }
    assert ids[..|ids|] == ids;
  }

  method GroupByMessage(pending: seq<Receipt>) returns (groups: JsMap<MessageId, seq<UserId>>)
    ensures groups == Messages.GroupReaders(pending)
  {
    groups := Empty();
    for i := 0 to |pending|
      invariant groups == Messages.GroupReaders(pending[..i])
    {
      var r := pending[i];
      assert pending[..i + 1][..i] == pending[..i];
      groups := groups.Set(r.messageId, (if r.messageId in groups.vals then groups.vals[r.messageId] else []) + [r.user]);
    }
    assert pending[..|pending|] == pending;
  }

  // ---------------------------------------------------------------- cleaning up

  predicate HasId(ms: seq<Message>, id: MessageId) {
    exists m :: m in ms && m.id == id
  }

  /** The first `done` of the expired messages have been replaced by tombstones, and nothing else has changed. */
  ghost predicate Entombed(
      before: MessageStore.MessageTable, after: MessageStore.MessageTable, done: seq<Message>, now: nat)
  {
    && after.keys == before.keys && after.vals.Keys == before.vals.Keys
    && (forall id :: id in before.vals ==>
          after.vals[id] == if HasId(done, id) then Messages.Entomb(before.vals[id], Expired, now) else before.vals[id])
  }

  lemma EntombOne(
      before: MessageStore.MessageTable, after: MessageStore.MessageTable, done: seq<Message>, m: Message,
      now: nat)
    requires Entombed(before, after, done, now) && before.Get(m.id) == Some(m)
    ensures Entombed(before, after.Set(m.id, Messages.Entomb(m, Expired, now)), done + [m], now)
  {
    hide Messages.Entomb;
    assert forall id :: HasId(done + [m], id) <==> HasId(done, id) || id == m.id by {
      assert m in done + [m];
      assert forall x :: x in done ==> x in done + [m];
    }
  }

  lemma EntombAll(msg: MessageState, after: MessageStore.MessageTable, before: nat, now: nat)
    requires msg.messages.Valid() && forall id :: id in msg.messages.vals ==> msg.messages.vals[id].id == id
    requires Entombed(msg.messages, after, MessageStore.ListExpired(msg, before), now)
    ensures after == Messages.CleanUp(msg, before, now).messages
  {
    hide Messages.Entomb, MessageStore.IsExpired;
    var expired := MessageStore.ListExpired(msg, before);
    forall id | id in msg.messages.vals
      ensures HasId(expired, id) <==> MessageStore.IsExpired(msg.messages.vals[id], before)
    {
      ExpiredIs(msg, before, id);
    }
    var cleaned := Messages.CleanUp(msg, before, now).messages;
    assert after.vals.Keys == cleaned.vals.Keys;
    forall id | id in after.vals
      ensures after.vals[id] == cleaned.vals[id]
    {
    }
    assert after.vals == cleaned.vals;
  }

  lemma ExpiredIs(msg: MessageState, before: nat, id: MessageId)
    requires msg.messages.Valid() && forall id :: id in msg.messages.vals ==> msg.messages.vals[id].id == id
    ensures forall m :: m in MessageStore.ListExpired(msg, before) ==> msg.messages.Get(m.id) == Some(m) && MessageStore.IsExpired(m, before)
    ensures id in msg.messages.vals ==> (HasId(MessageStore.ListExpired(msg, before), id) <==> MessageStore.IsExpired(msg.messages.vals[id], before))
  {
    hide MessageStore.IsExpired;
    var values := msg.messages.Values();
    forall m | m in values
      ensures msg.messages.Get(m.id) == Some(m)
    {
      var i :| 0 <= i < |values| && values[i] == m;
      var k := msg.messages.keys[i];
      assert k in msg.messages.vals && m == msg.messages.vals[k];
      assert m.id == k;
    }
    if id in msg.messages.vals {
      var i :| 0 <= i < |msg.messages.keys| && msg.messages.keys[i] == id;
      assert values[i] in values;
    }
  }

  /** Each message listed as expired is replaced, one at a time, by the tombstone of the copy that was listed. */
  method CleanUpExpiredMessages(store: InMemoryStore, before: nat, now: nat) returns (cleaned: seq<Message>)
    requires store.Valid() && forall id :: id in store.messages.vals ==> store.messages.vals[id].id == id
    modifies store`messages
    ensures store.Valid()
    ensures store.MessageView() == Messages.CleanUp(old(store.MessageView()), before, now)
    ensures var expired := MessageStore.ListExpired(old(store.MessageView()), before);
      |cleaned| == |expired| && forall i :: 0 <= i < |expired| ==> cleaned[i] == Messages.Entomb(expired[i], Expired, now)
    ensures forall m :: m in cleaned ==> store.messages.Get(m.id) == Some(m)
    ensures Effects.IdsOf(cleaned) == Effects.DueIds(old(store.messages), before)
  {
    hide Entombed, Messages.CleanUp, MessageStore.ListExpired, MessageStore.IsExpired;
    ghost var msg := store.MessageView();
    var expired := MessageStore.ListExpired(store.MessageView(), before);
    ExpiredIs(msg, before, 0);
    NoneEntombed(msg.messages, now);
    cleaned := [];
    for i := 0 to |expired|
      invariant store.Valid() && Entombed(msg.messages, store.messages, expired[..i], now)
      invariant |cleaned| == i && forall k :: 0 <= k < i ==> cleaned[k] == Messages.Entomb(expired[k], Expired, now)
    {
      assert expired[..i + 1] == expired[..i] + [expired[i]] && expired[i] in expired;
      EntombOne(msg.messages, store.messages, expired[..i], expired[i], now);
      var entombed := Messages.Entomb(expired[i], Expired, now);
      MessagePersistence.Update(store, entombed);
      cleaned := cleaned + [entombed];
    }
    assert expired[..|expired|] == expired;
    CleanedAreStored(msg, store.messages, expired, cleaned, now);
    EntombAll(msg, store.messages, before, now);
    CleanUpIs(msg, before, now);
    Effects.ExpiredListIsTheDue(msg, before);
    CleanedIds(expired, cleaned, now);
  }

  lemma CleanedIds(expired: seq<Message>, cleaned: seq<Message>, now: nat)
    requires |cleaned| == |expired| && forall i :: 0 <= i < |expired| ==> cleaned[i] == Messages.Entomb(expired[i], Expired, now)
    ensures Effects.IdsOf(cleaned) == Effects.IdsOf(expired)
  {
  }

  lemma CleanedAreStored(
      msg: MessageState, after: MessageStore.MessageTable, expired: seq<Message>, cleaned: seq<Message>, now: nat)
    requires Entombed(msg.messages, after, expired, now) && (forall m :: m in expired ==> msg.messages.Get(m.id) == Some(m))
    requires |cleaned| == |expired| && forall i :: 0 <= i < |expired| ==> cleaned[i] == Messages.Entomb(expired[i], Expired, now)
    ensures forall m :: m in cleaned ==> after.Get(m.id) == Some(m)
  {
    forall m | m in cleaned
      ensures after.Get(m.id) == Some(m)
    {
      var i :| 0 <= i < |cleaned| && cleaned[i] == m;
      assert expired[i] in expired && HasId(expired, expired[i].id);
    }
  }

  lemma NoneEntombed(messages: MessageStore.MessageTable, now: nat)
    ensures Entombed(messages, messages, [], now)
  {
  }

  lemma CleanUpIs(msg: MessageState, before: nat, now: nat)
    ensures Messages.CleanUp(msg, before, now) == msg.(messages := Messages.CleanUp(msg, before, now).messages)
  {
  }
}
