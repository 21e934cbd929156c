/**
 What each message call answers and changes, in plain terms: who is let through, what the row holds afterwards, and what
 stays as it was.
 */
module Effects {
  import opened JsCollections
  import opened Ids
  import opened DmNames
  import opened Domain
  import opened Workspaces
  import opened MessageStore
  import opened Bots
  import opened Messages
  import opened Runs

  /** The table has the same rows in the same places, but for what row `id` holds. */
  ghost predicate OnlyRowChanges(before: MessageTable, after: MessageTable, id: MessageId) {
    && after.keys == before.keys && after.vals.Keys == before.vals.Keys
    && (forall x :: x in before.vals && x != id ==> after.vals[x] == before.vals[x])
  }

  // ---------------------------------------------------------------- sending

  function FilesIn(content: Content): set<FileId> {
    if content.Tombstone? then {} else set f | f in content.attachments
  }

  /** One new row with the input in it and the files recorded; every other row and its files as they were. */
  ghost predicate StoresTheInput(
      before: MessageState, after: MessageState, actor: UserId, input: SendInput, files: set<FileId>, id: MessageId, now: nat)
  {
    && after.messages.keys == before.messages.keys + [id] && id in after.messages.vals && id in after.attachments
    && (var m := after.messages.vals[id];
        && m.id == id && m.senderId == actor && m.workspaceId == input.workspaceId && m.channelId == input.channelId
        && m.clientMsgId == input.clientMsgId && m.content == input.content && m.replyTo == input.replyTo
        && m.status == StatusSent && m.createdAt == now && m.origin == None && m.editedAt == None && m.deletedAt == None)
    && after.attachments[id] == files
    && (forall x :: x != id ==> before.messages.Get(x) == after.messages.Get(x))
    && (forall x :: x != id ==> (x in after.attachments <==> x in before.attachments))
    && (forall x :: x != id && x in before.attachments ==> after.attachments[x] == before.attachments[x])
    && (actor, input.clientMsgId) in after.byClientId && after.byClientId[(actor, input.clientMsgId)] == id
    && (forall key :: key != (actor, input.clientMsgId) ==> (key in after.byClientId <==> key in before.byClientId))
    && (forall key :: key != (actor, input.clientMsgId) && key in before.byClientId ==> after.byClientId[key] == before.byClientId[key])
    && after.reactions == before.reactions && after.saved == before.saved && after.receipts == before.receipts
    && after.pendingReceipts == before.pendingReceipts && after.events == before.events
  }

  /** What is published for a row: one event about it under the input's channel when that is normal, else nothing. */
  ghost predicate AnnouncesRow(s: State, input: SendInput, m: Message, now: nat, published: seq<BotEvent>) {
    if input.channelId in s.ws.channels.vals && s.ws.channels.vals[input.channelId].mode == Normal
    then published == [BotEvent(MessageCreated, input.workspaceId, input.channelId, MessagePayload(m), now)]
    else published == []
  }

  /** The second half of a send on a free key stores the input and nothing else, answers the new row and announces it. */
  lemma {:induction false} FinishStoresTheInput(s: State, actor: UserId, input: SendInput, id: MessageId, now: nat)
    requires MessageInv(s.msg) && id !in s.msg.messages.vals && (actor, input.clientMsgId) !in s.msg.byClientId
    ensures var r := Finish(s, actor, input, id, now);
      && StoresTheInput(s.msg, r.state.msg, actor, input, FilesIn(input.content), id, now) && r.outcome == Ok(r.state.msg.messages.vals[id])
      && r.state.ws == s.ws && AnnouncesRow(s, input, r.state.msg.messages.vals[id], now, r.published)
  {
    hide Publish, MessageInv;
    UnknownIsNew(s.msg, actor, input.clientMsgId);
  }

  lemma UnknownIsNew(msg: MessageState, actor: UserId, c: ClientMsgId)
    requires MessageInv(msg) && (actor, c) !in msg.byClientId
    ensures FindByClient(msg, actor, c).None?
  {
  }

  /** A reply must name an undeleted message of the same channel. */
  ghost predicate ReplyFits(msg: MessageState, input: SendInput) {
    input.replyTo.Some? ==>
      && input.replyTo.value in msg.messages.vals
      && msg.messages.vals[input.replyTo.value].channelId == input.channelId
      && msg.messages.vals[input.replyTo.value].status != StatusDeleted
  }

  /** A send is answered with a message exactly when its channel is in the named workspace, the sender may access it, the content
      has the channel's mode, and the client id is known or the reply and the attachments are good.  A known client id
      is answered with its row; a free one stores the input; a refusal changes nothing, and says which of these failed. */
  lemma {:induction false} SendStoresTheInput(
      s: State, actor: UserId, input: SendInput, error: Option<Error>, id: MessageId, now: nat)
    requires MessageInv(s.msg) && id !in s.msg.messages.vals
    ensures var r := Send(s, actor, input, error, id, now);
      var c, key := input.channelId, (actor, input.clientMsgId);
      var allowed := CanAccessChannel(s.ws, actor, c) && s.ws.channels.vals[c].workspaceId == input.workspaceId;
      var fits := allowed && (s.ws.channels.vals[c].mode == E2e <==> input.content.Ciphertext?);
      && (r.outcome.Ok? <==> fits && (key in s.msg.byClientId || (ReplyFits(s.msg, input) && error.None?)))
      && (r.outcome.Ok? && key in s.msg.byClientId ==>
            r.state == s && r.published == [] && Some(r.outcome.value) == s.msg.messages.Get(s.msg.byClientId[key]))
      && (r.outcome.Ok? && key !in s.msg.byClientId ==>
            && StoresTheInput(s.msg, r.state.msg, actor, input, FilesIn(input.content), id, now)
            && r.outcome == Ok(r.state.msg.messages.vals[id])
            && r.state.ws == s.ws && AnnouncesRow(s, input, r.state.msg.messages.vals[id], now, r.published))
      && (r.outcome.Fail? ==>
            && r.state == s && r.published == []
            && Some(r.outcome.error) == (if !allowed then Some(Forbidden) else if !fits then Some(ValidationFailed)
                                         else if !ReplyFits(s.msg, input) then Some(NotFound) else error))
  {
    hide Finish, MessageInv, CanAccessChannel, StoresTheInput, AnnouncesRow;
    NeedsChannel(s.ws, actor, input.channelId);
    SendFinds(s.msg, (actor, input.clientMsgId));
    if (actor, input.clientMsgId) !in s.msg.byClientId {
      FinishStoresTheInput(s, actor, input, id, now);
    }
  }

  lemma NeedsChannel(ws: WorkspaceState, user: UserId, c: ChannelId)
    ensures CanAccessChannel(ws, user, c) ==> c in ws.channels.vals
  {
  }

  lemma SendFinds(msg: MessageState, key: (UserId, ClientMsgId))
    requires MessageInv(msg)
    ensures FindByClient(msg, key.0, key.1) == if key in msg.byClientId then msg.messages.Get(msg.byClientId[key]) else None
    ensures key in msg.byClientId ==> FindByClient(msg, key.0, key.1).Some?
  {
    FindByClientIs(msg, key);
  }

  // ---------------------------------------------------------------- editing and deleting

  /** Only the sender of a text edits it; the text and the edit time change, nothing else does, and one event says so. */
  lemma EditChangesTheText(msg: MessageState, actor: UserId, id: MessageId, text: string, now: nat)
    requires MessageInv(msg)
    ensures var (msg', outcome) := Edit(msg, actor, id, text, now);
      var mine := id in msg.messages.vals && msg.messages.vals[id].senderId == actor;
      && (outcome.Ok? <==> mine && msg.messages.vals[id].content.Text?)
      && (outcome.Fail? ==> msg' == msg && outcome.error == if mine then ValidationFailed else Forbidden)
      && (outcome.Ok? ==>
            var m, m' := msg.messages.vals[id], msg'.messages.vals[id];
            && m'.content == Text(text, m.content.attachments) && m'.editedAt == Some(now)
            && m' == m.(content := m'.content, editedAt := m'.editedAt) && outcome.value == m'
            && OnlyRowChanges(msg.messages, msg'.messages, id)
            && msg' == msg.(messages := msg'.messages, events := msg.events + [MessageUpdated(m', now)]))
  {
    if Find(msg, id).Some? {
      FoundIs(msg, id);
    }
  }

  /** Only the sender deletes; the row becomes a tombstone that keeps its first deletion time. */
  lemma SoftDeleteEntombs(msg: MessageState, actor: UserId, id: MessageId, now: nat)
    requires MessageInv(msg)
    ensures var (msg', outcome) := SoftDelete(msg, actor, id, now);
      && (outcome.Ok? <==> id in msg.messages.vals && msg.messages.vals[id].senderId == actor)
      && (outcome.Fail? ==> msg' == msg && outcome.error == Forbidden)
      && (outcome.Ok? ==>
            var m, m' := msg.messages.vals[id], msg'.messages.vals[id];
            && m'.content == Tombstone(Deleted) && m'.status == StatusDeleted
            && m'.deletedAt == (if m.deletedAt.Some? then m.deletedAt else Some(now))
            && m' == m.(content := m'.content, status := m'.status, deletedAt := m'.deletedAt) && outcome.value == m'
            && OnlyRowChanges(msg.messages, msg'.messages, id)
            && msg' == msg.(messages := msg'.messages, events := msg.events + [MessageDeleted(m', now)]))
  {
    if Find(msg, id).Some? {
      FoundIs(msg, id);
    }
  }

  // ---------------------------------------------------------------- forwarding

  /** An accepted forward answers a stored row of the target channel's send, under the origin of its source: the source itself, or,
      when that was forwarded, where it came from.  On a free client id all the rest is as a send of the source's content leaves it. */
  lemma {:induction false} ForwardKeepsTheFirstOrigin(
      s: State, actor: UserId, id: MessageId, target: ChannelId, client: ClientMsgId, error: Option<Error>,
      newId: MessageId, now: nat)
    requires MessageInv(s.msg) && newId !in s.msg.messages.vals
    ensures var r := Forward(s, actor, id, target, client, error, newId, now);
      r.outcome.Ok? ==>
        && id in s.msg.messages.vals && target in s.ws.channels.vals
        && var source, m := s.msg.messages.vals[id], r.outcome.value;
        && r.state.msg.messages.Get(m.id) == Some(m) && r.state.ws == s.ws && m.senderId == actor && m.clientMsgId == client
        && (source.origin.Some? ==> m.origin == source.origin)
        && (source.origin.None? ==> m.origin == Some(Origin(id, source.senderId, source.createdAt)))
        && ((actor, client) !in s.msg.byClientId ==>
              var input := SendInput(s.ws.channels.vals[target].workspaceId, target, client, source.content, None);
              var sent := m.(origin := None);
              && m.id == newId && AnnouncesRow(s, input, sent, now, r.published)
              && var msg' := r.state.msg.(messages := r.state.msg.messages.Set(newId, sent));
              StoresTheInput(s.msg, msg', actor, input, FilesIn(source.content), newId, now))
        && ((actor, client) in s.msg.byClientId ==>
              && m.id == s.msg.byClientId[(actor, client)] && m.id in s.msg.messages.vals && r.published == []
              && m == s.msg.messages.vals[m.id].(origin := m.origin) && r.state.msg == s.msg.(messages := r.state.msg.messages))
        && (forall x :: x != m.id ==> r.state.msg.messages.Get(x) == s.msg.messages.Get(x))
  {
    hide Send, MessageInv, CanAccessChannel, StoresTheInput;
    if Find(s.msg, id).Some? && target in s.ws.channels.vals {
      FoundIs(s.msg, id);
      var input := ForwardInput(s, s.msg.messages.vals[id], target, client);
      ForwardSends(s, actor, input, error, newId, now);
      var sent := Send(s, actor, input, error, newId, now);
      if sent.outcome.Ok? {
        SetBack(sent.state.msg.messages, sent.outcome.value, sent.outcome.value.(origin := Some(OriginOf(s.msg.messages.vals[id]))));
      }
    }
  }

  lemma SetBack(ms: MessageTable, m: Message, other: Message)
    requires ms.Get(m.id) == Some(m)
    ensures ms.Set(m.id, other).Set(m.id, m) == ms
  {
    assert ms.Set(m.id, other).Set(m.id, m).vals == ms.vals;
  }

  /** What a forward needs to know of its send. */
  lemma ForwardSends(s: State, actor: UserId, input: SendInput, error: Option<Error>, id: MessageId, now: nat)
    requires MessageInv(s.msg) && id !in s.msg.messages.vals
    ensures var r := Send(s, actor, input, error, id, now);
      var key := (actor, input.clientMsgId);
      && r.state.ws == s.ws
      && (r.outcome.Ok? ==>
            && r.state.msg.messages.Get(r.outcome.value.id) == Some(r.outcome.value) && ClientKey(r.outcome.value) == key
            && (forall x :: x != r.outcome.value.id ==> r.state.msg.messages.Get(x) == s.msg.messages.Get(x)))
      && (r.outcome.Ok? && key !in s.msg.byClientId ==>
            && StoresTheInput(s.msg, r.state.msg, actor, input, FilesIn(input.content), id, now) && r.outcome.value.id == id
            && r.outcome.value.origin == None && AnnouncesRow(s, input, r.outcome.value, now, r.published))
      && (r.outcome.Ok? && key in s.msg.byClientId ==> r.state == s && r.published == [] && r.outcome.value.id == s.msg.byClientId[key])
  {
    hide Send, MessageInv, CanAccessChannel;
    SendStoresTheInput(s, actor, input, error, id, now);
    SendStores(s, actor, input, error, id, now);
    if (actor, input.clientMsgId) in s.msg.byClientId {
      KnownIsStored(s.msg, (actor, input.clientMsgId));
    }
  }

  /** When a forward is answered with a message: the source and the target exist, the source is readable to the actor, and a send
      of its content to the target is accepted.  A refusal changes nothing. */
  lemma {:induction false} ForwardIsAcceptedIff(
      s: State, actor: UserId, id: MessageId, target: ChannelId, client: ClientMsgId, error: Option<Error>,
      newId: MessageId, now: nat)
    requires MessageInv(s.msg) && newId !in s.msg.messages.vals
    ensures var r := Forward(s, actor, id, target, client, error, newId, now);
      && (r.outcome.Ok? <==>
            && id in s.msg.messages.vals && CanAccessChannel(s.ws, actor, s.msg.messages.vals[id].channelId)
            && CanAccessChannel(s.ws, actor, target)
            && (s.ws.channels.vals[target].mode == E2e <==> s.msg.messages.vals[id].content.Ciphertext?)
            && ((actor, client) in s.msg.byClientId || error.None?))
      && (r.outcome.Fail? ==> r.state == s && r.published == [])
      && (id !in s.msg.messages.vals || target !in s.ws.channels.vals ==> r.outcome == Fail(NotFound))
  {
    hide Send, MessageInv, CanAccessChannel;
    NeedsChannel(s.ws, actor, target);
    if Find(s.msg, id).Some? && target in s.ws.channels.vals {
      FoundIs(s.msg, id);
      SendStoresTheInput(s, actor, ForwardInput(s, s.msg.messages.vals[id], target, client), error, newId, now);
    }
  }

  /** A forward of a forward, whoever makes it and whatever is in between, still names the first message. */
  lemma {:induction false} ForwardedTwice(
      s: State, a: UserId, id: MessageId, c1: ChannelId, k1: ClientMsgId, e1: Option<Error>, id1: MessageId, t1: nat,
      s2: State, b: UserId, c2: ChannelId, k2: ClientMsgId, e2: Option<Error>, id2: MessageId, t2: nat)
    requires MessageInv(s.msg) && id1 !in s.msg.messages.vals && MessageInv(s2.msg) && id2 !in s2.msg.messages.vals
    requires Forward(s, a, id, c1, k1, e1, id1, t1).outcome.Ok?
    requires var m1 := Forward(s, a, id, c1, k1, e1, id1, t1).outcome.value; s2.msg.messages.Get(m1.id) == Some(m1)
    requires var m1 := Forward(s, a, id, c1, k1, e1, id1, t1).outcome.value; Forward(s2, b, m1.id, c2, k2, e2, id2, t2).outcome.Ok?
    ensures id in s.msg.messages.vals
    ensures var m1 := Forward(s, a, id, c1, k1, e1, id1, t1).outcome.value;
      var first := s.msg.messages.vals[id];
      Forward(s2, b, m1.id, c2, k2, e2, id2, t2).outcome.value.origin ==
        if first.origin.Some? then first.origin else Some(Origin(id, first.senderId, first.createdAt))
  {
    hide Forward, MessageInv;
    ForwardKeepsTheFirstOrigin(s, a, id, c1, k1, e1, id1, t1);
    ForwardKeepsTheFirstOrigin(s2, b, Forward(s, a, id, c1, k1, e1, id1, t1).outcome.value.id, c2, k2, e2, id2, t2);
  }

  // ---------------------------------------------------------------- saving

  /** Only a message one may read is saved; saving adds it at the end under the present time, or changes nothing when it is
      there, and the answer is the first time. */
  lemma SaveKeepsTheFirstTime(s: State, actor: UserId, id: MessageId, now: nat)
    ensures var (msg', outcome) := Save(s, actor, id, now);
      var key := (actor, id);
      && (outcome.Ok? <==> id in s.msg.messages.vals && CanAccessChannel(s.ws, actor, s.msg.messages.vals[id].channelId))
      && (outcome.Fail? ==> msg' == s.msg && outcome.error == if id in s.msg.messages.vals then Forbidden else NotFound)
      && (outcome.Ok? && key in s.msg.saved.vals ==> msg' == s.msg && outcome.value == s.msg.saved.vals[key])
      && (outcome.Ok? && key !in s.msg.saved.vals ==>
            && outcome.value == now && msg' == s.msg.(saved := msg'.saved)
            && msg'.saved.keys == s.msg.saved.keys + [key] && msg'.saved.Get(key) == Some(now)
            && forall k :: k != key ==> msg'.saved.Get(k) == s.msg.saved.Get(k))
  {
    hide CanAccessChannel;
  }

  // ---------------------------------------------------------------- acknowledging

  /** The acknowledged row turns read, or, when it is read-once ciphertext, into a tombstone. */
  lemma AckedIs(m: Message, now: nat)
    ensures var m' := Acked(m, now);
      if m.content.Ciphertext? && m.content.readOnce then
        && m'.content == Tombstone(ReadOnceConsumed) && m'.status == StatusDeleted
        && m'.deletedAt == (if m.deletedAt.Some? then m.deletedAt else Some(now))
        && m' == m.(content := m'.content, status := m'.status, deletedAt := m'.deletedAt)
      else m'.status == StatusRead && m' == m.(status := m'.status)
  {
  }

  /** Whoever may read a message may acknowledge it.  It turns read, or, when it is read-once ciphertext, into a tombstone; every
      other row stays; and the receipt is recorded and pending, once, unless it is the sender's. */
  lemma AckMarksRead(s: State, actor: UserId, id: MessageId, now: nat)
    requires MessageInv(s.msg)
    ensures var (msg', outcome) := AckRead(s, actor, id, now);
      && (outcome.Ok? <==> id in s.msg.messages.vals && CanAccessChannel(s.ws, actor, s.msg.messages.vals[id].channelId))
      && (outcome.Fail? ==> msg' == s.msg && outcome.error == if id in s.msg.messages.vals then Forbidden else NotFound)
      && (outcome.Ok? ==>
            var m, m' := s.msg.messages.vals[id], msg'.messages.vals[id];
            var first := actor != m.senderId && Receipt(id, actor) !in s.msg.receipts;
            && OnlyRowChanges(s.msg.messages, msg'.messages, id)
            && (if m.content.Ciphertext? && m.content.readOnce then
                  && m'.content == Tombstone(ReadOnceConsumed) && m'.status == StatusDeleted
                  && m'.deletedAt == (if m.deletedAt.Some? then m.deletedAt else Some(now))
                  && m' == m.(content := m'.content, status := m'.status, deletedAt := m'.deletedAt)
                else m'.status == StatusRead && m' == m.(status := m'.status))
            && msg'.receipts == s.msg.receipts + (if first then {Receipt(id, actor)} else {})
            && msg'.pendingReceipts == s.msg.pendingReceipts + (if first then [Receipt(id, actor)] else [])
            && msg' == s.msg.(messages := msg'.messages, receipts := msg'.receipts, pendingReceipts := msg'.pendingReceipts))
  {
    hide CanAccessChannel, Acked, MessageInv;
    if Find(s.msg, id).Some? {
      FoundIs(s.msg, id);
      AckedIs(s.msg.messages.vals[id], now);
    }
  }

  // ---------------------------------------------------------------- expiring

  /** Ciphertext that is not deleted and whose time to live has run out by `before` becomes an `expired` tombstone; every other row
      is unchanged, and none such is left. */
  lemma CleanUpEntombsTheExpired(msg: MessageState, before: nat, now: nat, id: MessageId)
    requires id in msg.messages.vals
    ensures var msg' := CleanUp(msg, before, now);
      && msg' == msg.(messages := msg'.messages)
      && msg'.messages.keys == msg.messages.keys && msg'.messages.vals.Keys == msg.messages.vals.Keys
      && var m, m' := msg.messages.vals[id], msg'.messages.vals[id];
      var expired := m.status != StatusDeleted && m.content.Ciphertext? && m.content.expiresAt.Some? && m.content.expiresAt.value <= before;
      && (expired ==>
            && m'.content == Tombstone(Expired) && m'.status == StatusDeleted
            && m'.deletedAt == (if m.deletedAt.Some? then m.deletedAt else Some(now))
            && m' == m.(content := m'.content, status := m'.status, deletedAt := m'.deletedAt))
      && (!expired ==> m' == m)
      && (m'.status != StatusDeleted && m'.content.Ciphertext? && m'.content.expiresAt.Some? ==> m'.content.expiresAt.value > before)
  {
  }

  /** The ids of the rows that have run out, in the table's order. */
  function DueIds(ms: MessageTable, before: nat): seq<MessageId> {
    Filter(ms.keys, (id: MessageId) =>
      && id in ms.vals && ms.vals[id].status != StatusDeleted && ms.vals[id].content.Ciphertext?
      && ms.vals[id].content.expiresAt.Some? && ms.vals[id].content.expiresAt.value <= before)
  }

  function IdsOf(ms: seq<Message>): seq<MessageId> {
    seq(|ms|, i requires 0 <= i < |ms| => ms[i].id)
  }

  /** What a cleanup lists is each such row, once. */
  lemma {:induction false} ExpiredListIsTheDue(msg: MessageState, before: nat)
    requires msg.messages.Valid() && forall id :: id in msg.messages.vals ==> msg.messages.vals[id].id == id
    ensures IdsOf(ListExpired(msg, before)) == DueIds(msg.messages, before) && Distinct(IdsOf(ListExpired(msg, before)))
  {
    var due := (id: MessageId) =>
      && id in msg.messages.vals && msg.messages.vals[id].status != StatusDeleted && msg.messages.vals[id].content.Ciphertext?
      && msg.messages.vals[id].content.expiresAt.Some? && msg.messages.vals[id].content.expiresAt.value <= before;
    FilterIds(msg.messages.Values(), msg.messages.keys, (m: Message) => IsExpired(m, before), due);
    FilterDistinct(msg.messages.keys, due);
  }

  /** Filtering rows and filtering their ids is the same, when the two conditions agree. */
  lemma {:induction false} FilterIds(rows: seq<Message>, ids: seq<MessageId>, p: Message -> bool, q: MessageId -> bool)
    requires |rows| == |ids| && forall i :: 0 <= i < |ids| ==> rows[i].id == ids[i] && (p(rows[i]) <==> q(ids[i]))
    ensures IdsOf(Filter(rows, p)) == Filter(ids, q)
  {
    if rows != [] {
      FilterIds(rows[1..], ids[1..], p, q);
      var rest := Filter(rows[1..], p);
      assert IdsOf(Filter(rows, p)) == (if p(rows[0]) then [rows[0].id] else []) + IdsOf(rest);
    }
  }

  // ---------------------------------------------------------------- showing

  /** A deleted message is shown as a tombstone with its own reason, expired ciphertext as an expired one, and anything else as it is
      stored; showing never changes who sent it, where, or when. */
  lemma ShownAs(m: Message, now: nat)
    ensures var shown := Visible(m, now);
      && (m.status == StatusDeleted && m.content.Tombstone? ==> shown.content == m.content)
      && (m.status == StatusDeleted && !m.content.Tombstone? ==> shown.content == Tombstone(Deleted))
      && (m.status != StatusDeleted && m.content.Ciphertext? && m.content.expiresAt.Some? && m.content.expiresAt.value <= now ==>
            shown.content == Tombstone(Expired))
      && (m.status != StatusDeleted && (m.content.Ciphertext? && m.content.expiresAt.Some? ==> m.content.expiresAt.value > now) ==>
            shown == m)
      && (shown != m ==> shown.status == StatusDeleted && shown.deletedAt == if m.deletedAt.Some? then m.deletedAt else Some(now))
      && shown == m.(content := shown.content, status := shown.status, deletedAt := shown.deletedAt)
  {
  }
}
