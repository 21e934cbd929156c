/**
 What holds of messages over every interleaving, or exactly when it does: E2E isolation, the client-id index, idempotent and
 racing sends, permanent tombstones, invisible cleanup.
 */
module Guarantees {
  import opened JsCollections
  import opened Ids
  import opened DmNames
  import opened Domain
  import opened Workspaces
  import opened MessageStore
  import opened Bots
  import opened Messages
  import opened Runs
  import opened Interleaving

  // ---------------------------------------------------------------- E2E isolation

  ghost predicate E2eIsolated(s: State) {
    && (forall id | id in s.msg.messages.vals ::
          var m := s.msg.messages.vals[id];
          m.channelId in s.ws.channels.vals && s.ws.channels.vals[m.channelId].mode == E2e ==>
            m.content.Ciphertext? || m.content.Tombstone?)
    && (forall b | b in s.bot.bots.vals :: forall c | c in s.bot.bots.vals[b].channelIds :: IsNormal(s.ws, c))
    && (forall b | b in s.bot.queues :: forall e | e in s.bot.queues[b] :: IsNormal(s.ws, e.channelId))
  }

  /** The second half of a send to a normal channel finds its client id taken by a ciphertext row, as when the same client id
      went to an E2E channel between the halves, and some bot listens. */
  ghost predicate PublishesCiphertext(s: State, actor: UserId, input: SendInput) {
    var known := FindByClient(s.msg, actor, input.clientMsgId);
    && IsNormal(s.ws, input.channelId)
    && known.Some? && known.value.content.Ciphertext?
    && exists b :: Matches(s.bot, b, input.channelId, MessageCreated)
  }

  ghost predicate Leaks(w: World, move: Move) {
    && move.FinishSend? && Holds(w, move.call) && w.inFlight[move.call].Sending?
    && PublishesCiphertext(w.s, w.inFlight[move.call].actor, w.inFlight[move.call].input)
  }

  /** The second half of a send keeps ciphertext out of the bots' queues exactly when it is not such a one. */
  lemma FinishIsPlainIff(s: State, actor: UserId, input: SendInput, id: MessageId, now: nat)
    requires EventsPlain(s.bot) && InputFits(s.ws, input)
    ensures EventsPlain(Finish(s, actor, input, id, now).state.bot) <==> !PublishesCiphertext(s, actor, input)
  {
    hide EventsPlain, FindByClient, Publish, Matches;
    var r := Finish(s, actor, input, id, now);
    if r.published != [] {
      PublishPlainIff(s.bot, r.published[0]);
      assert Heard(s.bot, r.published[0]) <==> exists b :: Matches(s.bot, b, input.channelId, MessageCreated);
    }
  }

  lemma MoveIsPlainIff(w: World, step: TimedMove)
    requires WorldInv(w) && EventsPlain(w.s.bot) && Enabled(w, step.move)
    ensures EventsPlain(Moved(w, step).s.bot) <==> !Leaks(w, step.move)
  {
    hide EventsPlain, BotsPlaced, BornFits, Next, Fresh, Finish, PublishesCiphertext, MessageInv, InputFits, CopyFits, Held;
    match step.move
    case Whole(op) => StepKeepsBots(w.s, Step(op, step.now));
    case FinishSend(call, newId) =>
      assert Fits(w.s, w.born, w.inFlight[call]);
      FinishIsPlainIff(w.s, w.inFlight[call].actor, w.inFlight[call].input, newId, step.now);
    case _ =>
  }

  ghost predicate PlainThroughout(w: World, moves: seq<TimedMove>)
    decreases |moves|
  {
    EventsPlain(w.s.bot) && (moves == [] || PlainThroughout(Moved(w, moves[0]), moves[1..]))
  }

  ghost predicate LeaksIn(w: World, moves: seq<TimedMove>)
    decreases |moves|
  {
    moves != [] && (Leaks(w, moves[0].move) || LeaksIn(Moved(w, moves[0]), moves[1..]))
  }

  lemma {:induction false} PlainThroughoutIff(w: World, clock: nat, moves: seq<TimedMove>)
    requires WorldInv(w) && EventsPlain(w.s.bot) && Possible(w, clock, moves)
    ensures PlainThroughout(w, moves) <==> !LeaksIn(w, moves)
    decreases |moves|
  {
    hide WorldInv, EventsPlain, Moved, Enabled, Leaks;
    if moves != [] {
      MoveKeeps(w, moves[0]);
      MoveIsPlainIff(w, moves[0]);
      if !Leaks(w, moves[0].move) {
        PlainThroughoutIff(Moved(w, moves[0]), moves[0].now, moves[1..]);
      } else {
        NotPlain(Moved(w, moves[0]), moves[1..]);
      }
    }
  }

  lemma NotPlain(w: World, moves: seq<TimedMove>)
    requires !EventsPlain(w.s.bot)
    ensures !PlainThroughout(w, moves)
  {
  }

  /** Over every interleaving from the empty store: E2E channels hold only ciphertext and tombstones, no bot is in one and no
      queued bot event names one; whatever happens next, every channel keeps its mode; and at no point does a queued bot event
      carry ciphertext, if and only if no second half of a send publishes a ciphertext row that took its client id. */
  lemma {:induction false} E2eIsolation(
      clock: nat, moves: seq<TimedMove>, w: World, t: nat, later: seq<TimedMove>, w': World)
    requires Possible(Start, clock, moves) && w == After(Start, moves)
    requires Possible(w, t, later) && w' == After(w, later)
    ensures E2eIsolated(w.s)
    ensures forall c :: c in w.s.ws.channels.vals ==>
      c in w'.s.ws.channels.vals && w'.s.ws.channels.vals[c].mode == w.s.ws.channels.vals[c].mode
    ensures PlainThroughout(Start, moves) <==> !LeaksIn(Start, moves)
  {
    hide WorldInv, EventsPlain, Possible, After, E2eIsolated, PlainThroughout, LeaksIn, Start;
    StartInv();
    AfterKeeps(Start, clock, moves);
    AfterKeeps(w, t, later);
    InvIsolates(w);
    PlainThroughoutIff(Start, clock, moves);
  }

  lemma InvIsolates(w: World)
    requires WorldInv(w)
    ensures E2eIsolated(w.s)
  {
    hide MessageInv, WorkspaceInv, BornFits, CallsFit;
    forall id | id in w.s.msg.messages.vals
      ensures ContentFits(w.s.ws, w.s.msg.messages.vals[id])
    {
    }
  }

  // ---------------------------------------------------------------- the client-id index and idempotent sends

  ghost predicate IsBijection(msg: MessageState) {
    forall sender, c, id ::
      ((sender, c) in msg.byClientId && msg.byClientId[(sender, c)] == id)
      <==> (id in msg.messages.vals && msg.messages.vals[id].id == id
            && msg.messages.vals[id].senderId == sender && msg.messages.vals[id].clientMsgId == c)
  }

  /** Over every interleaving, with `create` atomic, the index maps (sender, client id) to the one message that has them, and to
      nothing else. */
  lemma {:induction false} ClientIndexIsBijection(clock: nat, moves: seq<TimedMove>)
    requires Possible(Start, clock, moves)
    ensures IsBijection(After(Start, moves).s.msg)
  {
    hide Possible, After, Start, BornFits, CallsFit, BotsPlaced, WorkspaceInv;
    StartInv();
    AfterKeeps(Start, clock, moves);
    IndexIsBijection(After(Start, moves).s.msg);
  }

  lemma IndexIsBijection(msg: MessageState)
    requires IndexInv(msg.messages, msg.byClientId)
    ensures IsBijection(msg)
  {
    forall sender, c, id
      ensures ((sender, c) in msg.byClientId && msg.byClientId[(sender, c)] == id)
        <==> (id in msg.messages.vals && msg.messages.vals[id].id == id
              && msg.messages.vals[id].senderId == sender && msg.messages.vals[id].clientMsgId == c)
    {
      if (sender, c) in msg.byClientId {
        assert Backed(msg.messages, (sender, c), msg.byClientId[(sender, c)]);
        assert Indexed(msg.byClientId, msg.messages.vals[msg.byClientId[(sender, c)]], msg.byClientId[(sender, c)]);
      }
      if id in msg.messages.vals {
        assert Indexed(msg.byClientId, msg.messages.vals[id], id);
      }
    }
  }

  function WholeMove(op: Op, now: nat): TimedMove {
    TimedMove(Whole(op), now)
  }

  /** However much happens in between, a second accepted send with the same (sender, client id), even with other
      content or to another channel, answers with the first one's message, stores nothing and publishes nothing. */
  lemma {:induction false} SendIsIdempotent(
    w: World, actor: UserId, first: SendInput, error: Option<Error>, id: MessageId, now: nat, r1: SendResult, w1: World,
    between: seq<TimedMove>, w2: World, again: SendInput, error': Option<Error>, id': MessageId, now': nat, r2: SendResult)
    requires WorldInv(w) && id !in w.s.msg.messages.vals && first.clientMsgId == again.clientMsgId
    requires r1 == Send(w.s, actor, first, error, id, now) && r1.outcome.Ok?
    requires w1 == Moved(w, WholeMove(SendCall(actor, first, error, id), now))
    requires Possible(w1, now, between) && w2 == After(w1, between)
    requires r2 == Send(w2.s, actor, again, error', id', now')
    ensures r2.state == w2.s && r2.published == []
    ensures r2.outcome.Ok? ==> r2.outcome.value.id == r1.outcome.value.id
  {
    hide Send, Possible, After, WorldInv, Moved, StatePersists;
    var key := (actor, first.clientMsgId);
    WorldMessages(w);
    FirstSendStores(w, actor, first, error, id, now);
    AfterKeeps(w1, now, between);
    KeyStays(w1.s, w2.s, key);
    WorldMessages(w2);
    RetryFindsRow(w2.s, actor, again, error', id', now');
  }

  lemma KeyStays(s: State, s': State, key: (UserId, ClientMsgId))
    requires StatePersists(s, s') && key in s.msg.byClientId
    ensures key in s'.msg.byClientId && s'.msg.byClientId[key] == s.msg.byClientId[key]
  {
  }

  lemma FirstSendStores(w: World, actor: UserId, input: SendInput, error: Option<Error>, id: MessageId, now: nat)
    requires WorldInv(w) && id !in w.s.msg.messages.vals && Send(w.s, actor, input, error, id, now).outcome.Ok?
    ensures var r := Send(w.s, actor, input, error, id, now);
      var w' := Moved(w, WholeMove(SendCall(actor, input, error, id), now));
      var key := (actor, input.clientMsgId);
      WorldInv(w') && w'.s == r.state && key in r.state.msg.byClientId && r.state.msg.byClientId[key] == r.outcome.value.id
  {
    hide Send, WorldInv, MessageInv, Born;
    var step := WholeMove(SendCall(actor, input, error, id), now);
    MoveKeeps(w, step);
    WorldMessages(w);
    WorldMessages(Moved(w, step));
    SendStores(w.s, actor, input, error, id, now);
    var r := Send(w.s, actor, input, error, id, now);
    KeyOfStored(r.state.msg, r.outcome.value, (actor, input.clientMsgId));
  }

  /** The race the pre-check cannot prevent: two sends of the same (sender, client id) have both found nothing, and both go on to
      `create`, with anything in between.  The second is answered with the first one's row, and stores nothing. */
  lemma {:induction false} RacingCreatesShareOneRow(
    actor: UserId, w: World, i: CallId, input: SendInput, origin: Option<Origin>, id: MessageId, now: nat, w1: World,
    between: seq<TimedMove>, w2: World, j: CallId, again: SendInput, origin': Option<Origin>, id': MessageId, now': nat)
    requires WorldInv(w) && i in w.inFlight && w.inFlight[i] == Sending(actor, input, origin) && id !in w.s.msg.messages.vals
    requires w1 == Moved(w, TimedMove(FinishSend(i, id), now)) && Possible(w1, now, between) && w2 == After(w1, between)
    requires j in w2.inFlight && w2.inFlight[j] == Sending(actor, again, origin') && id' !in w2.s.msg.messages.vals
    requires again.clientMsgId == input.clientMsgId
    ensures Finish(w2.s, actor, again, id', now').outcome.value.id == Finish(w.s, actor, input, id, now).outcome.value.id
    ensures Finish(w2.s, actor, again, id', now').state.msg == w2.s.msg
  {
    hide Possible, After, WorldInv, StatePersists, MessageInv, Finish, Born, MovedCalls;
    var step := TimedMove(FinishSend(i, id), now);
    WorldMessages(w);
    MoveKeeps(w, step);
    FinishStores(w.s, actor, input, id, now);
    WorldMessages(w1);
    KeyOfStored(w1.s.msg, Finish(w.s, actor, input, id, now).outcome.value, (actor, input.clientMsgId));
    AfterKeeps(w1, now, between);
    KeyStays(w1.s, w2.s, (actor, input.clientMsgId));
    WorldMessages(w2);
    FinishStores(w2.s, actor, again, id', now');
  }

  lemma KeyOfStored(msg: MessageState, m: Message, key: (UserId, ClientMsgId))
    requires MessageInv(msg) && msg.messages.Get(m.id) == Some(m) && ClientKey(m) == key
    ensures key in msg.byClientId && msg.byClientId[key] == m.id
  {
    assert Indexed(msg.byClientId, msg.messages.vals[m.id], m.id);
  }

  lemma RetryFindsRow(s: State, actor: UserId, input: SendInput, error: Option<Error>, id: MessageId, now: nat)
    requires MessageInv(s.msg) && (actor, input.clientMsgId) in s.msg.byClientId
    ensures var r := Send(s, actor, input, error, id, now);
      && r.state == s && r.published == []
      && (r.outcome.Ok? ==> r.outcome.value.id == s.msg.byClientId[(actor, input.clientMsgId)])
  {
    var key := (actor, input.clientMsgId);
    FindByClientIs(s.msg, key);
    assert Indexed(s.msg.byClientId, s.msg.messages.vals[s.msg.byClientId[key]], s.msg.byClientId[key]);
  }

  // ---------------------------------------------------------------- permanent tombstones

  /** A message some read shows to some user at time `now`. */
  ghost predicate Shown(s: State, now: nat, m: Message) {
    s.msg.messages.Valid()
    && ((exists actor, c, cursor, limit :: m in ListPage(s, actor, c, cursor, limit, now).items)
        || (exists actor :: m in ListSavedFor(s, actor, now)))
  }

  lemma VisibleMember(raw: seq<Message>, now: nat, m: Message) returns (x: Message)
    requires m in AllVisible(raw, now)
    ensures x in raw && m == Visible(x, now) && m.id == x.id
  {
    var i :| 0 <= i < |raw| && m == Visible(raw[i], now);
    x := raw[i];
  }

  lemma PageShowsVisible(s: State, now: nat, actor: UserId, c: ChannelId, cursor: Option<MessageId>, limit: nat, m: Message)
    requires MessageInv(s.msg) && m in ListPage(s, actor, c, cursor, limit, now).items
    ensures m.id in s.msg.messages.vals && m == Visible(s.msg.messages.vals[m.id], now)
  {
    var x := VisibleMember(List(s.msg, c, cursor, limit), now, m);
    ListedIsStored(s.msg, c, cursor, limit, x);
  }

  lemma SavedShowsVisible(s: State, now: nat, actor: UserId, m: Message)
    requires MessageInv(s.msg) && m in ListSavedFor(s, actor, now)
    ensures m.id in s.msg.messages.vals && m == Visible(s.msg.messages.vals[m.id], now)
  {
    SavedListIsExact(s, actor, now, m);
  }

  lemma {:induction false} SavedFromIs(msg: MessageState, keys: seq<(UserId, MessageId)>, user: UserId, m: Message)
    ensures m in SavedFrom(msg, keys, user) <==>
      exists k :: k in keys && k.0 == user && k.1 in msg.messages.vals && msg.messages.vals[k.1] == m
  {
    if keys != [] {
      assert keys == [keys[0]] + keys[1..];
      SavedFromIs(msg, keys[1..], user, m);
    }
  }

  /** The saved list shows, as visible now, exactly the messages the user has saved and may still access. */
  lemma SavedListIsExact(s: State, actor: UserId, now: nat, m: Message)
    requires MessageInv(s.msg)
    ensures m in ListSavedFor(s, actor, now) <==>
      (actor, m.id) in s.msg.saved.vals && m.id in s.msg.messages.vals
      && CanAccessChannel(s.ws, actor, s.msg.messages.vals[m.id].channelId) && m == Visible(s.msg.messages.vals[m.id], now)
  {
    hide CanAccessChannel, MessageInv, Visible;
    var raw := Filter(ListSaved(s.msg, actor), AccessibleTo(s.ws, actor));
    if m in ListSavedFor(s, actor, now) {
      var x := VisibleMember(raw, now, m);
      SavedUnder(s.msg, actor, x);
    }
    if (actor, m.id) in s.msg.saved.vals && m.id in s.msg.messages.vals {
      var x := s.msg.messages.vals[m.id];
      SavedKey(s.msg, actor, m.id);
      if CanAccessChannel(s.ws, actor, x.channelId) && m == Visible(x, now) {
        var i :| 0 <= i < |raw| && raw[i] == x;
        assert ListSavedFor(s, actor, now)[i] == m;
      }
    }
  }

  lemma SavedUnder(msg: MessageState, actor: UserId, x: Message)
    requires MessageInv(msg) && x in ListSaved(msg, actor)
    ensures (actor, x.id) in msg.saved.vals && msg.messages.Get(x.id) == Some(x)
  {
    SavedFromIs(msg, msg.saved.keys, actor, x);
    var k :| k in msg.saved.keys && k.0 == actor && k.1 in msg.messages.vals && msg.messages.vals[k.1] == x;
    assert Indexed(msg.byClientId, msg.messages.vals[k.1], k.1);
    assert k == (actor, x.id);
  }

  lemma SavedKey(msg: MessageState, actor: UserId, id: MessageId)
    requires MessageInv(msg) && (actor, id) in msg.saved.vals && id in msg.messages.vals
    ensures msg.messages.vals[id] in ListSaved(msg, actor)
  {
    assert (actor, id) in msg.saved.keys;
    SavedFromIs(msg, msg.saved.keys, actor, msg.messages.vals[id]);
  }

  /** What is shown is the stored message as it is visible now. */
  lemma ShownIsVisible(s: State, now: nat, m: Message)
    requires MessageInv(s.msg) && Shown(s, now, m)
    ensures m.id in s.msg.messages.vals && m == Visible(s.msg.messages.vals[m.id], now)
  {
    if actor, c, cursor, limit :| m in ListPage(s, actor, c, cursor, limit, now).items {
      PageShowsVisible(s, now, actor, c, cursor, limit, m);
    } else {
      var actor :| m in ListSavedFor(s, actor, now);
      SavedShowsVisible(s, now, actor, m);
    }
  }

  lemma {:induction false} SortKeepsMembers(ms: seq<Message>, m: Message)
    ensures m in SortById(ms) <==> m in ms
  {
    if ms != [] {
      SortKeepsMembers(ms[1..], m);
      InsertMembers(ms[0], SortById(ms[1..]), m);
      assert ms == [ms[0]] + ms[1..];
    }
  }

  lemma {:induction false} InsertMembers(x: Message, sorted: seq<Message>, m: Message)
    ensures m in Insert(x, sorted) <==> m == x || m in sorted
  {
    if sorted != [] {
      InsertMembers(x, sorted[1..], m);
      assert sorted == [sorted[0]] + sorted[1..];
    }
  }

  lemma ChannelMembersAreStored(msg: MessageState, c: ChannelId, m: Message)
    requires MessageInv(msg)
    ensures m in ChannelMessages(msg, c) <==> m.id in msg.messages.vals && msg.messages.vals[m.id] == m && m.channelId == c
  {
    var values := msg.messages.Values();
    SortKeepsMembers(Filter(values, InChannel(c)), m);
    if m in values {
      var i :| 0 <= i < |values| && values[i] == m;
      assert Indexed(msg.byClientId, msg.messages.vals[msg.messages.keys[i]], msg.messages.keys[i]);
    }
    if m.id in msg.messages.vals {
      var i :| 0 <= i < |msg.messages.keys| && msg.messages.keys[i] == m.id;
      assert values[i] == msg.messages.vals[m.id];
    }
  }

  lemma ListedIsStored(msg: MessageState, c: ChannelId, cursor: Option<MessageId>, limit: nat, m: Message)
    requires MessageInv(msg) && m in List(msg, c, cursor, limit)
    ensures m.id in msg.messages.vals && msg.messages.vals[m.id] == m
  {
    ChannelMembersAreStored(msg, c, m);
  }

  /** Readers at time `now` see a tombstone. */
  predicate DeadAt(m: Message, now: nat) {
    Visible(m, now).content.Tombstone?
  }

  lemma DeadStaysDead(m: Message, m': Message, now: nat, now': nat)
    requires MessageEvolves(m, m') && now <= now'
    requires m.status == StatusDeleted ==> m.content.Tombstone?
    requires DeadAt(m, now)
    ensures DeadAt(m', now')
  {
  }

  /** A stale copy written back keeps the row's content evolving exactly when it does not replace a tombstone by a message. */
  lemma StaleWriteEvolvesIff(s: State, born: map<MessageId, Content>, copy: Message, change: Change, now: nat)
    requires BornFits(born, s.msg.messages) && CopyFits(s.ws, s.msg.messages, born, copy)
    ensures var row := s.msg.messages.vals[copy.id].content;
      ContentEvolves(row, Written(copy, change, now).content) <==> (row.Tombstone? ==> Written(copy, change, now).content.Tombstone?)
  {
    hide RowsPersist, ContentFits;
    WrittenEvolves(copy, change, now);
  }

  /** An edit that holds a text keeps the content evolving exactly when the row is not a tombstone by now. */
  lemma StaleEditEvolvesIff(s: State, born: map<MessageId, Content>, copy: Message, text: string, now: nat)
    requires BornFits(born, s.msg.messages) && CopyFits(s.ws, s.msg.messages, born, copy) && copy.content.Text?
    ensures var row := s.msg.messages.vals[copy.id].content;
      ContentEvolves(row, Written(copy, NewText(text), now).content) <==> !row.Tombstone?
  {
    StaleWriteEvolvesIff(s, born, copy, NewText(text), now);
  }

  /** A stale acknowledgement does exactly when the row is no tombstone by now, or its copy is one or becomes one. */
  lemma StaleAckEvolvesIff(s: State, born: map<MessageId, Content>, copy: Message, reader: UserId, now: nat)
    requires BornFits(born, s.msg.messages) && CopyFits(s.ws, s.msg.messages, born, copy)
    ensures var row := s.msg.messages.vals[copy.id].content;
      ContentEvolves(row, Written(copy, MarkingRead(reader), now).content) <==>
        (!row.Tombstone? || copy.content.Tombstone? || (copy.content.Ciphertext? && copy.content.readOnce))
  {
    hide BornFits, CopyFits, ContentEvolves;
    StaleWriteEvolvesIff(s, born, copy, MarkingRead(reader), now);
  }

  /** A stale forward, recording the origin, does exactly when the row is no tombstone by now, or its copy is one. */
  lemma StaleForwardEvolvesIff(s: State, born: map<MessageId, Content>, copy: Message, origin: Origin, now: nat)
    requires BornFits(born, s.msg.messages) && CopyFits(s.ws, s.msg.messages, born, copy)
    ensures var row := s.msg.messages.vals[copy.id].content;
      ContentEvolves(row, Written(copy, Originating(origin), now).content) <==> (!row.Tombstone? || copy.content.Tombstone?)
  {
    hide BornFits, CopyFits, ContentEvolves;
    StaleWriteEvolvesIff(s, born, copy, Originating(origin), now);
  }

  ghost predicate DeadThroughout(w: World, clock: nat, moves: seq<TimedMove>, id: MessageId)
    decreases |moves|
  {
    && id in w.s.msg.messages.vals && DeadAt(w.s.msg.messages.vals[id], clock)
    && (moves == [] || DeadThroughout(Moved(w, moves[0]), moves[0].now, moves[1..], id))
  }

  /** A step of the run writes a copy of the message that a call had found before, and that is no tombstone to readers. */
  ghost predicate Revives(before: map<CallId, InFlight>, step: TimedMove, id: MessageId) {
    && step.move.FinishWrite? && step.move.call in before
    && var held := before[step.move.call];
    held.Writing? && held.copy.id == id && !DeadAt(Written(held.copy, held.change, step.now), step.now)
  }

  ghost predicate RevivedIn(before: map<CallId, InFlight>, moves: seq<TimedMove>, id: MessageId) {
    exists step :: step in moves && Revives(before, step, id)
  }

  /** Calls from before are still waiting as they were, or done. */
  ghost predicate EarlierCalls(before: map<CallId, InFlight>, w: World) {
    forall call :: call in before && !before[call].Sending? ==>
      call in w.begun && (call in w.inFlight ==> w.inFlight[call] == before[call])
  }

  ghost predicate HoldsDead(held: InFlight, clock: nat, id: MessageId) {
    held.Writing? && held.copy.id == id ==>
      DeadAt(held.copy, clock) && (held.copy.status == StatusDeleted ==> held.copy.content.Tombstone?)
      && (held.change.NewText? ==> held.copy.content.Text?)
  }

  /** Calls begun since hold the message only as a tombstone. */
  ghost predicate LaterCalls(before: map<CallId, InFlight>, w: World, clock: nat, id: MessageId) {
    forall call :: call in w.inFlight && !(call in before && before[call] == w.inFlight[call]) ==> HoldsDead(w.inFlight[call], clock, id)
  }

  lemma WrittenStaysDead(copy: Message, change: Change, clock: nat, now: nat)
    requires DeadAt(copy, clock) && clock <= now
    requires (copy.status == StatusDeleted ==> copy.content.Tombstone?) && (change.NewText? ==> copy.content.Text?)
    ensures DeadAt(Written(copy, change, now), now)
  {
  }

  lemma StillDead(m: Message, clock: nat, now: nat)
    requires DeadAt(m, clock) && clock <= now
    ensures DeadAt(m, now)
  {
  }

  /** A whole call, or the second half of a send, lets rows only evolve. */
  lemma EvolvingMoves(w: World, step: TimedMove)
    requires WorldInv(w) && Enabled(w, step.move) && !step.move.FinishWrite?
    ensures AllEvolve(w.s.msg.messages, MovedState(w, step).msg.messages)
  {
    hide BotsPlaced, BornFits, Next, Fresh, Finish, MessageInv;
    hide WorkspaceInv, ContentsFit, AllEvolve, IndexGrows, CopyFits, InputFits;
    match step.move
    case Whole(op) => StepKeepsCore(w.s, Step(op, step.now));
    case FinishSend(call, newId) =>
      assert Fits(w.s, w.born, w.inFlight[call]);
      FinishKept(w.s, w.inFlight[call].actor, w.inFlight[call].input, newId, step.now);
    case _ => EvolvesReflexive(w.s.msg);
  }

  lemma WriteMove(w: World, step: TimedMove)
    requires WorldInv(w) && Enabled(w, step.move) && step.move.FinishWrite?
    ensures var Writing(copy, change) := w.inFlight[step.move.call];
      MovedState(w, step).msg.messages == w.s.msg.messages.Set(copy.id, Written(copy, change, step.now))
  {
    hide Core, BotsPlaced, BornFits, Next, Fresh, Finish, CopyFits, StatePersists, Written, Wrote;
    assert Fits(w.s, w.born, w.inFlight[step.move.call]);
    WroteKeeps(w.s, w.born, w.inFlight[step.move.call].copy, w.inFlight[step.move.call].change, step.now);
  }

  lemma RowIsSound(w: World, id: MessageId)
    requires WorldInv(w) && id in w.s.msg.messages.vals
    ensures w.s.msg.messages.vals[id].id == id
    ensures w.s.msg.messages.vals[id].status == StatusDeleted ==> w.s.msg.messages.vals[id].content.Tombstone?
  {
    hide BotsPlaced, BornFits, CallsFit, WorkspaceInv, ContentsFit, ReceiptInv;
    assert Indexed(w.s.msg.byClientId, w.s.msg.messages.vals[id], id);
  }

  /** A dead row stays dead through every move but one that revives it. */
  lemma RowStaysDeadIff(before: map<CallId, InFlight>, w: World, clock: nat, step: TimedMove, id: MessageId)
    requires WorldInv(w) && Enabled(w, step.move) && clock <= step.now
    requires id in w.s.msg.messages.vals && DeadAt(w.s.msg.messages.vals[id], clock)
    requires EarlierCalls(before, w) && LaterCalls(before, w, clock, id)
    ensures id in MovedState(w, step).msg.messages.vals
    ensures DeadAt(MovedState(w, step).msg.messages.vals[id], step.now) <==> !Revives(before, step, id)
  {
    hide WorldInv, MovedState, DeadAt, Written, Enabled;
    var row := w.s.msg.messages.vals[id];
    RowIsSound(w, id);
    if step.move.FinishWrite? {
      WriteMove(w, step);
      EnabledWrite(w, step.move);
      var held := w.inFlight[step.move.call];
      if held.copy.id != id {
        StillDead(row, clock, step.now);
      } else if !(step.move.call in before && before[step.move.call] == held) {
        assert HoldsDead(held, clock, id);
        WrittenStaysDead(held.copy, held.change, clock, step.now);
      }
    } else {
      EvolvingMoves(w, step);
      assert MessageEvolves(row, MovedState(w, step).msg.messages.vals[id]);
      DeadStaysDead(row, MovedState(w, step).msg.messages.vals[id], clock, step.now);
    }
  }

  lemma EnabledWrite(w: World, move: Move)
    requires Enabled(w, move) && move.FinishWrite?
    ensures move.call in w.inFlight && w.inFlight[move.call].Writing?
  {
  }

  /** What a call holds of a message it has just found is the row. */
  lemma HeldIsRow(s: State, move: Move)
    requires Core(s)
    ensures Held(s, move).Some? && Held(s, move).value.Writing? ==>
      var Writing(copy, change) := Held(s, move).value;
      s.msg.messages.Get(copy.id) == Some(copy) && (change.NewText? ==> copy.content.Text?)
  {
    hide Core, Admit, CanAccessChannel, IsExpired;
    CoreMessages(s);
    if FindsMessage(move) {
      if Find(s.msg, move.id).Some? {
        FoundIs(s.msg, move.id);
      }
    } else if move.BeginSend? {
      KnownIsRow(s, move.actor, move.input, move.attachmentError);
    } else if move.BeginForward? && Find(s.msg, move.id).Some? && move.target in s.ws.channels.vals {
      KnownIsRow(s, move.actor, ForwardInput(s, Find(s.msg, move.id).value, move.target, move.client), move.attachmentError);
    }
  }

  lemma CoreMessages(s: State)
    requires Core(s)
    ensures MessageInv(s.msg)
  {
  }

  lemma KnownIsRow(s: State, actor: UserId, input: SendInput, error: Option<Error>)
    requires MessageInv(s.msg)
    ensures var admission := Admit(s, actor, input, error);
      admission.Known? ==> s.msg.messages.Get(admission.existing.id) == Some(admission.existing)
  {
    hide Admit, MessageInv;
    AdmissionIs(s, actor, input, error);
    if Admit(s, actor, input, error).Known? {
      KnownIsStored(s.msg, (actor, input.clientMsgId));
    }
  }

  lemma FinishedIsRow(w: World, step: TimedMove)
    requires WorldInv(w) && Enabled(w, step.move) && step.move.FinishSend?
    ensures var created := Finished(w, step.move.call, step.move.newId, step.now).outcome.value;
      MovedState(w, step).msg.messages.Get(created.id) == Some(created)
  {
    hide BotsPlaced, BornFits, CallsFit, WorkspaceInv, ContentsFit, MessageInv, Finish;
    var held := w.inFlight[step.move.call];
    FinishStores(w.s, held.actor, held.input, step.move.newId, step.now);
  }

  /** A call that a move leaves in flight, and that was not there before, holds a stored row. */
  lemma NewCallIsRow(w: World, step: TimedMove, call: CallId)
    requires WorldInv(w) && Enabled(w, step.move) && call in MovedCalls(w, step)
    requires !(call in w.inFlight && w.inFlight[call] == MovedCalls(w, step)[call])
    ensures var held := MovedCalls(w, step)[call];
      held.Writing? ==>
        MovedState(w, step).msg.messages.Get(held.copy.id) == Some(held.copy) && (held.change.NewText? ==> held.copy.content.Text?)
  {
    hide Core, BotsPlaced, BornFits, CallsFit, Held, Finish, Next, Fresh;
    if step.move.FinishSend? {
      FinishedIsRow(w, step);
    } else if !step.move.Whole? && !step.move.FinishWrite? {
      HeldIsRow(w.s, step.move);
    }
  }

  lemma CallsStaySorted(before: map<CallId, InFlight>, w: World, clock: nat, step: TimedMove, id: MessageId)
    requires WorldInv(w) && Enabled(w, step.move) && clock <= step.now
    requires EarlierCalls(before, w) && LaterCalls(before, w, clock, id)
    requires id in MovedState(w, step).msg.messages.vals && DeadAt(MovedState(w, step).msg.messages.vals[id], step.now)
    ensures EarlierCalls(before, Moved(w, step)) && LaterCalls(before, Moved(w, step), step.now, id)
  {
    hide WorldInv, MovedState, DeadAt, Born;
    MoveKeeps(w, step);
    var w' := Moved(w, step);
    forall call | call in w'.inFlight && !(call in before && before[call] == w'.inFlight[call])
      ensures HoldsDead(w'.inFlight[call], step.now, id)
    {
      if call in w.inFlight && w.inFlight[call] == w'.inFlight[call] {
        if w.inFlight[call].Writing? && w.inFlight[call].copy.id == id {
          assert HoldsDead(w.inFlight[call], clock, id);
          StillDead(w.inFlight[call].copy, clock, step.now);
        }
      } else {
        NewCallIsRow(w, step, call);
        if id in w'.s.msg.messages.vals {
          RowIsSound(w', id);
        }
      }
    }
    EarlierStay(before, w, step);
  }

  lemma EarlierStay(before: map<CallId, InFlight>, w: World, step: TimedMove)
    requires EarlierCalls(before, w) && Enabled(w, step.move)
    ensures EarlierCalls(before, Moved(w, step))
  {
    hide Next, Fresh, Finish, Wrote, Held, Born;
  }

  lemma {:induction false} PermanentFrom(
      before: map<CallId, InFlight>, w: World, clock: nat, moves: seq<TimedMove>, id: MessageId)
    requires WorldInv(w) && Possible(w, clock, moves)
    requires id in w.s.msg.messages.vals && DeadAt(w.s.msg.messages.vals[id], clock)
    requires EarlierCalls(before, w) && LaterCalls(before, w, clock, id)
    ensures DeadThroughout(w, clock, moves, id) <==> !RevivedIn(before, moves, id)
    decreases |moves|
  {
    hide WorldInv, MovedState, MovedCalls, DeadAt, Enabled, Revives, EarlierCalls, LaterCalls, Born;
    if moves != [] {
      var step, rest := moves[0], moves[1..];
      assert moves == [step] + rest;
      RowStaysDeadIff(before, w, clock, step, id);
      if Revives(before, step, id) {
        assert step in moves;
      } else {
        CallsStaySorted(before, w, clock, step, id);
        MoveKeeps(w, step);
        PermanentFrom(before, Moved(w, step), step.now, rest, id);
        assert RevivedIn(before, moves, id) <==> RevivedIn(before, rest, id);
      }
    }
  }

  /** A message that readers see as a tombstone stays one through every interleaving, if and only if no step writes back a
      copy that a call had found before. */
  lemma {:induction false} PermanentIff(w: World, clock: nat, moves: seq<TimedMove>, id: MessageId)
    requires WorldInv(w) && Possible(w, clock, moves)
    requires id in w.s.msg.messages.vals && DeadAt(w.s.msg.messages.vals[id], clock)
    ensures DeadThroughout(w, clock, moves, id) <==> !RevivedIn(w.inFlight, moves, id)
  {
    hide Core, BotsPlaced, BornFits, Fits, DeadAt, DeadThroughout, RevivedIn, Possible;
    PermanentFrom(w.inFlight, w, clock, moves, id);
  }

  lemma {:induction false} DeadAtTheEnd(w: World, clock: nat, moves: seq<TimedMove>, id: MessageId)
    requires DeadThroughout(w, clock, moves, id)
    ensures id in After(w, moves).s.msg.messages.vals && DeadAt(After(w, moves).s.msg.messages.vals[id], ClockAfter(clock, moves))
    decreases |moves|
  {
    hide Moved, DeadAt;
    if moves != [] {
      DeadAtTheEnd(Moved(w, moves[0]), moves[0].now, moves[1..], id);
      assert ClockAfter(moves[0].now, moves[1..]) == ClockAfter(clock, moves);
    }
  }

  /** Once any read shows a message as a tombstone, every later read that shows it, by anyone, through any page or saved list,
      after any interleaving of whole calls and halves, shows a tombstone, unless a copy found before was written back. */
  lemma {:induction false} ObservedTombstonesArePermanent(
    w: World, now: nat, moves: seq<TimedMove>, w': World, now': nat, m: Message, m': Message)
    requires WorldInv(w) && Possible(w, now, moves) && w' == After(w, moves) && ClockAfter(now, moves) <= now'
    requires Shown(w.s, now, m) && m.content.Tombstone?
    requires Shown(w'.s, now', m') && m'.id == m.id
    ensures m'.content.Tombstone? || RevivedIn(w.inFlight, moves, m.id)
  {
    hide WorldInv, Possible, After, Shown, RevivedIn, DeadThroughout, MessageInv;
    AfterKeeps(w, now, moves);
    WorldMessages(w);
    WorldMessages(w');
    ShownIsVisible(w.s, now, m);
    ShownIsVisible(w'.s, now', m');
    PermanentIff(w, now, moves, m.id);
    if !RevivedIn(w.inFlight, moves, m.id) {
      DeadAtTheEnd(w, now, moves, m.id);
      StillDead(w'.s.msg.messages.vals[m.id], ClockAfter(now, moves), now');
    }
  }

  lemma WorldMessages(w: World)
    requires WorldInv(w)
    ensures MessageInv(w.s.msg)
  {
  }

  /** The status field is not as durable as the content: an acknowledgement by anyone with access turns a deleted
      message's status into "read" while its content stays a tombstone. It stays deleted exactly when the
      acknowledged message was still read-once ciphertext, which no deleted message is. */
  lemma {:induction false} AckLeavesDeletedIff(s: State, actor: UserId, id: MessageId, now: nat)
    requires MessageInv(s.msg) && AckRead(s, actor, id, now).1.Ok?
    ensures var before, after := s.msg.messages.vals[id], AckRead(s, actor, id, now).0.messages.vals[id];
      && (after.status == StatusDeleted <==> before.content.Ciphertext? && before.content.readOnce)
      && (before.status == StatusDeleted ==> after.status == StatusRead && after.content == before.content)
  {
    FoundIs(s.msg, id);
  }

  // ---------------------------------------------------------------- cleanup is invisible

  predicate SameButDeletedAt(m: Message, m': Message) {
    m' == m.(deletedAt := m'.deletedAt)
  }

  lemma VisibleIsIdempotent(m: Message, now: nat)
    ensures Visible(Visible(m, now), now) == Visible(m, now)
  {
  }

  lemma CleanedUpLooksTheSame(m: Message, before: nat, at: nat, now: nat)
    requires before <= now && (m.status == StatusDeleted ==> m.content.Tombstone?)
    ensures SameButDeletedAt(Visible(m, now), Visible(CleanedUp(m, before, at), now))
    ensures at == now ==> Visible(CleanedUp(m, before, at), now) == Visible(m, now)
  {
  }

  lemma {:induction false} InsertCommutes(before: nat, at: nat, x: Message, sorted: seq<Message>)
    ensures Insert(CleanedUp(x, before, at), AllCleanedUp(sorted, before, at)) == AllCleanedUp(Insert(x, sorted), before, at)
  {
    if sorted != [] {
      var cleaned := AllCleanedUp(sorted, before, at);
      assert cleaned[1..] == AllCleanedUp(sorted[1..], before, at);
      InsertCommutes(before, at, x, sorted[1..]);
      var rest := Insert(x, sorted[1..]);
      assert AllCleanedUp([sorted[0]] + rest, before, at) == [cleaned[0]] + AllCleanedUp(rest, before, at);
      assert AllCleanedUp([x] + sorted, before, at) == [CleanedUp(x, before, at)] + cleaned;
    } else {
      assert AllCleanedUp([x], before, at) == [CleanedUp(x, before, at)];
    }
  }

  function AllCleanedUp(ms: seq<Message>, before: nat, at: nat): seq<Message> {
    seq(|ms|, i requires 0 <= i < |ms| => CleanedUp(ms[i], before, at))
  }

  lemma {:induction false} FilterCommutes(before: nat, at: nat, values: seq<Message>, c: ChannelId)
    ensures Filter(AllCleanedUp(values, before, at), InChannel(c)) == AllCleanedUp(Filter(values, InChannel(c)), before, at)
  {
    hide CleanedUp;
    if values != [] {
      CleanedUpFirst(before, at, values);
      CleanedUpSameChannel(values[0], before, at);
      var rest := Filter(values[1..], InChannel(c));
      CleanedUpFirst(before, at, [values[0]] + rest);
      assert ([values[0]] + rest)[1..] == rest;
      hide AllCleanedUp;
      FilterCommutes(before, at, values[1..], c);
    }
  }

  lemma CleanedUpFirst(before: nat, at: nat, values: seq<Message>)
    requires values != []
    ensures var cleaned := AllCleanedUp(values, before, at);
      && cleaned != [] && cleaned[0] == CleanedUp(values[0], before, at) && cleaned[1..] == AllCleanedUp(values[1..], before, at)
      && cleaned == [cleaned[0]] + AllCleanedUp(values[1..], before, at)
  {
    hide CleanedUp;
  }

  lemma CleanedUpSameChannel(m: Message, before: nat, at: nat)
    ensures CleanedUp(m, before, at).channelId == m.channelId
  {
  }

  lemma {:induction false} SortCommutes(before: nat, at: nat, values: seq<Message>)
    ensures SortById(AllCleanedUp(values, before, at)) == AllCleanedUp(SortById(values), before, at)
  {
    if values != [] {
      assert AllCleanedUp(values, before, at)[1..] == AllCleanedUp(values[1..], before, at);
      SortCommutes(before, at, values[1..]);
      InsertCommutes(before, at, values[0], SortById(values[1..]));
    }
  }

  lemma CleanUpChannel(msg: MessageState, before: nat, at: nat, c: ChannelId)
    requires MessageInv(msg) && MessageInv(CleanUp(msg, before, at))
    ensures ChannelMessages(CleanUp(msg, before, at), c) == AllCleanedUp(ChannelMessages(msg, c), before, at)
  {
    var values := msg.messages.Values();
    assert CleanUp(msg, before, at).messages.Values() == AllCleanedUp(values, before, at);
    FilterCommutes(before, at, values, c);
    SortCommutes(before, at, Filter(values, InChannel(c)));
  }

  lemma {:induction false} StartAfterCommutes(all: seq<Message>, before: nat, at: nat, cursor: MessageId)
    ensures StartAfter(AllCleanedUp(all, before, at), cursor) == StartAfter(all, cursor)
  {
    if all != [] {
      assert AllCleanedUp(all, before, at)[1..] == AllCleanedUp(all[1..], before, at);
      StartAfterCommutes(all[1..], before, at, cursor);
    }
  }

  lemma CleanUpList(msg: MessageState, before: nat, at: nat, c: ChannelId, cursor: Option<MessageId>, limit: nat)
    requires MessageInv(msg) && MessageInv(CleanUp(msg, before, at))
    ensures List(CleanUp(msg, before, at), c, cursor, limit) == AllCleanedUp(List(msg, c, cursor, limit), before, at)
  {
    CleanUpChannel(msg, before, at, c);
    SliceCommutes(ChannelMessages(msg, c), before, at, cursor, limit);
  }

  lemma SliceCommutes(all: seq<Message>, before: nat, at: nat, cursor: Option<MessageId>, limit: nat)
    ensures SliceAfter(AllCleanedUp(all, before, at), cursor, limit) == AllCleanedUp(SliceAfter(all, cursor, limit), before, at)
  {
    hide CleanedUp, StartAfter;
    if cursor.Some? {
      StartAfterCommutes(all, before, at, cursor.value);
    }
  }

  /** Running the cleanup (for messages expired by `before`, at clock time `at`) does not change what any page
      shows at a later time `now`, but for when messages are said to have been deleted; and not even that
      when it runs at `now`. */
  lemma CleanUpIsInvisible(
      s: State, before: nat, at: nat, now: nat, actor: UserId, c: ChannelId, cursor: Option<MessageId>,
      limit: nat)
    requires Inv(s) && before <= now
    ensures Inv(s.(msg := CleanUp(s.msg, before, at)))
    ensures var page := ListPage(s, actor, c, cursor, limit, now);
      var page' := ListPage(s.(msg := CleanUp(s.msg, before, at)), actor, c, cursor, limit, now);
      && |page'.items| == |page.items| && page'.nextCursor == page.nextCursor
      && (forall i :: 0 <= i < |page.items| ==> SameButDeletedAt(page.items[i], page'.items[i]))
      && (at == now ==> page' == page)
  {
    CleanUpKept(s.ws, s.msg, before, at);
    CleanUpList(s.msg, before, at, c, cursor, limit);
    CleanedUpPage(s.msg, List(s.msg, c, cursor, limit), before, at, now, c, cursor, limit);
  }

  lemma CleanedUpPage(
      msg: MessageState, raw: seq<Message>, before: nat, at: nat, now: nat, c: ChannelId,
      cursor: Option<MessageId>, limit: nat)
    requires MessageInv(msg) && raw == List(msg, c, cursor, limit) && before <= now
    ensures var shown, shown' := AllVisible(raw, now), AllVisible(AllCleanedUp(raw, before, at), now);
      && (forall i :: 0 <= i < |raw| ==> SameButDeletedAt(shown[i], shown'[i]))
      && (at == now ==> shown' == shown)
  {
    forall i | 0 <= i < |raw|
      ensures SameButDeletedAt(Visible(raw[i], now), Visible(CleanedUp(raw[i], before, at), now))
      ensures at == now ==> Visible(CleanedUp(raw[i], before, at), now) == Visible(raw[i], now)
    {
      ListedIsStored(msg, c, cursor, limit, raw[i]);
      CleanedUpLooksTheSame(raw[i], before, at, now);
    }
  }
}
