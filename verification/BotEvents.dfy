/**
 Bot event queues over every interleaving: nothing is lost, duplicated or reordered; and when `message.created` events
 are exactly the new messages of normal channels.
 */
module BotEvents {
  import opened JsCollections
  import opened Ids
  import opened Domain
  import opened Workspaces
  import opened MessageStore
  import opened Bots
  import opened Messages
  import opened Runs
  import opened Rows
  import opened Interleaving

  function ForBot(bot: BotState, b: BotId): BotEvent -> bool {
    (e: BotEvent) => Matches(bot, b, e.channelId, e.eventType)
  }

  /** The published events for which bot `b` is in the channel and subscribed at that moment. */
  function Enqueued(s: State, step: Step, b: BotId): seq<BotEvent> {
    Filter(Published(s, step), ForBot(s.bot, b))
  }

  function Polled(s: State, step: Step, b: BotId): seq<BotEvent> {
    if step.op.BotCall? && step.op.botOp.PollOp? && step.op.botOp.b == b then Poll(s.bot, b, step.op.botOp.limit).1 else []
  }

  /** The events a move publishes: those of a whole call, or the one of the second half of a send. */
  function PublishedBy(w: World, step: TimedMove): seq<BotEvent> {
    if !Enabled(w, step.move) then []
    else
      match step.move
      case Whole(op) => Published(w.s, Step(op, step.now))
      case FinishSend(call, newId) => Finished(w, call, newId, step.now).published
      case _ => []
  }

  function EnqueuedBy(w: World, step: TimedMove, b: BotId): seq<BotEvent> {
    Filter(PublishedBy(w, step), ForBot(w.s.bot, b))
  }

  function PolledBy(w: World, step: TimedMove, b: BotId): seq<BotEvent> {
    if step.move.Whole? && Enabled(w, step.move) then Polled(w.s, Step(step.move.op, step.now), b) else []
  }

  ghost function EnqueuedAll(w: World, moves: seq<TimedMove>, b: BotId): seq<BotEvent>
    decreases |moves|
  {
    if moves == [] then [] else EnqueuedBy(w, moves[0], b) + EnqueuedAll(Moved(w, moves[0]), moves[1..], b)
  }

  ghost function PolledAll(w: World, moves: seq<TimedMove>, b: BotId): seq<BotEvent>
    decreases |moves|
  {
    if moves == [] then [] else PolledBy(w, moves[0], b) + PolledAll(Moved(w, moves[0]), moves[1..], b)
  }

  lemma SendQueues(s: State, actor: UserId, input: SendInput, error: Option<Error>, id: MessageId, now: nat, b: BotId)
    ensures var r := Send(s, actor, input, error, id, now);
      && Queue(r.state.bot, b) == Queue(s.bot, b) + Filter(r.published, ForBot(s.bot, b))
      && (r.published == [] ==> r.state.bot == s.bot)
  {
    var r := Send(s, actor, input, error, id, now);
    if r.published != [] {
      PublishQueue(s.bot, r.published[0], b);
      assert r.state.bot == Publish(s.bot, r.published[0]);
    }
  }

  lemma InvokeQueues(
      s: State, w: WorkspaceId, c: ChannelId, user: UserId, command: string, args: string, id: MessageId,
      now: nat, b: BotId)
    ensures var r := InvokeCommand(s, w, c, user, command, args, id, now);
      Queue(r.state.bot, b) == Queue(s.bot, b) + Filter(r.published, ForBot(s.bot, b))
  {
    var r := InvokeCommand(s, w, c, user, command, args, id, now);
    if r.published != [] {
      PublishQueue(s.bot, r.published[0], b);
    }
  }

  lemma ForwardQueues(
      s: State, actor: UserId, id: MessageId, target: ChannelId, client: ClientMsgId, error: Option<Error>,
      newId: MessageId, now: nat, b: BotId)
    ensures var r := Forward(s, actor, id, target, client, error, newId, now);
      Queue(r.state.bot, b) == Queue(s.bot, b) + Filter(r.published, ForBot(s.bot, b))
  {
    hide Send, CanAccessChannel;
    if Find(s.msg, id).Some? && target in s.ws.channels.vals {
      SendQueues(s, actor, ForwardInput(s, Find(s.msg, id).value, target, client), error, newId, now, b);
    }
  }

  lemma BotCallQueue(s: State, op: BotOp, b: BotId)
    ensures Queue(s.bot, b) == (if op.PollOp? && op.b == b then Poll(s.bot, b, op.limit).1 else []) + Queue(ApplyBotOp(s, op), b)
  {
    if op.PollOp? {
      PollQueue(s.bot, op.b, op.limit, b);
    }
  }

  lemma StepQueue(s: State, step: Step, b: BotId)
    ensures Queue(s.bot, b) + Enqueued(s, step, b) == Polled(s, step, b) + Queue(Next(s, step).bot, b)
  {
    hide Send, Forward, InvokeCommand, Create, Apply, ApplyBotOp, Edit, SoftDelete;
    hide Save, React, AckRead, FlushReceipts, CleanUp, Queue, Poll;
    match step.op
    case SendCall(actor, input, error, newId) =>
      SendQueues(s, actor, input, error, newId, step.now, b);
    case ForwardCall(actor, id, target, client, error, newId) =>
      ForwardQueues(s, actor, id, target, client, error, newId, step.now, b);
    case InvokeCall(w, c, user, command, args, newId) =>
      InvokeQueues(s, w, c, user, command, args, newId, step.now, b);
    case BotCall(botOp) =>
      BotCallQueue(s, botOp, b);
    case _ =>
  }

  lemma FinishQueues(s: State, actor: UserId, input: SendInput, id: MessageId, now: nat, b: BotId)
    ensures var r := Finish(s, actor, input, id, now);
      Queue(r.state.bot, b) == Queue(s.bot, b) + Filter(r.published, ForBot(s.bot, b))
  {
    hide Create, Publish, Queue;
    var r := Finish(s, actor, input, id, now);
    if r.published != [] {
      PublishQueue(s.bot, r.published[0], b);
      assert r.published[1..] == [];
    }
  }

  lemma MoveQueue(w: World, step: TimedMove, b: BotId)
    ensures Queue(w.s.bot, b) + EnqueuedBy(w, step, b) == PolledBy(w, step, b) + Queue(Moved(w, step).s.bot, b)
  {
    hide Next, Fresh, Published, Polled, Finish, Wrote, Held, Queue;
    if Enabled(w, step.move) {
      match step.move
      case Whole(op) => StepQueue(w.s, Step(op, step.now), b);
      case FinishSend(call, newId) => FinishQueues(w.s, w.inFlight[call].actor, w.inFlight[call].input, newId, step.now, b);
      case FinishWrite(call) => WroteKeepsQueue(w, step, b);
      case _ =>
    }
  }

  lemma WroteKeepsQueue(w: World, step: TimedMove, b: BotId)
    requires Enabled(w, step.move) && step.move.FinishWrite?
    ensures MovedState(w, step).bot == w.s.bot
  {
    hide Wrote;
  }

  /** For every bot and every interleaving, with polls of any limits in between: what was waiting, then everything enqueued
      for it, is everything it polled, then what still waits; in order, nothing lost, nothing twice. */
  lemma {:induction false} QueuesConserveEvents(w: World, moves: seq<TimedMove>, b: BotId)
    ensures Queue(w.s.bot, b) + EnqueuedAll(w, moves, b) == PolledAll(w, moves, b) + Queue(After(w, moves).s.bot, b)
    decreases |moves|
  {
    hide Moved, EnqueuedBy, PolledBy, Queue;
    if moves == [] {
      assert Queue(w.s.bot, b) + [] == [] + Queue(w.s.bot, b);
    } else {
      var w1 := Moved(w, moves[0]);
      MoveQueue(w, moves[0], b);
      QueuesConserveEvents(w1, moves[1..], b);
      Splice(Queue(w.s.bot, b), EnqueuedBy(w, moves[0], b), PolledBy(w, moves[0], b), Queue(w1.s.bot, b),
             EnqueuedAll(w1, moves[1..], b), PolledAll(w1, moves[1..], b), Queue(After(w1, moves[1..]).s.bot, b));
    }
  }

  // ---------------------------------------------------------------- message.created

  function CreatedIds(events: seq<BotEvent>): seq<MessageId> {
    if events == [] then []
    else
      (if events[0].eventType == MessageCreated && events[0].payload.MessagePayload? then [events[0].payload.message.id] else [])
      + CreatedIds(events[1..])
  }

  /** The row that has been added, if one has been, to a normal channel. */
  ghost function AddedNormal(ws: WorkspaceState, ms: MessageTable, ms': MessageTable): (added: seq<MessageId>)
    ensures |added| <= 1
  {
    if |ms'.keys| > |ms.keys| && ms'.keys[|ms.keys|] in ms'.vals && IsNormal(ws, ms'.vals[ms'.keys[|ms.keys|]].channelId)
    then [ms'.keys[|ms.keys|]] else []
  }

  /** The messages a send or a forward stored in a normal channel. */
  ghost function NewNormal(s: State, step: Step): seq<MessageId> {
    if step.op.SendCall? || step.op.ForwardCall? then AddedNormal(s.ws, s.msg.messages, Next(s, step).msg.messages) else []
  }

  /** The same for a move. */
  ghost function NewNormalBy(w: World, step: TimedMove): seq<MessageId> {
    if step.move.Whole? then NewNormal(w.s, Step(step.move.op, step.now))
    else if step.move.FinishSend? then AddedNormal(w.s.ws, w.s.msg.messages, Moved(w, step).s.msg.messages)
    else []
  }

  ghost function PublishedIds(w: World, moves: seq<TimedMove>): seq<MessageId>
    decreases |moves|
  {
    if moves == [] then [] else CreatedIds(PublishedBy(w, moves[0])) + PublishedIds(Moved(w, moves[0]), moves[1..])
  }

  ghost function NewNormalIds(w: World, moves: seq<TimedMove>): seq<MessageId>
    decreases |moves|
  {
    if moves == [] then [] else NewNormalBy(w, moves[0]) + NewNormalIds(Moved(w, moves[0]), moves[1..])
  }

  /** What a send publishes: its new message, if it made one in a normal channel. */
  lemma SendPublishes(s: State, actor: UserId, input: SendInput, error: Option<Error>, id: MessageId, now: nat)
    requires id !in s.msg.messages.vals
    ensures var r := Send(s, actor, input, error, id, now);
      && CreatedIds(r.published) == (if r.state.msg.messages != s.msg.messages && IsNormal(s.ws, input.channelId) then [id] else [])
      && (r.state.msg.messages == s.msg.messages
          || (r.state.msg.messages.keys == s.msg.messages.keys + [id]
              && id in r.state.msg.messages.vals && r.state.msg.messages.vals[id].channelId == input.channelId))
  {
    hide Admit, Publish;
    AdmittedOnly(s, actor, input, error);
    var r := Send(s, actor, input, error, id, now);
    assert r.published != [] ==> CreatedIds(r.published[1..]) == [];
  }

  lemma ForwardPublishes(s: State, step: Step)
    requires RowsOk(s.ws, s.msg.messages) && step.op.ForwardCall? && Fresh(s, step.op)
    ensures CreatedIds(Published(s, step)) == NewNormal(s, step)
    ensures Next(s, step).msg.messages.keys == s.msg.messages.keys || Next(s, step).msg.messages.keys == s.msg.messages.keys + [step.op.newId]
  {
    hide Send, WithOrigin, CanAccessChannel, RowsOk, RowsStay;
    var ForwardCall(actor, id, target, client, error, newId) := step.op;
    if Find(s.msg, id).Some? && target in s.ws.channels.vals {
      var source := Find(s.msg, id).value;
      var input := ForwardInput(s, source, target, client);
      SendPublishes(s, actor, input, error, newId, step.now);
      SendRows(s, actor, input, error, newId, step.now);
      WithOriginKeepsPlace(Send(s, actor, input, error, newId, step.now), OriginOf(source), newId);
    }
  }

  lemma WithOriginKeepsPlace(sent: SendResult, origin: Origin, id: MessageId)
    requires sent.outcome.Ok? ==> sent.state.msg.messages.Get(sent.outcome.value.id) == Some(sent.outcome.value)
    ensures var ms, ms' := sent.state.msg.messages, WithOrigin(sent, origin).state.msg.messages;
      && WithOrigin(sent, origin).published == sent.published
      && ms'.keys == ms.keys && (id in ms'.vals <==> id in ms.vals)
      && (id in ms.vals ==> ms'.vals[id].channelId == ms.vals[id].channelId)
  {
  }

  lemma InvokePublishes(
      s: State, w: WorkspaceId, c: ChannelId, user: UserId, command: string, args: string, id: MessageId,
      now: nat)
    ensures CreatedIds(InvokeCommand(s, w, c, user, command, args, id, now).published) == []
  {
    hide Publish, FindHelpBot, HelpText, Create;
    var published := InvokeCommand(s, w, c, user, command, args, id, now).published;
    assert published != [] ==> CreatedIds(published[1..]) == [];
  }

  lemma StepPublishes(s: State, step: Step)
    requires RowsOk(s.ws, s.msg.messages) && Fresh(s, step.op)
    ensures CreatedIds(Published(s, step)) == NewNormal(s, step)
    ensures forall id :: id in NewNormal(s, step) ==> id !in s.msg.messages.vals && id in Next(s, step).msg.messages.vals
  {
    hide Forward, InvokeCommand, RowsOk;
    match step.op
    case SendCall(actor, input, error, newId) => SendPublishes(s, actor, input, error, newId, step.now);
    case ForwardCall(_, _, _, _, _, _) => ForwardPublishes(s, step);
    case InvokeCall(w, c, user, command, args, newId) => InvokePublishes(s, w, c, user, command, args, newId, step.now);
    case _ =>
  }

  /** At most one new id before, and only newer ones after: no repetition, all new, all stored at the end. */
  lemma NewIdsAppend(
      first: seq<MessageId>, rest: seq<MessageId>, start: set<MessageId>, middle: set<MessageId>,
      end: set<MessageId>)
    requires |first| <= 1 && Distinct(rest) && start <= middle <= end
    requires forall id :: id in first ==> id !in start && id in middle
    requires forall id :: id in rest ==> id !in middle && id in end
    ensures Distinct(first + rest) && forall id :: id in first + rest ==> id !in start && id in end
  {
    assert first != [] ==> first[0] in first;
    forall j | 0 <= j < |rest|
      ensures first != [] ==> first[0] != rest[j]
    {
      assert rest[j] in rest;
    }
  }

  /** The second half of a send into a normal channel publishes its own new message exactly when its client id is not
      indexed by then; otherwise it publishes the row that took it. */
  lemma FinishPublishesOwnIff(s: State, actor: UserId, input: SendInput, id: MessageId, now: nat)
    requires MessageInv(s.msg) && id !in s.msg.messages.vals && IsNormal(s.ws, input.channelId)
    ensures var r := Finish(s, actor, input, id, now);
      var key := (actor, input.clientMsgId);
      && (r.published == [CreatedEvent(SentMessage(id, actor, input, now), input, now)] <==> key !in s.msg.byClientId)
      && (key in s.msg.byClientId ==>
            && FindByClient(s.msg, actor, input.clientMsgId) == Some(r.outcome.value)
            && r.published == [CreatedEvent(r.outcome.value, input, now)] && r.outcome.value.id != id)
  {
    hide Finish, MessageInv, FindByClient;
    var key := (actor, input.clientMsgId);
    FinishStores(s, actor, input, id, now);
    if key in s.msg.byClientId {
      KnownIsStored(s.msg, key);
    }
  }

  /** A second half that publishes a row it did not store. */
  predicate Repeats(w: World, move: Move) {
    && move.FinishSend? && Holds(w, move.call) && w.inFlight[move.call].Sending?
    && var Sending(actor, input, _) := w.inFlight[move.call];
    IsNormal(w.s.ws, input.channelId) && FindByClient(w.s.msg, actor, input.clientMsgId).Some?
  }

  lemma FinishPublishesNew(s: State, actor: UserId, input: SendInput, id: MessageId, now: nat)
    requires id !in s.msg.messages.vals
    ensures var r := Finish(s, actor, input, id, now);
      var added := AddedNormal(s.ws, s.msg.messages, r.state.msg.messages);
      var repeats := IsNormal(s.ws, input.channelId) && FindByClient(s.msg, actor, input.clientMsgId).Some?;
      && |CreatedIds(r.published)| == |added| + (if repeats then 1 else 0)
      && (!repeats ==> CreatedIds(r.published) == added)
      && |added| <= 1 && forall x :: x in added ==> x == id && id in r.state.msg.messages.vals
  {
    hide Publish, FindByClient;
    var r := Finish(s, actor, input, id, now);
    assert r.published != [] ==> CreatedIds(r.published[1..]) == [];
  }

  /** What a move publishes are the normal-channel messages it stored, and one row more when it repeats one. */
  lemma MovePublishes(w: World, step: TimedMove)
    requires RowsOk(w.s.ws, w.s.msg.messages) && Enabled(w, step.move)
    ensures |CreatedIds(PublishedBy(w, step))| == |NewNormalBy(w, step)| + (if Repeats(w, step.move) then 1 else 0)
    ensures !Repeats(w, step.move) ==> CreatedIds(PublishedBy(w, step)) == NewNormalBy(w, step)
    ensures |NewNormalBy(w, step)| <= 1
    ensures forall id :: id in NewNormalBy(w, step) ==> id !in w.s.msg.messages.vals && id in Moved(w, step).s.msg.messages.vals
  {
    hide RowsOk, Next, Finish, Published, AddedNormal, Born, Held, FindByClient;
    match step.move
    case Whole(op) => StepPublishes(w.s, Step(op, step.now));
    case FinishSend(call, newId) => FinishPublishesNew(w.s, w.inFlight[call].actor, w.inFlight[call].input, newId, step.now);
    case _ =>
  }

  lemma WorldRowsOk(w: World)
    requires WorldInv(w)
    ensures RowsOk(w.s.ws, w.s.msg.messages)
  {
    IndexedRowsOk(w.s);
  }

  ghost function Repetitions(w: World, moves: seq<TimedMove>): nat
    decreases |moves|
  {
    if moves == [] then 0 else (if Repeats(w, moves[0].move) then 1 else 0) + Repetitions(Moved(w, moves[0]), moves[1..])
  }

  /** Over every interleaving, the `message.created` events published are the new normal-channel messages that sends and
      forwards made, in order, each once, if and only if no second half of a send repeats a row; each that does adds one event. */
  lemma {:induction false} CreatedEventsAreNewMessages(w: World, clock: nat, moves: seq<TimedMove>)
    requires WorldInv(w) && Possible(w, clock, moves)
    ensures PublishedIds(w, moves) == NewNormalIds(w, moves) <==> Repetitions(w, moves) == 0
    ensures |PublishedIds(w, moves)| == |NewNormalIds(w, moves)| + Repetitions(w, moves)
    ensures Distinct(NewNormalIds(w, moves))
    ensures forall id :: id in NewNormalIds(w, moves) ==>
      id !in w.s.msg.messages.vals.Keys && id in After(w, moves).s.msg.messages.vals.Keys
    decreases |moves|
  {
    hide WorldInv, RowsOk, Enabled, Moved, PublishedBy, NewNormalBy, Repeats;
    if moves != [] {
      var w1, rest := Moved(w, moves[0]), moves[1..];
      MoveKeeps(w, moves[0]);
      WorldRowsOk(w);
      MovePublishes(w, moves[0]);
      CreatedEventsAreNewMessages(w1, moves[0].now, rest);
      AfterKeeps(w1, moves[0].now, rest);
      IdsStay(w.s, w1.s);
      IdsStay(w1.s, After(w1, rest).s);
      NewIdsAppend(NewNormalBy(w, moves[0]), NewNormalIds(w1, rest),
                   w.s.msg.messages.vals.Keys, w1.s.msg.messages.vals.Keys, After(w1, rest).s.msg.messages.vals.Keys);
    }
  }

  lemma IdsStay(s: State, s': State)
    requires StatePersists(s, s')
    ensures s.msg.messages.vals.Keys <= s'.msg.messages.vals.Keys
  {
    forall id | id in s.msg.messages.vals.Keys
      ensures id in s'.msg.messages.vals.Keys
    {
      assert id in s.msg.messages.vals;
    }
  }
}
