/**
 Runs of the whole service: any sequence of workspace, message and bot calls, each one atomic step, with a
 clock that never goes back.  What every step keeps, and so every run.
 */
module Runs {
  import opened JsCollections
  import opened Ids
  import opened DmNames
  import opened Domain
  import opened Workspaces
  import opened MessageStore
  import opened Bots
  import opened Messages

  datatype Op =
    | WorkspaceCall(op: WorkspaceOp)
    // messages
    | SendCall(actor: UserId, input: SendInput, attachmentError: Option<Error>, newId: MessageId)
    | EditCall(actor: UserId, id: MessageId, text: string)
    | SoftDeleteCall(actor: UserId, id: MessageId)
    | ForwardCall(actor: UserId, id: MessageId, target: ChannelId, client: ClientMsgId, attachmentError: Option<Error>, newId: MessageId)
    | SaveCall(actor: UserId, id: MessageId)
    | ReactCall(actor: UserId, id: MessageId, emoji: Emoji, add: bool)
    | AckReadCall(actor: UserId, id: MessageId)
    | FlushCall(channel: Option<ChannelId>)
    | CleanUpCall(before: nat)
    // bots
    | BotCall(botOp: BotOp)
    | InvokeCall(w: WorkspaceId, c: ChannelId, user: UserId, command: string, args: string, newId: MessageId)
    | SendBotCall(b: BotId, input: SendInput, newId: MessageId)

  datatype Step = Step(op: Op, now: nat)

  function Next(s: State, step: Step): State {
    var now := step.now;
    match step.op
    case WorkspaceCall(op) => s.(ws := Apply(s.ws, op, now))
    case SendCall(actor, input, error, newId) => Send(s, actor, input, error, newId, now).state
    case EditCall(actor, id, text) => s.(msg := Edit(s.msg, actor, id, text, now).0)
    case SoftDeleteCall(actor, id) => s.(msg := SoftDelete(s.msg, actor, id, now).0)
    case ForwardCall(actor, id, target, client, error, newId) => Forward(s, actor, id, target, client, error, newId, now).state
    case SaveCall(actor, id) => s.(msg := Save(s, actor, id, now).0)
    case ReactCall(actor, id, emoji, add) => s.(msg := React(s, actor, id, emoji, add, now).0)
    case AckReadCall(actor, id) => s.(msg := AckRead(s, actor, id, now).0)
    case FlushCall(channel) => s.(msg := FlushReceipts(s.msg, channel, now).0)
    case CleanUpCall(before) => s.(msg := CleanUp(s.msg, before, now))
    case BotCall(botOp) => s.(bot := ApplyBotOp(s, botOp))
    case InvokeCall(w, c, user, command, args, newId) => InvokeCommand(s, w, c, user, command, args, newId, now).state
    case SendBotCall(b, input, newId) => SendBotMessage(s, b, input, newId, now).0
  }

  /** The ids a call draws are new. */
  predicate Fresh(s: State, op: Op) {
    match op
    case WorkspaceCall(wop) => FreshIds(s.ws, wop)
    case SendCall(_, _, _, newId) => newId !in s.msg.messages.vals
    case ForwardCall(_, _, _, _, _, newId) => newId !in s.msg.messages.vals
    case InvokeCall(_, _, _, _, _, newId) => newId !in s.msg.messages.vals
    case SendBotCall(_, _, newId) => newId !in s.msg.messages.vals
    case _ => true
  }

  ghost predicate Legal(s: State, clock: nat, run: seq<Step>)
    decreases |run|
  {
    run == [] || (clock <= run[0].now && Fresh(s, run[0].op) && Legal(Next(s, run[0]), run[0].now, run[1..]))
  }

  ghost function Run(s: State, run: seq<Step>): State
    decreases |run|
  {
    if run == [] then s else Run(Next(s, run[0]), run[1..])
  }

  function Clock(clock: nat, run: seq<Step>): nat {
    if run == [] then clock else run[|run| - 1].now
  }

  // ---------------------------------------------------------------- the invariant

  /** Every message belongs to a channel, and an E2E channel holds no text. */
  ghost predicate ContentsFit(ws: WorkspaceState, ms: MessageTable) {
    forall id :: id in ms.vals ==> ContentFits(ws, ms.vals[id])
  }

  ghost predicate ContentFits(ws: WorkspaceState, m: Message) {
    m.channelId in ws.channels.vals && (ws.channels.vals[m.channelId].mode == E2e ==> !m.content.Text?)
  }

  /** What holds of the workspace and message tables. */
  ghost predicate Core(s: State) {
    WorkspaceInv(s.ws) && MessagesOk(s.ws, s.msg)
  }

  ghost predicate Inv(s: State) {
    Core(s) && BotsPlaced(s.ws, s.bot) && EventsPlain(s.bot)
  }

  ghost predicate MessagesOk(ws: WorkspaceState, msg: MessageState) {
    MessageInv(msg) && ContentsFit(ws, msg.messages)
  }

  /** How the state may change: channels and messages persist; deleted channels stay deleted; every message evolves. */
  ghost predicate StateEvolves(s: State, s': State) {
    ChannelsPersist(s.ws, s'.ws) && DeletionsPersist(s.ws, s'.ws) && Evolves(s.msg, s'.msg)
  }

  /** What a step on messages must keep. */
  ghost predicate MessagesKept(ws: WorkspaceState, msg: MessageState, msg': MessageState) {
    MessagesOk(ws, msg') && Evolves(msg, msg')
  }

  lemma UpdateKept(ws: WorkspaceState, msg: MessageState, m: Message)
    requires MessagesOk(ws, msg)
    requires m.id in msg.messages.vals && MessageEvolves(msg.messages.vals[m.id], m)
    requires m.status == StatusDeleted ==> m.content.Tombstone?
    ensures MessagesKept(ws, msg, Update(msg, m))
  {
    UpdateKeeps(msg, m);
    assert ContentFits(ws, msg.messages.vals[m.id]);
  }

  lemma CreateKept(ws: WorkspaceState, msg: MessageState, m: Message, files: set<FileId>)
    requires MessagesOk(ws, msg) && m.id !in msg.messages.vals && m.status == StatusSent && ContentFits(ws, m)
    ensures MessagesKept(ws, msg, Create(msg, m, files).0)
  {
    CreateKeeps(msg, m, files);
  }

  /** The tables that no invariant constrains may change freely. */
  lemma SideTablesKept(ws: WorkspaceState, msg: MessageState, msg': MessageState)
    requires MessagesOk(ws, msg) && msg'.reactions.Valid() && msg'.saved.Valid()
    requires msg' == msg.(reactions := msg'.reactions, saved := msg'.saved, events := msg'.events)
    ensures MessagesKept(ws, msg, msg')
  {
    EvolvesReflexive(msg);
  }

  lemma FoundIs(msg: MessageState, id: MessageId)
    requires MessageInv(msg) && Find(msg, id).Some?
    ensures Find(msg, id).value.id == id && id in msg.messages.vals && msg.messages.vals[id] == Find(msg, id).value
    ensures Find(msg, id).value.status == StatusDeleted ==> Find(msg, id).value.content.Tombstone?
  {
    assert Indexed(msg.byClientId, msg.messages.vals[id], id);
  }

  lemma EditKept(ws: WorkspaceState, msg: MessageState, actor: UserId, id: MessageId, text: string, now: nat)
    requires MessagesOk(ws, msg)
    ensures MessagesKept(ws, msg, Edit(msg, actor, id, text, now).0)
  {
    EvolvesReflexive(msg);
    if Find(msg, id).Some? {
      FoundIs(msg, id);
      var m := Find(msg, id).value;
      if m.content.Text? {
        UpdateKept(ws, msg, m.(content := m.content.(text := text), editedAt := Some(now)));
      }
    }
  }

  lemma SoftDeleteKept(ws: WorkspaceState, msg: MessageState, actor: UserId, id: MessageId, now: nat)
    requires MessagesOk(ws, msg)
    ensures MessagesKept(ws, msg, SoftDelete(msg, actor, id, now).0)
  {
    EvolvesReflexive(msg);
    if Find(msg, id).Some? {
      FoundIs(msg, id);
      UpdateKept(ws, msg, Entomb(Find(msg, id).value, Deleted, now));
    }
  }

  lemma RecordReceiptKept(ws: WorkspaceState, msg: MessageState, sender: UserId, receipt: Receipt)
    requires MessagesOk(ws, msg)
    requires receipt.messageId in msg.messages.vals && msg.messages.vals[receipt.messageId].senderId == sender
    ensures MessagesOk(ws, RecordReceipt(msg, sender, receipt))
  {
    if receipt !in msg.receipts {
      assert receipt !in msg.pendingReceipts;
    }
  }

  lemma AckedEvolves(m: Message, now: nat)
    ensures MessageEvolves(m, Acked(m, now)) && (Acked(m, now).status == StatusDeleted ==> Acked(m, now).content.Tombstone?)
  {
  }

  lemma AckReadKept(s: State, actor: UserId, id: MessageId, now: nat)
    requires MessagesOk(s.ws, s.msg)
    ensures MessagesKept(s.ws, s.msg, AckRead(s, actor, id, now).0)
  {
    hide CanAccessChannel, Acked, ContentsFit;
    EvolvesReflexive(s.msg);
    if Find(s.msg, id).Some? {
      FoundIs(s.msg, id);
      var m := Find(s.msg, id).value;
      RecordReceiptKept(s.ws, s.msg, m.senderId, Receipt(id, actor));
      AckedEvolves(m, now);
      UpdateKept(s.ws, RecordReceipt(s.msg, m.senderId, Receipt(id, actor)), Acked(m, now));
    }
  }

  lemma FlushKept(ws: WorkspaceState, msg: MessageState, channel: Option<ChannelId>, now: nat)
    requires MessagesOk(ws, msg)
    ensures MessagesKept(ws, msg, FlushReceipts(msg, channel, now).0)
  {
    FilterDistinct(msg.pendingReceipts, Undrained(msg, channel));
    EvolvesReflexive(msg);
  }

  lemma CleanUpKeepsIndex(msg: MessageState, before: nat, now: nat)
    requires IndexInv(msg.messages, msg.byClientId)
    ensures IndexInv(CleanUp(msg, before, now).messages, msg.byClientId)
  {
    var ms' := CleanUp(msg, before, now).messages;
    forall id | id in ms'.vals
      ensures Indexed(msg.byClientId, ms'.vals[id], id)
    {
      assert Indexed(msg.byClientId, msg.messages.vals[id], id);
    }
    forall key | key in msg.byClientId
      ensures Backed(ms', key, msg.byClientId[key])
    {
      assert Backed(msg.messages, key, msg.byClientId[key]);
    }
  }

  lemma CleanUpKeepsRest(ws: WorkspaceState, msg: MessageState, before: nat, now: nat)
    requires MessagesOk(ws, msg)
    ensures var msg' := CleanUp(msg, before, now);
      && TombstoneInv(msg'.messages) && ReceiptInv(msg'.messages, msg.receipts, msg.pendingReceipts)
      && msg'.messages.vals.Keys == msg.messages.vals.Keys && ContentsFit(ws, msg'.messages)
  {
    var ms' := CleanUp(msg, before, now).messages;
    forall id | id in ms'.vals
      ensures ContentFits(ws, ms'.vals[id])
    {
      assert ContentFits(ws, msg.messages.vals[id]);
    }
  }

  lemma CleanUpKept(ws: WorkspaceState, msg: MessageState, before: nat, now: nat)
    requires MessagesOk(ws, msg)
    ensures MessagesKept(ws, msg, CleanUp(msg, before, now))
  {
    CleanUpKeepsIndex(msg, before, now);
    CleanUpKeepsRest(ws, msg, before, now);
    CleanUpEvolves(msg, before, now);
  }

  lemma CleanUpEvolves(msg: MessageState, before: nat, now: nat)
    ensures Evolves(msg, CleanUp(msg, before, now))
  {
  }

  lemma SaveKept(s: State, actor: UserId, id: MessageId, now: nat)
    requires MessagesOk(s.ws, s.msg)
    ensures MessagesKept(s.ws, s.msg, Save(s, actor, id, now).0)
  {
    SideTablesKept(s.ws, s.msg, Save(s, actor, id, now).0);
  }

  lemma ReactKept(s: State, actor: UserId, id: MessageId, emoji: Emoji, add: bool, now: nat)
    requires MessagesOk(s.ws, s.msg)
    ensures MessagesKept(s.ws, s.msg, React(s, actor, id, emoji, add, now).0)
  {
    SideTablesKept(s.ws, s.msg, React(s, actor, id, emoji, add, now).0);
  }

  ghost predicate Kept(s: State, s': State) {
    s'.ws == s.ws && MessagesKept(s.ws, s.msg, s'.msg)
  }

  /** The second half of a send answers with the one row for its key: the one already there, and then nothing is stored, or
      its own message.  In a normal channel it publishes that row either way. */
  lemma FinishStores(s: State, actor: UserId, input: SendInput, id: MessageId, now: nat)
    requires MessageInv(s.msg) && id !in s.msg.messages.vals
    ensures var r := Finish(s, actor, input, id, now);
      var key := (actor, input.clientMsgId);
      && r.outcome.Ok? && r.state.ws == s.ws
      && r.state.msg.messages.Get(r.outcome.value.id) == Some(r.outcome.value) && ClientKey(r.outcome.value) == key
      && (if key in s.msg.byClientId
          then r.state.msg == s.msg && r.outcome.value.id == s.msg.byClientId[key]
          else r.outcome.value == SentMessage(id, actor, input, now) && r.state.msg.messages == s.msg.messages.Set(id, r.outcome.value))
      && (if IsNormal(s.ws, input.channelId)
          then r.published == [CreatedEvent(r.outcome.value, input, now)] && r.state.bot == Publish(s.bot, r.published[0])
          else r.published == [] && r.state.bot == s.bot)
  {
    hide Publish, TombstoneInv, ReceiptInv, Create;
    var key := (actor, input.clientMsgId);
    FindByClientIs(s.msg, key);
    CreateKeeps(s.msg, SentMessage(id, actor, input, now), set f | f in Attachments(input.content));
    if key in s.msg.byClientId {
      CreateAgain(s.msg, SentMessage(id, actor, input, now), set f | f in Attachments(input.content));
    }
  }

  lemma CreateAgain(msg: MessageState, m: Message, files: set<FileId>)
    requires MessageInv(msg) && ClientKey(m) in msg.byClientId
    ensures var (msg', created) := Create(msg, m, files);
      msg' == msg && created.id == msg.byClientId[ClientKey(m)]
  {
    FindByClientIs(msg, ClientKey(m));
    assert Backed(msg.messages, ClientKey(m), msg.byClientId[ClientKey(m)]);
    assert Indexed(msg.byClientId, msg.messages.vals[msg.byClientId[ClientKey(m)]], msg.byClientId[ClientKey(m)]);
  }

  lemma KnownIsStored(msg: MessageState, key: (UserId, ClientMsgId))
    requires MessageInv(msg) && key in msg.byClientId
    ensures var known := FindByClient(msg, key.0, key.1);
      known.Some? && known.value.id == msg.byClientId[key] && msg.messages.Get(known.value.id) == known && ClientKey(known.value) == key
  {
    FindByClientIs(msg, key);
    var id := msg.byClientId[key];
    assert Backed(msg.messages, key, id) && Indexed(msg.byClientId, msg.messages.vals[id], id);
  }

  /** A send answers with the stored row for (actor, client id): the one already there, or the one it makes. */
  lemma SendStores(s: State, actor: UserId, input: SendInput, error: Option<Error>, id: MessageId, now: nat)
    requires MessageInv(s.msg) && id !in s.msg.messages.vals
    ensures var r := Send(s, actor, input, error, id, now);
      var key := (actor, input.clientMsgId);
      && (r.outcome.Ok? ==> r.state.msg.messages.Get(r.outcome.value.id) == Some(r.outcome.value) && ClientKey(r.outcome.value) == key)
      && (if r.outcome.Ok? && key !in s.msg.byClientId
          then r.outcome.value == SentMessage(id, actor, input, now) && r.state.msg.messages == s.msg.messages.Set(id, r.outcome.value)
          else r.state == s && r.published == [])
  {
    hide CanAccessChannel, Finish, MessageInv, FindByClient;
    var key := (actor, input.clientMsgId);
    AdmissionIs(s, actor, input, error);
    FinishStores(s, actor, input, id, now);
    if key in s.msg.byClientId {
      KnownIsStored(s.msg, key);
    }
  }

  /** A send is admitted only into a channel of its content's mode, and only when no row is found for its client id. */
  lemma AdmittedOnly(s: State, actor: UserId, input: SendInput, error: Option<Error>)
    ensures match Admit(s, actor, input, error)
      case Refused(_) => true
      case Known(existing) => FindByClient(s.msg, actor, input.clientMsgId) == Some(existing)
      case Admitted => FindByClient(s.msg, actor, input.clientMsgId).None? && InputFits(s.ws, input)
  {
    hide CanAccessChannel;
  }

  /** The same in terms of the index. */
  lemma AdmissionIs(s: State, actor: UserId, input: SendInput, error: Option<Error>)
    requires MessageInv(s.msg)
    ensures match Admit(s, actor, input, error)
      case Refused(_) => true
      case Known(existing) => (actor, input.clientMsgId) in s.msg.byClientId && FindByClient(s.msg, actor, input.clientMsgId) == Some(existing)
      case Admitted => (actor, input.clientMsgId) !in s.msg.byClientId && InputFits(s.ws, input)
  {
    hide Admit, InputFits;
    AdmittedOnly(s, actor, input, error);
    FindByClientIs(s.msg, (actor, input.clientMsgId));
  }

  predicate InputFits(ws: WorkspaceState, input: SendInput) {
    && input.channelId in ws.channels.vals
    && (ws.channels.vals[input.channelId].mode == E2e <==> input.content.Ciphertext?)
  }

  lemma FinishKept(s: State, actor: UserId, input: SendInput, id: MessageId, now: nat)
    requires MessagesOk(s.ws, s.msg) && id !in s.msg.messages.vals && InputFits(s.ws, input)
    ensures Kept(s, Finish(s, actor, input, id, now).state)
  {
    hide Publish, Create;
    CreateKept(s.ws, s.msg, SentMessage(id, actor, input, now), set f | f in Attachments(input.content));
  }

  lemma SendKept(s: State, actor: UserId, input: SendInput, error: Option<Error>, id: MessageId, now: nat)
    requires MessagesOk(s.ws, s.msg) && id !in s.msg.messages.vals
    ensures Kept(s, Send(s, actor, input, error, id, now).state)
  {
    hide Admit, Finish, InputFits;
    UnchangedKept(s);
    AdmissionIs(s, actor, input, error);
    if Admit(s, actor, input, error).Admitted? {
      FinishKept(s, actor, input, id, now);
    }
  }

  lemma SendWithOriginKept(
      s: State, actor: UserId, input: SendInput, error: Option<Error>, id: MessageId, now: nat, origin: Origin)
    requires MessagesOk(s.ws, s.msg) && id !in s.msg.messages.vals
    ensures Kept(s, WithOrigin(Send(s, actor, input, error, id, now), origin).state)
  {
    hide Send;
    SendKept(s, actor, input, error, id, now);
    SentIsStored(s, actor, input, error, id, now);
    WithOriginKept(s, Send(s, actor, input, error, id, now), origin);
  }

  lemma UnchangedKept(s: State)
    requires MessagesOk(s.ws, s.msg)
    ensures Kept(s, s)
  {
    EvolvesReflexive(s.msg);
  }

  lemma ForwardKept(
      s: State, actor: UserId, id: MessageId, target: ChannelId, client: ClientMsgId, error: Option<Error>,
      newId: MessageId, now: nat)
    requires MessagesOk(s.ws, s.msg) && newId !in s.msg.messages.vals
    ensures Kept(s, Forward(s, actor, id, target, client, error, newId, now).state)
  {
    hide Send;
    if Find(s.msg, id).None? || target !in s.ws.channels.vals || !CanAccessChannel(s.ws, actor, Find(s.msg, id).value.channelId) {
      UnchangedKept(s);
    } else {
      var source := Find(s.msg, id).value;
      SendWithOriginKept(s, actor, ForwardInput(s, source, target, client), error, newId, now, OriginOf(source));
    }
  }

  lemma SentIsStored(s: State, actor: UserId, input: SendInput, error: Option<Error>, id: MessageId, now: nat)
    requires MessageInv(s.msg) && id !in s.msg.messages.vals
    ensures var r := Send(s, actor, input, error, id, now);
      r.outcome.Ok? ==> r.state.msg.messages.Get(r.outcome.value.id) == Some(r.outcome.value)
  {
    hide Send;
    SendStores(s, actor, input, error, id, now);
  }

  lemma WithOriginKept(s: State, sent: SendResult, origin: Origin)
    requires Kept(s, sent.state)
    requires sent.outcome.Ok? ==> sent.state.msg.messages.Get(sent.outcome.value.id) == Some(sent.outcome.value)
    ensures Kept(s, WithOrigin(sent, origin).state)
  {
    if sent.outcome.Ok? {
      var m := sent.outcome.value;
      FoundIs(sent.state.msg, m.id);
      UpdateKept(s.ws, sent.state.msg, m.(origin := Some(origin)));
      EvolvesTransitive(s.msg, sent.state.msg, Update(sent.state.msg, m.(origin := Some(origin))));
    }
  }

  lemma InvokeKept(
      s: State, w: WorkspaceId, c: ChannelId, user: UserId, command: string, args: string, id: MessageId,
      now: nat)
    requires MessagesOk(s.ws, s.msg) && id !in s.msg.messages.vals
    ensures Kept(s, InvokeCommand(s, w, c, user, command, args, id, now).state)
  {
    EvolvesReflexive(s.msg);
    if IsNormal(s.ws, c) {
      var event := BotEvent(CommandInvoked, w, c, CommandPayload(user, command, args), now);
      var bot1 := Publish(s.bot, event);
      var helper := FindHelpBot(bot1, w);
      if helper.Some? {
        CreateKept(s.ws, s.msg, HelpMessage(id, w, c, helper.value, HelpText(bot1.bots.vals[helper.value].manifest.commands), now), {});
      }
    }
  }

  lemma SendBotKept(s: State, b: BotId, input: SendInput, id: MessageId, now: nat)
    requires MessagesOk(s.ws, s.msg) && id !in s.msg.messages.vals
    ensures Kept(s, SendBotMessage(s, b, input, id, now).0)
  {
    EvolvesReflexive(s.msg);
    if input.channelId in s.ws.channels.vals && s.ws.channels.vals[input.channelId].mode == Normal {
      CreateKept(s.ws, s.msg, BotMessage(id, b, input, now), {});
    }
  }

  lemma MessageCallKept(s: State, step: Step)
    requires MessagesOk(s.ws, s.msg)
    requires Fresh(s, step.op) && !step.op.WorkspaceCall? && !step.op.BotCall?
    ensures Kept(s, Next(s, step))
  {
    var now := step.now;
    match step.op
    case SendCall(actor, input, error, newId) => SendKept(s, actor, input, error, newId, now);
    case EditCall(actor, id, text) => EditKept(s.ws, s.msg, actor, id, text, now);
    case SoftDeleteCall(actor, id) => SoftDeleteKept(s.ws, s.msg, actor, id, now);
    case ForwardCall(actor, id, target, client, error, newId) => ForwardKept(s, actor, id, target, client, error, newId, now);
    case SaveCall(actor, id) => SaveKept(s, actor, id, now);
    case ReactCall(actor, id, emoji, add) => ReactKept(s, actor, id, emoji, add, now);
    case AckReadCall(actor, id) => AckReadKept(s, actor, id, now);
    case FlushCall(channel) => FlushKept(s.ws, s.msg, channel, now);
    case CleanUpCall(before) => CleanUpKept(s.ws, s.msg, before, now);
    case InvokeCall(w, c, user, command, args, newId) => InvokeKept(s, w, c, user, command, args, newId, now);
    case SendBotCall(b, input, newId) => SendBotKept(s, b, input, newId, now);
  }

  /** Changing the workspace tables cannot break what holds of messages and bots: no channel changes mode. */
  lemma ChannelsPersistKeeps(ws: WorkspaceState, ws': WorkspaceState, msg: MessageState)
    requires ChannelsPersist(ws, ws') && MessagesOk(ws, msg)
    ensures MessagesOk(ws', msg)
  {
    forall id | id in msg.messages.vals
      ensures ContentFits(ws', msg.messages.vals[id])
    {
      assert ContentFits(ws, msg.messages.vals[id]);
    }
  }

  lemma NormalPersists(ws: WorkspaceState, ws': WorkspaceState, bot: BotState)
    requires ChannelsPersist(ws, ws') && BotsPlaced(ws, bot)
    ensures BotsPlaced(ws', bot)
  {
    forall c | IsNormal(ws, c)
      ensures IsNormal(ws', c)
    {
    }
  }

  /** Every call keeps the workspace and message tables consistent, and lets the state only evolve. */
  lemma StepKeepsCore(s: State, step: Step)
    requires Core(s) && Fresh(s, step.op)
    ensures Core(Next(s, step)) && StateEvolves(s, Next(s, step))
  {
    if step.op.WorkspaceCall? {
      ApplyKeeps(s.ws, step.op.op, step.now);
      ChannelsPersistKeeps(s.ws, Next(s, step).ws, s.msg);
      EvolvesReflexive(s.msg);
    } else if step.op.BotCall? {
      EvolvesReflexive(s.msg);
    } else {
      MessageCallKept(s, step);
    }
  }

  // ---------------------------------------------------------------- what calls publish

  /** The events a call publishes, to whichever bots match. */
  function Published(s: State, step: Step): seq<BotEvent> {
    match step.op
    case SendCall(actor, input, error, newId) => Send(s, actor, input, error, newId, step.now).published
    case ForwardCall(actor, id, target, client, error, newId) => Forward(s, actor, id, target, client, error, newId, step.now).published
    case InvokeCall(w, c, user, command, args, newId) => InvokeCommand(s, w, c, user, command, args, newId, step.now).published
    case _ => []
  }

  /** At most one event, for a normal channel and without ciphertext, published to the bots as they were. */
  ghost predicate Publishes(s: State, bot': BotState, published: seq<BotEvent>) {
    if published == [] then bot' == s.bot
    else |published| == 1 && bot' == Publish(s.bot, published[0]) && IsNormal(s.ws, published[0].channelId) && Plain(published[0])
  }

  lemma SendPublishesPlain(s: State, actor: UserId, input: SendInput, error: Option<Error>, id: MessageId, now: nat)
    ensures var r := Send(s, actor, input, error, id, now); Publishes(s, r.state.bot, r.published)
  {
    hide Admit, Publish;
    AdmittedOnly(s, actor, input, error);
  }

  lemma ForwardPublishesPlain(
      s: State, actor: UserId, id: MessageId, target: ChannelId, client: ClientMsgId, error: Option<Error>,
      newId: MessageId, now: nat)
    ensures var r := Forward(s, actor, id, target, client, error, newId, now); Publishes(s, r.state.bot, r.published)
  {
    hide Send, CanAccessChannel, Publish;
    if Find(s.msg, id).Some? && target in s.ws.channels.vals {
      SendPublishesPlain(s, actor, ForwardInput(s, Find(s.msg, id).value, target, client), error, newId, now);
    }
  }

  lemma InvokePublishesPlain(
      s: State, w: WorkspaceId, c: ChannelId, user: UserId, command: string, args: string, id: MessageId,
      now: nat)
    ensures var r := InvokeCommand(s, w, c, user, command, args, id, now); Publishes(s, r.state.bot, r.published)
  {
    hide Publish, FindHelpBot, HelpText, Create;
  }

  /** What a message call does to the bots: it publishes at most one event, and nothing else. */
  lemma StepPublishesPlain(s: State, step: Step)
    requires !step.op.WorkspaceCall? && !step.op.BotCall?
    ensures Publishes(s, Next(s, step).bot, Published(s, step))
  {
    hide Send, Forward, InvokeCommand, Create, Edit, SoftDelete, Save, React, AckRead, FlushReceipts, CleanUp, Publish;
    match step.op
    case SendCall(actor, input, error, newId) => SendPublishesPlain(s, actor, input, error, newId, step.now);
    case ForwardCall(actor, id, target, client, error, newId) => ForwardPublishesPlain(s, actor, id, target, client, error, newId, step.now);
    case InvokeCall(w, c, user, command, args, newId) => InvokePublishesPlain(s, w, c, user, command, args, newId, step.now);
    case _ =>
  }

  /** Only workspace calls change the workspace tables. */
  lemma OthersSameWorkspaces(s: State, step: Step)
    requires !step.op.WorkspaceCall?
    ensures Next(s, step).ws == s.ws
  {
    hide Publish, Create, Edit, SoftDelete, Save, React, AckRead;
    hide FlushReceipts, CleanUp, ApplyBotOp, HelpText, Admit, CanAccessChannel, FindHelpBot;
  }

  lemma FinishSameWorkspaces(s: State, actor: UserId, input: SendInput, id: MessageId, now: nat)
    ensures Finish(s, actor, input, id, now).state.ws == s.ws
  {
  }

  lemma StepKeepsWorkspaces(s: State, step: Step)
    requires WorkspaceInv(s.ws) && Fresh(s, step.op)
    ensures WorkspaceInv(Next(s, step).ws) && ChannelsPersist(s.ws, Next(s, step).ws)
  {
    if step.op.WorkspaceCall? {
      hide WorkspaceInv, ChannelsPersist, Apply, FreshIds;
      ApplyKeeps(s.ws, step.op.op, step.now);
    } else {
      hide Next, Fresh;
      OthersSameWorkspaces(s, step);
    }
  }

  /** Every call keeps bots and events out of E2E channels, and ciphertext out of the queues. */
  lemma StepKeepsBots(s: State, step: Step)
    requires WorkspaceInv(s.ws) && BotsPlaced(s.ws, s.bot) && Fresh(s, step.op)
    ensures BotsPlaced(Next(s, step).ws, Next(s, step).bot)
    ensures EventsPlain(s.bot) ==> EventsPlain(Next(s, step).bot)
  {
    hide BotsPlaced, EventsPlain, Publish, Published;
    if step.op.WorkspaceCall? {
      ApplyKeeps(s.ws, step.op.op, step.now);
      NormalPersists(s.ws, Next(s, step).ws, s.bot);
    } else if step.op.BotCall? {
      ApplyBotOpKeeps(s, step.op.botOp);
    } else {
      MessageCallKeepsBots(s, step);
    }
  }

  lemma MessageCallKeepsBots(s: State, step: Step)
    requires BotsPlaced(s.ws, s.bot) && !step.op.WorkspaceCall? && !step.op.BotCall?
    ensures BotsPlaced(Next(s, step).ws, Next(s, step).bot)
    ensures EventsPlain(s.bot) ==> EventsPlain(Next(s, step).bot)
  {
    hide BotsPlaced, EventsPlain, Publish, Published, Next;
    OthersSameWorkspaces(s, step);
    StepPublishesPlain(s, step);
    var published := Published(s, step);
    if published != [] {
      PublishPlaced(s.ws, s.bot, published[0]);
      PublishPlainIff(s.bot, published[0]);
    }
  }

  /** Every call keeps the invariant, and lets the state only evolve. */
  lemma {:induction false} StepKeeps(s: State, step: Step)
    requires Inv(s) && Fresh(s, step.op)
    ensures Inv(Next(s, step)) && StateEvolves(s, Next(s, step))
  {
    hide WorkspaceInv, MessagesOk, BotsPlaced, EventsPlain, StateEvolves, Next, Fresh;
    StepKeepsCore(s, step);
    StepKeepsBots(s, step);
  }

  lemma StateEvolvesReflexive(s: State)
    ensures StateEvolves(s, s)
  {
  }

  lemma StateEvolvesTransitive(a: State, b: State, c: State)
    requires StateEvolves(a, b) && StateEvolves(b, c)
    ensures StateEvolves(a, c)
  {
    EvolvesTransitive(a.msg, b.msg, c.msg);
  }

  /** Every run keeps the invariant, never turns the clock back, and lets the state only evolve. */
  lemma {:induction false} RunKeeps(s: State, clock: nat, run: seq<Step>)
    requires Inv(s) && Legal(s, clock, run)
    ensures Inv(Run(s, run)) && StateEvolves(s, Run(s, run)) && clock <= Clock(clock, run)
    decreases |run|
  {
    hide Inv, Next, Fresh, StateEvolves;
    if run != [] {
      StepKeeps(s, run[0]);
      var s1 := Next(s, run[0]);
      RunKeeps(s1, run[0].now, run[1..]);
      StateEvolvesTransitive(s, s1, Run(s1, run[1..]));
      assert Clock(clock, run) == Clock(run[0].now, run[1..]);
    } else {
      StateEvolvesReflexive(s);
    }
  }
}
