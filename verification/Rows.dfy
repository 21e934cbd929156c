/**
 What every call keeps of the message rows on its own account, without relying on the client-id index: each row stays
 under its id, with its key, and fits its channel.
 */
module Rows {
  import opened JsCollections
  import opened Ids
  import opened Domain
  import opened Workspaces
  import opened MessageStore
  import opened Bots
  import opened Messages
  import opened Runs

  ghost predicate KeyedById(ms: MessageTable) {
    forall id :: id in ms.vals ==> ms.vals[id].id == id
  }

  ghost predicate KeysStay(ms: MessageTable, ms': MessageTable) {
    forall id :: id in ms.vals ==> id in ms'.vals && ClientKey(ms'.vals[id]) == ClientKey(ms.vals[id])
  }

  ghost predicate RowsOk(ws: WorkspaceState, ms: MessageTable) {
    KeyedById(ms) && ContentsFit(ws, ms)
  }

  ghost predicate RowsStay(ws: WorkspaceState, ms: MessageTable, ms': MessageTable) {
    RowsOk(ws, ms') && KeysStay(ms, ms')
  }

  lemma IndexedRowsOk(s: State)
    requires Core(s)
    ensures RowsOk(s.ws, s.msg.messages)
  {
    forall id | id in s.msg.messages.vals
      ensures s.msg.messages.vals[id].id == id
    {
      assert Indexed(s.msg.byClientId, s.msg.messages.vals[id], id);
    }
  }

  lemma OverwriteRows(ws: WorkspaceState, ms: MessageTable, m: Message)
    requires RowsOk(ws, ms) && ContentFits(ws, m) && (m.id in ms.vals ==> ClientKey(ms.vals[m.id]) == ClientKey(m))
    ensures RowsStay(ws, ms, ms.Set(m.id, m))
  {
    var ms' := ms.Set(m.id, m);
    forall id | id in ms'.vals
      ensures ContentFits(ws, ms'.vals[id])
    {
      assert id != m.id ==> ContentFits(ws, ms.vals[id]);
    }
  }

  lemma SameRows(ws: WorkspaceState, ms: MessageTable)
    requires RowsOk(ws, ms)
    ensures RowsStay(ws, ms, ms)
  {
  }

  lemma StayTransitive(ws: WorkspaceState, a: MessageTable, b: MessageTable, c: MessageTable)
    requires RowsStay(ws, a, b) && RowsStay(ws, b, c)
    ensures RowsStay(ws, a, c)
  {
  }

  lemma StoredRow(ws: WorkspaceState, ms: MessageTable, id: MessageId)
    requires RowsOk(ws, ms) && id in ms.vals
    ensures ms.vals[id].id == id && ContentFits(ws, ms.vals[id])
  {
  }

  lemma KnownRow(ws: WorkspaceState, msg: MessageState, sender: UserId, c: ClientMsgId)
    requires RowsOk(ws, msg.messages) && FindByClient(msg, sender, c).Some?
    ensures var known := FindByClient(msg, sender, c).value; msg.messages.Get(known.id) == Some(known)
  {
    StoredRow(ws, msg.messages, msg.byClientId[(sender, c)]);
  }

  lemma CreateRows(ws: WorkspaceState, msg: MessageState, m: Message, files: set<FileId>)
    requires RowsOk(ws, msg.messages) && m.id !in msg.messages.vals && ContentFits(ws, m)
    ensures var (msg', created) := Create(msg, m, files);
      RowsStay(ws, msg.messages, msg'.messages) && msg'.messages.Get(created.id) == Some(created)
  {
    hide RowsOk, RowsStay, ContentFits;
    OverwriteRows(ws, msg.messages, m);
    SameRows(ws, msg.messages);
    if FindByClient(msg, m.senderId, m.clientMsgId).Some? {
      KnownRow(ws, msg, m.senderId, m.clientMsgId);
    }
  }

  lemma SentFits(ws: WorkspaceState, actor: UserId, input: SendInput, id: MessageId, now: nat)
    requires InputFits(ws, input)
    ensures ContentFits(ws, SentMessage(id, actor, input, now))
  {
  }

  lemma SendRows(s: State, actor: UserId, input: SendInput, error: Option<Error>, id: MessageId, now: nat)
    requires RowsOk(s.ws, s.msg.messages) && id !in s.msg.messages.vals
    ensures var r := Send(s, actor, input, error, id, now);
      && RowsStay(s.ws, s.msg.messages, r.state.msg.messages)
      && (r.outcome.Ok? ==> r.state.msg.messages.Get(r.outcome.value.id) == Some(r.outcome.value))
  {
    hide Admit, Publish, Create, RowsStay, RowsOk, ContentFits;
    SameRows(s.ws, s.msg.messages);
    AdmittedOnly(s, actor, input, error);
    match Admit(s, actor, input, error)
    case Refused(_) =>
    case Known(_) => KnownRow(s.ws, s.msg, actor, input.clientMsgId);
    case Admitted =>
      SentFits(s.ws, actor, input, id, now);
      CreateRows(s.ws, s.msg, SentMessage(id, actor, input, now), set f | f in Attachments(input.content));
  }

  lemma OriginRows(ws: WorkspaceState, ms: MessageTable, sent: SendResult, origin: Origin)
    requires RowsStay(ws, ms, sent.state.msg.messages)
    requires sent.outcome.Ok? ==> sent.state.msg.messages.Get(sent.outcome.value.id) == Some(sent.outcome.value)
    ensures RowsStay(ws, ms, WithOrigin(sent, origin).state.msg.messages)
  {
    if sent.outcome.Ok? {
      StoredRow(ws, sent.state.msg.messages, sent.outcome.value.id);
      OverwriteRows(ws, sent.state.msg.messages, sent.outcome.value.(origin := Some(origin)));
      StayTransitive(ws, ms, sent.state.msg.messages, WithOrigin(sent, origin).state.msg.messages);
    }
  }

  lemma ForwardRows(
      s: State, actor: UserId, id: MessageId, target: ChannelId, client: ClientMsgId, error: Option<Error>,
      newId: MessageId, now: nat)
    requires RowsOk(s.ws, s.msg.messages) && newId !in s.msg.messages.vals
    ensures RowsStay(s.ws, s.msg.messages, Forward(s, actor, id, target, client, error, newId, now).state.msg.messages)
  {
    hide Send, CanAccessChannel, RowsStay, RowsOk, WithOrigin;
    SameRows(s.ws, s.msg.messages);
    if Find(s.msg, id).Some? && target in s.ws.channels.vals {
      var source := Find(s.msg, id).value;
      var input := ForwardInput(s, source, target, client);
      SendRows(s, actor, input, error, newId, now);
      OriginRows(s.ws, s.msg.messages, Send(s, actor, input, error, newId, now), OriginOf(source));
    }
  }

  lemma InvokeRows(
      s: State, w: WorkspaceId, c: ChannelId, user: UserId, command: string, args: string, id: MessageId, now: nat)
    requires RowsOk(s.ws, s.msg.messages) && id !in s.msg.messages.vals
    ensures RowsStay(s.ws, s.msg.messages, InvokeCommand(s, w, c, user, command, args, id, now).state.msg.messages)
  {
    hide Publish, HelpText, Create, RowsStay, RowsOk;
    SameRows(s.ws, s.msg.messages);
    var event := BotEvent(CommandInvoked, w, c, CommandPayload(user, command, args), now);
    var bot1 := Publish(s.bot, event);
    var helper := FindHelpBot(bot1, w);
    if helper.Some? && IsNormal(s.ws, c) {
      CreateRows(
        s.ws, s.msg, HelpMessage(id, w, c, helper.value, HelpText(bot1.bots.vals[helper.value].manifest.commands), now), {});
    }
  }

  lemma SendBotRows(s: State, b: BotId, input: SendInput, id: MessageId, now: nat)
    requires RowsOk(s.ws, s.msg.messages) && id !in s.msg.messages.vals
    ensures RowsStay(s.ws, s.msg.messages, SendBotMessage(s, b, input, id, now).0.msg.messages)
  {
    hide Create, RowsStay, RowsOk;
    SameRows(s.ws, s.msg.messages);
    if IsNormal(s.ws, input.channelId) {
      CreateRows(s.ws, s.msg, BotMessage(id, b, input, now), {});
    }
  }

  /** Calls that overwrite the one row they found. */
  lemma UpdateRows(s: State, step: Step)
    requires RowsOk(s.ws, s.msg.messages) && (step.op.EditCall? || step.op.SoftDeleteCall? || step.op.AckReadCall?)
    ensures RowsStay(s.ws, s.msg.messages, Next(s, step).msg.messages)
  {
    hide CanAccessChannel, RowsStay, RowsOk;
    SameRows(s.ws, s.msg.messages);
    if Find(s.msg, step.op.id).Some? {
      StoredRow(s.ws, s.msg.messages, step.op.id);
      var m := Find(s.msg, step.op.id).value;
      if m.content.Text? && step.op.EditCall? {
        OverwriteRows(s.ws, s.msg.messages, m.(content := m.content.(text := step.op.text), editedAt := Some(step.now)));
      }
      OverwriteRows(s.ws, s.msg.messages, Entomb(m, Deleted, step.now));
      OverwriteRows(s.ws, s.msg.messages, Acked(m, step.now));
    }
  }

  lemma CleanUpRows(ws: WorkspaceState, msg: MessageState, before: nat, now: nat)
    requires RowsOk(ws, msg.messages)
    ensures RowsStay(ws, msg.messages, CleanUp(msg, before, now).messages)
  {
    var ms' := CleanUp(msg, before, now).messages;
    forall id | id in ms'.vals
      ensures ContentFits(ws, ms'.vals[id])
    {
      assert ContentFits(ws, msg.messages.vals[id]);
    }
  }

  lemma RowsMoveAlong(ws: WorkspaceState, ws': WorkspaceState, ms: MessageTable)
    requires RowsOk(ws, ms) && ChannelsPersist(ws, ws')
    ensures RowsStay(ws', ms, ms)
  {
    forall id | id in ms.vals
      ensures ContentFits(ws', ms.vals[id])
    {
      assert ContentFits(ws, ms.vals[id]);
    }
  }

  /** No call removes a row, changes its key or makes it unfit for its channel, even when two rows have the same key. */
  lemma StepRows(s: State, step: Step)
    requires WorkspaceInv(s.ws) && RowsOk(s.ws, s.msg.messages) && Fresh(s, step.op)
    ensures RowsStay(Next(s, step).ws, s.msg.messages, Next(s, step).msg.messages)
  {
    hide Send, Forward, InvokeCommand, SendBotMessage, Apply, ApplyBotOp, Edit;
    hide SoftDelete, AckRead, CleanUp, RowsStay, RowsOk, WorkspaceInv;
    SameRows(s.ws, s.msg.messages);
    StepKeepsWorkspaces(s, step);
    if !step.op.WorkspaceCall? {
      OthersSameWorkspaces(s, step);
    }
    match step.op
    case SendCall(actor, input, error, newId) => SendRows(s, actor, input, error, newId, step.now);
    case ForwardCall(actor, id, target, client, error, newId) => ForwardRows(s, actor, id, target, client, error, newId, step.now);
    case InvokeCall(w, c, user, command, args, newId) => InvokeRows(s, w, c, user, command, args, newId, step.now);
    case SendBotCall(b, input, newId) => SendBotRows(s, b, input, newId, step.now);
    case EditCall(_, _, _) => UpdateRows(s, step);
    case SoftDeleteCall(_, _) => UpdateRows(s, step);
    case AckReadCall(_, _) => UpdateRows(s, step);
    case CleanUpCall(before) => CleanUpRows(s.ws, s.msg, before, step.now);
    case WorkspaceCall(_) => RowsMoveAlong(s.ws, Next(s, step).ws, s.msg.messages);
    case _ =>
  }
}
