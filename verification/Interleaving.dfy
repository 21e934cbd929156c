/**
 The services with their awaits.  A send is two steps, everything up to the attachments and then create and publish;
 an edit, deletion, acknowledgement, expiry or forward finds a message in one step and writes its changed copy back in
 a later one; a workspace call makes its checks, and finds its channel, in one step and goes to the store in a later one.
 Between the two anything may happen: other halves, and whole calls.
 */
module Interleaving {
  import opened JsCollections
  import opened Ids
  import opened Domain
  import opened Workspaces
  import opened MessageStore
  import opened Bots
  import opened Messages
  import opened Runs

  type CallId = nat

  datatype Change =
    | NewText(text: string)
    | Entombing(reason: TombstoneReason)
    | MarkingRead(reader: UserId)
    | Originating(origin: Origin)

  /** What a call holds between its halves; a forward's send goes on to record the origin. */
  datatype InFlight =
    | Sending(actor: UserId, input: SendInput, origin: Option<Origin>)
    | Writing(copy: Message, change: Change)
    | Granted(wop: WorkspaceOp, found: Option<Channel>)

  /** `begun` and `born` only record: which calls have begun, and what each message first held. */
  datatype World = World(s: State, inFlight: map<CallId, InFlight>, begun: set<CallId>, born: map<MessageId, Content>)

  datatype Move =
    | Whole(op: Op)
    | BeginSend(call: CallId, actor: UserId, input: SendInput, attachmentError: Option<Error>)
    | BeginForward(
        call: CallId, actor: UserId, id: MessageId, target: ChannelId, client: ClientMsgId, attachmentError: Option<Error>)
    | BeginEdit(call: CallId, actor: UserId, id: MessageId, text: string)
    | BeginDelete(call: CallId, actor: UserId, id: MessageId)
    | BeginAck(call: CallId, actor: UserId, id: MessageId)
    | BeginExpire(call: CallId, id: MessageId, before: nat)
    | BeginWorkspace(call: CallId, wop: WorkspaceOp)
    | FinishSend(call: CallId, newId: MessageId)
    | FinishWrite(call: CallId)
    | FinishWorkspace(call: CallId)

  datatype TimedMove = TimedMove(move: Move, now: nat)

  // ---------------------------------------------------------------- first halves

  function AfterAdmission(admission: Admission, actor: UserId, input: SendInput, origin: Option<Origin>): Option<InFlight> {
    match admission
    case Refused(_) => None
    case Known(existing) => if origin.Some? then Some(Writing(existing, Originating(origin.value))) else None
    case Admitted => Some(Sending(actor, input, origin))
  }

  function HeldForward(
      s: State, actor: UserId, id: MessageId, target: ChannelId, client: ClientMsgId, error: Option<Error>): Option<InFlight>
  {
    if Find(s.msg, id).None? || target !in s.ws.channels.vals then None
    else
      var source := Find(s.msg, id).value;
      var input := ForwardInput(s, source, target, client);
      if !CanAccessChannel(s.ws, actor, source.channelId) then None
      else AfterAdmission(Admit(s, actor, input, error), actor, input, Some(OriginOf(source)))
  }

  /** What a call goes on to write to the message it found, if it goes on at all. */
  function HeldChange(s: State, m: Message, move: Move): Option<Change> {
    match move
    case BeginEdit(_, actor, _, text) => if m.senderId == actor && m.content.Text? then Some(NewText(text)) else None
    case BeginDelete(_, actor, _) => if m.senderId == actor then Some(Entombing(Deleted)) else None
    case BeginAck(_, actor, _) => if CanAccessChannel(s.ws, actor, m.channelId) then Some(MarkingRead(actor)) else None
    case BeginExpire(_, _, before) => if IsExpired(m, before) then Some(Entombing(Expired)) else None
    case _ => None
  }

  predicate FindsMessage(move: Move) {
    move.BeginEdit? || move.BeginDelete? || move.BeginAck? || move.BeginExpire?
  }

  /** What the call holds after its first half; nothing when it has been answered already. */
  function Held(s: State, move: Move): Option<InFlight> {
    if FindsMessage(move) then
      match Find(s.msg, move.id)
      case None => None
      case Some(m) =>
        var change := HeldChange(s, m, move);
        if change.Some? then Some(Writing(m, change.value)) else None
    else
      match move
      case BeginSend(_, actor, input, error) => AfterAdmission(Admit(s, actor, input, error), actor, input, None)
      case BeginForward(_, actor, id, target, client, error) => HeldForward(s, actor, id, target, client, error)
      case BeginWorkspace(_, wop) => if Grants(s.ws, wop) then Some(Granted(wop, FoundBy(s.ws, wop))) else None
      case _ => None
  }

  // ---------------------------------------------------------------- second halves

  function Written(copy: Message, change: Change, now: nat): Message {
    match change
    case NewText(text) => if copy.content.Text? then copy.(content := copy.content.(text := text), editedAt := Some(now)) else copy
    case Entombing(reason) => Entomb(copy, reason, now)
    case MarkingRead(_) => Acked(copy, now)
    case Originating(origin) => copy.(origin := Some(origin))
  }

  /** The copy that was found earlier overwrites whatever the row holds by now. */
  function Wrote(msg: MessageState, copy: Message, change: Change, now: nat): MessageState {
    var m := Written(copy, change, now);
    match change
    case NewText(_) => WithEvent(Update(msg, m), MessageUpdated(m, now))
    case Entombing(reason) => if reason == Deleted then WithEvent(Update(msg, m), MessageDeleted(m, now)) else Update(msg, m)
    case MarkingRead(reader) => Update(RecordReceipt(msg, copy.senderId, Receipt(copy.id, reader)), m)
    case Originating(_) => Update(msg, m)
  }

  // ---------------------------------------------------------------- moves

  predicate Holds(w: World, call: CallId) {
    call in w.inFlight
  }

  predicate Enabled(w: World, move: Move) {
    match move
    case Whole(op) => Fresh(w.s, op)
    case FinishSend(call, newId) => Holds(w, call) && w.inFlight[call].Sending? && newId !in w.s.msg.messages.vals
    case FinishWrite(call) => Holds(w, call) && w.inFlight[call].Writing?
    case FinishWorkspace(call) => Holds(w, call) && w.inFlight[call].Granted? && FreshIds(w.s.ws, w.inFlight[call].wop)
    case _ => move.call !in w.begun
  }

  function Finished(w: World, call: CallId, newId: MessageId, now: nat): SendResult
    requires Holds(w, call) && w.inFlight[call].Sending?
  {
    Finish(w.s, w.inFlight[call].actor, w.inFlight[call].input, newId, now)
  }

  function MovedState(w: World, step: TimedMove): State
    requires Enabled(w, step.move)
  {
    match step.move
    case Whole(op) => Next(w.s, Step(op, step.now))
    case FinishSend(call, newId) => Finished(w, call, newId, step.now).state
    case FinishWrite(call) => w.s.(msg := Wrote(w.s.msg, w.inFlight[call].copy, w.inFlight[call].change, step.now))
    case FinishWorkspace(call) => w.s.(ws := Settle(w.s.ws, w.inFlight[call].wop, w.inFlight[call].found, step.now))
    case _ => w.s
  }

  function MovedCalls(w: World, step: TimedMove): map<CallId, InFlight>
    requires Enabled(w, step.move)
  {
    match step.move
    case Whole(_) => w.inFlight
    case FinishSend(call, newId) =>
      var origin := w.inFlight[call].origin;
      var created := Finished(w, call, newId, step.now).outcome.value;
      if origin.Some? then w.inFlight[call := Writing(created, Originating(origin.value))] else w.inFlight - {call}
    case FinishWrite(call) => w.inFlight - {call}
    case FinishWorkspace(call) => w.inFlight - {call}
    case _ =>
      var held := Held(w.s, step.move);
      if held.Some? then w.inFlight[step.move.call := held.value] else w.inFlight
  }

  function Born(born: map<MessageId, Content>, ms: MessageTable): map<MessageId, Content> {
    map id | id in ms.vals :: if id in born then born[id] else ms.vals[id].content
  }

  function Moved(w: World, step: TimedMove): World {
    if !Enabled(w, step.move) then w
    else
      var s' := MovedState(w, step);
      World(s', MovedCalls(w, step), if step.move.Whole? then w.begun else w.begun + {step.move.call}, Born(w.born, s'.msg.messages))
  }

  ghost predicate Possible(w: World, clock: nat, moves: seq<TimedMove>)
    decreases |moves|
  {
    moves == [] || (clock <= moves[0].now && Enabled(w, moves[0].move) && Possible(Moved(w, moves[0]), moves[0].now, moves[1..]))
  }

  ghost function After(w: World, moves: seq<TimedMove>): World
    decreases |moves|
  {
    if moves == [] then w else After(Moved(w, moves[0]), moves[1..])
  }

  function ClockAfter(clock: nat, moves: seq<TimedMove>): nat {
    if moves == [] then clock else moves[|moves| - 1].now
  }

  const Start: World := World(InitialState, map[], {}, map[])

  // ---------------------------------------------------------------- both halves at once are the whole call

  /** With nothing in between, the halves of an edit, deletion or acknowledgement are the whole call. */
  lemma WriteHalvesMakeWhole(s: State, actor: UserId, id: MessageId, text: string, call: CallId, now: nat)
    requires id in s.msg.messages.vals ==> s.msg.messages.vals[id].id == id
    ensures Edit(s.msg, actor, id, text, now).0 == BothHalves(s, BeginEdit(call, actor, id, text), now)
    ensures SoftDelete(s.msg, actor, id, now).0 == BothHalves(s, BeginDelete(call, actor, id), now)
    ensures AckRead(s, actor, id, now).0 == BothHalves(s, BeginAck(call, actor, id), now)
  {
    hide CanAccessChannel, Entomb;
  }

  function BothHalves(s: State, move: Move, now: nat): MessageState {
    var held := Held(s, move);
    if held.Some? && held.value.Writing? then Wrote(s.msg, held.value.copy, held.value.change, now) else s.msg
  }

  /** The halves of an expiry do to its message what the cleanup does, and to no other anything. */
  lemma ExpireHalvesCleanUp(s: State, id: MessageId, before: nat, call: CallId, now: nat)
    requires id in s.msg.messages.vals ==> s.msg.messages.vals[id].id == id
    ensures var msg' := BothHalves(s, BeginExpire(call, id, before), now);
      && msg'.messages.Get(id) == CleanUp(s.msg, before, now).messages.Get(id)
      && (forall x :: x != id ==> msg'.messages.Get(x) == s.msg.messages.Get(x)) && msg' == s.msg.(messages := msg'.messages)
  {
    hide CanAccessChannel;
  }

  /** And the halves of a workspace call. */
  lemma WorkspaceHalvesMakeWhole(s: State, op: WorkspaceOp, now: nat, call: CallId)
    ensures s.(ws := Apply(s.ws, op, now)) ==
      match Held(s, BeginWorkspace(call, op))
      case None => s
      case Some(Granted(wop, found)) => s.(ws := Settle(s.ws, wop, found, now))
  {
    hide Apply, Grants, Settle;
    HalvesMakeWhole(s.ws, op, now);
  }

  /** The halves of a send, and the three parts of a forward, likewise. */
  lemma SendHalvesMakeWhole(
      s: State, actor: UserId, input: SendInput, error: Option<Error>, newId: MessageId, now: nat, call: CallId)
    ensures Send(s, actor, input, error, newId, now).state ==
      if Held(s, BeginSend(call, actor, input, error)).Some? then Finish(s, actor, input, newId, now).state else s
  {
    hide Admit, Finish;
  }

  lemma ForwardPartsMakeWhole(
      s: State, actor: UserId, id: MessageId, target: ChannelId, client: ClientMsgId, error: Option<Error>,
      newId: MessageId, now: nat, call: CallId)
    ensures Forward(s, actor, id, target, client, error, newId, now).state ==
      match Held(s, BeginForward(call, actor, id, target, client, error))
      case None => s
      case Some(Writing(copy, change)) => s.(msg := Wrote(s.msg, copy, change, now))
      case Some(Sending(sender, input, origin)) =>
        var sent := Finish(s, sender, input, newId, now);
        if origin.Some? then sent.state.(msg := Wrote(sent.state.msg, sent.outcome.value, Originating(origin.value), now)) else sent.state
  {
    hide Admit, CanAccessChannel, Create, Publish, OriginOf;
  }

  // ---------------------------------------------------------------- the invariant

  /** Each row holds what it was born with, or what that may evolve into. */
  ghost predicate BornFits(born: map<MessageId, Content>, ms: MessageTable) {
    born.Keys == ms.vals.Keys && forall id :: id in ms.vals ==> ContentEvolves(born[id], ms.vals[id].content)
  }

  ghost predicate CopyFits(ws: WorkspaceState, ms: MessageTable, born: map<MessageId, Content>, copy: Message) {
    && copy.id in ms.vals && SameIdentity(ms.vals[copy.id], copy)
    && copy.id in born && ContentEvolves(born[copy.id], copy.content)
    && (copy.status == StatusDeleted ==> copy.content.Tombstone?)
    && ContentFits(ws, copy)
  }

  ghost predicate Fits(s: State, born: map<MessageId, Content>, held: InFlight) {
    match held
    case Sending(_, input, _) => InputFits(s.ws, input)
    case Writing(copy, change) => CopyFits(s.ws, s.msg.messages, born, copy) && (change.NewText? ==> copy.content.Text?)
    case Granted(wop, found) => GrantFits(s.ws, wop, found)
  }

  ghost predicate CallsFit(w: World) {
    forall call :: call in w.inFlight ==> call in w.begun && Fits(w.s, w.born, w.inFlight[call])
  }

  ghost predicate WorldInv(w: World) {
    && Core(w.s) && BotsPlaced(w.s.ws, w.s.bot)
    && BornFits(w.born, w.s.msg.messages)
    && CallsFit(w)
  }

  /** Rows stay, with their identity. */
  ghost predicate RowsPersist(ms: MessageTable, ms': MessageTable) {
    forall id :: id in ms.vals ==> id in ms'.vals && SameIdentity(ms.vals[id], ms'.vals[id])
  }

  ghost predicate StatePersists(s: State, s': State) {
    && ChannelsPersist(s.ws, s'.ws) && RowsPersist(s.msg.messages, s'.msg.messages)
    && IndexGrows(s.msg.byClientId, s'.msg.byClientId)
  }

  lemma EvolvesPersists(msg: MessageState, msg': MessageState)
    requires Evolves(msg, msg')
    ensures RowsPersist(msg.messages, msg'.messages) && IndexGrows(msg.byClientId, msg'.byClientId)
  {
    forall id | id in msg.messages.vals
      ensures id in msg'.messages.vals && SameIdentity(msg.messages.vals[id], msg'.messages.vals[id])
    {
      assert MessageEvolves(msg.messages.vals[id], msg'.messages.vals[id]);
    }
  }

  lemma CopyStillFits(
      ws: WorkspaceState, ms: MessageTable, born: map<MessageId, Content>,
      ws': WorkspaceState, ms': MessageTable, copy: Message)
    requires CopyFits(ws, ms, born, copy) && ChannelsPersist(ws, ws') && RowsPersist(ms, ms')
    ensures CopyFits(ws', ms', Born(born, ms'), copy)
  {
    hide ContentEvolves;
    assert SameIdentity(ms.vals[copy.id], ms'.vals[copy.id]);
  }

  lemma StillFits(s: State, born: map<MessageId, Content>, s': State, held: InFlight)
    requires Fits(s, born, held) && StatePersists(s, s')
    ensures Fits(s', Born(born, s'.msg.messages), held)
  {
    hide CopyFits, RowsPersist, IndexGrows;
    match held
    case Sending(_, input, _) =>
    case Writing(copy, _) => CopyStillFits(s.ws, s.msg.messages, born, s'.ws, s'.msg.messages, copy);
    case Granted(wop, found) => GrantStillFits(s.ws, s'.ws, wop, found);
  }

  /** The stored row itself is a fitting copy. */
  lemma FoundFits(s: State, born: map<MessageId, Content>, id: MessageId)
    requires Core(s) && BornFits(born, s.msg.messages) && Find(s.msg, id).Some?
    ensures Find(s.msg, id).value.id == id && CopyFits(s.ws, s.msg.messages, born, Find(s.msg, id).value)
  {
    FoundIs(s.msg, id);
    assert ContentFits(s.ws, s.msg.messages.vals[id]);
  }

  lemma AdmissionFits(
      s: State, born: map<MessageId, Content>, actor: UserId, input: SendInput, error: Option<Error>, origin: Option<Origin>)
    requires Core(s) && BornFits(born, s.msg.messages)
    ensures var held := AfterAdmission(Admit(s, actor, input, error), actor, input, origin);
      held.Some? ==> Fits(s, born, held.value)
  {
    hide Admit, InputFits, CopyFits, BornFits;
    AdmissionIs(s, actor, input, error);
    var admission := Admit(s, actor, input, error);
    if admission.Known? {
      KnownIsStored(s.msg, (actor, input.clientMsgId));
      FoundFits(s, born, admission.existing.id);
    }
  }

  lemma HeldFits(s: State, born: map<MessageId, Content>, move: Move)
    requires Core(s) && BornFits(born, s.msg.messages)
    ensures Held(s, move).Some? ==> Fits(s, born, Held(s, move).value)
  {
    hide Core, BornFits, CopyFits, Admit, InputFits, CanAccessChannel, IsExpired, Grants, GrantFits, FoundBy;
    if FindsMessage(move) {
      if Find(s.msg, move.id).Some? {
        FoundFits(s, born, move.id);
      }
    } else if move.BeginSend? {
      AdmissionFits(s, born, move.actor, move.input, move.attachmentError, None);
    } else if move.BeginForward? && Find(s.msg, move.id).Some? && move.target in s.ws.channels.vals {
      var source := Find(s.msg, move.id).value;
      AdmissionFits(s, born, move.actor, ForwardInput(s, source, move.target, move.client), move.attachmentError, Some(OriginOf(source)));
    } else if move.BeginWorkspace? && Grants(s.ws, move.wop) {
      GrantIsFit(s, move.wop);
    }
  }

  lemma GrantIsFit(s: State, wop: WorkspaceOp)
    requires Core(s) && Grants(s.ws, wop)
    ensures GrantFits(s.ws, wop, FoundBy(s.ws, wop))
  {
    GrantedFits(s.ws, wop);
  }

  lemma WrittenEvolves(copy: Message, change: Change, now: nat)
    requires copy.status == StatusDeleted ==> copy.content.Tombstone?
    ensures var m := Written(copy, change, now);
      && SameIdentity(copy, m) && ContentEvolves(copy.content, m.content)
      && (m.status == StatusDeleted ==> m.content.Tombstone?)
  {
  }

  lemma WrittenFits(
      ws: WorkspaceState, ms: MessageTable, born: map<MessageId, Content>, copy: Message, change: Change,
      now: nat)
    requires CopyFits(ws, ms, born, copy)
    ensures CopyFits(ws, ms, born, Written(copy, change, now))
  {
    hide Written;
    WrittenEvolves(copy, change, now);
  }

  /** What a write changes besides the row: the receipts, as an acknowledgement does, and the event log. */
  lemma WroteIs(msg: MessageState, copy: Message, change: Change, now: nat)
    ensures var msg' := Wrote(msg, copy, change, now);
      var receipted := if change.MarkingRead? then RecordReceipt(msg, copy.senderId, Receipt(copy.id, change.reader)) else msg;
      msg' == Update(receipted, Written(copy, change, now)).(events := msg'.events)
  {
    hide Written;
  }

  /** Writing a fitting copy keeps every table consistent, whatever the row holds by now. */
  lemma WroteKeeps(s: State, born: map<MessageId, Content>, copy: Message, change: Change, now: nat)
    requires Core(s) && BornFits(born, s.msg.messages) && CopyFits(s.ws, s.msg.messages, born, copy)
    ensures var s' := s.(msg := Wrote(s.msg, copy, change, now));
      && Core(s') && StatePersists(s, s') && BornFits(Born(born, s'.msg.messages), s'.msg.messages)
      && s'.msg.messages == s.msg.messages.Set(copy.id, Written(copy, change, now))
  {
    hide Written, Wrote, WorkspaceInv, MessageInv, ContentsFit, ContentFits, ContentEvolves, BornFits, RowsPersist;
    var m := Written(copy, change, now);
    var receipted := if change.MarkingRead? then RecordReceipt(s.msg, copy.senderId, Receipt(copy.id, change.reader)) else s.msg;
    if change.MarkingRead? {
      RecordReceiptKept(s.ws, s.msg, copy.senderId, Receipt(copy.id, change.reader));
    }
    WroteIs(s.msg, copy, change, now);
    WrittenFits(s.ws, s.msg.messages, born, copy, change, now);
    WrittenEvolves(copy, change, now);
    OverwriteKeeps(s.ws, receipted, born, m);
    EventsAreFree(s.ws, Update(receipted, m), Wrote(s.msg, copy, change, now).events);
  }

  lemma EventsAreFree(ws: WorkspaceState, msg: MessageState, events: seq<MessageEvent>)
    requires MessagesOk(ws, msg)
    ensures MessagesOk(ws, msg.(events := events))
  {
  }

  lemma OverwriteKeeps(ws: WorkspaceState, msg: MessageState, born: map<MessageId, Content>, m: Message)
    requires MessagesOk(ws, msg) && BornFits(born, msg.messages) && CopyFits(ws, msg.messages, born, m)
    ensures var msg' := Update(msg, m);
      MessagesOk(ws, msg') && RowsPersist(msg.messages, msg'.messages) && BornFits(Born(born, msg'.messages), msg'.messages)
  {
    hide MessageInv, SameIdentity, ContentEvolves;
    UpdateKeeps(msg, m);
    OverwritePersists(msg.messages, born, m);
    var ms' := Update(msg, m).messages;
    forall id | id in ms'.vals
      ensures ContentFits(ws, ms'.vals[id])
    {
      assert id != m.id ==> ContentFits(ws, msg.messages.vals[id]);
    }
  }

  lemma OverwritePersists(ms: MessageTable, born: map<MessageId, Content>, m: Message)
    requires BornFits(born, ms) && m.id in ms.vals && SameIdentity(ms.vals[m.id], m) && ContentEvolves(born[m.id], m.content)
    ensures RowsPersist(ms, ms.Set(m.id, m)) && BornFits(Born(born, ms.Set(m.id, m)), ms.Set(m.id, m))
  {
    hide ContentEvolves;
    var ms' := ms.Set(m.id, m);
    assert Born(born, ms').Keys == ms'.vals.Keys;
  }

  /** When rows evolve and new ones are only added, every row still holds what it was born with, evolved. */
  lemma EvolvedFits(born: map<MessageId, Content>, ms: MessageTable, ms': MessageTable)
    requires BornFits(born, ms) && AllEvolve(ms, ms')
    ensures BornFits(Born(born, ms'), ms')
  {
    var born' := Born(born, ms');
    assert born'.Keys == ms'.vals.Keys;
    forall id | id in ms'.vals
      ensures ContentEvolves(born'[id], ms'.vals[id].content)
    {
      if id in ms.vals {
        assert MessageEvolves(ms.vals[id], ms'.vals[id]);
      }
    }
  }

  lemma WholeKeeps(w: World, op: Op, now: nat)
    requires WorldInv(w) && Fresh(w.s, op)
    ensures var s' := Next(w.s, Step(op, now));
      && Core(s') && BotsPlaced(s'.ws, s'.bot) && StatePersists(w.s, s') && BornFits(Born(w.born, s'.msg.messages), s'.msg.messages)
  {
    hide WorkspaceInv, MessagesOk, BotsPlaced, BornFits, CallsFit, Next, Fresh, RowsPersist, IndexGrows, AllEvolve;
    StepKeepsCore(w.s, Step(op, now));
    StepKeepsBots(w.s, Step(op, now));
    var s' := Next(w.s, Step(op, now));
    EvolvesPersists(w.s.msg, s'.msg);
    EvolvedFits(w.born, w.s.msg.messages, s'.msg.messages);
  }

  lemma FinishKeeps(s: State, born: map<MessageId, Content>, actor: UserId, input: SendInput, id: MessageId, now: nat)
    requires Core(s) && BotsPlaced(s.ws, s.bot) && BornFits(born, s.msg.messages)
    requires InputFits(s.ws, input) && id !in s.msg.messages.vals
    ensures var r := Finish(s, actor, input, id, now);
      && Core(r.state) && BotsPlaced(r.state.ws, r.state.bot) && StatePersists(s, r.state)
      && BornFits(Born(born, r.state.msg.messages), r.state.msg.messages)
  {
    hide MessageInv, ContentsFit, WorkspaceInv, BotsPlaced, BornFits, Finish, Publish, RowsPersist, IndexGrows, AllEvolve;
    var r := Finish(s, actor, input, id, now);
    FinishKept(s, actor, input, id, now);
    FinishStores(s, actor, input, id, now);
    if r.published != [] {
      PublishPlaced(s.ws, s.bot, r.published[0]);
    }
    EvolvesPersists(s.msg, r.state.msg);
    EvolvedFits(born, s.msg.messages, r.state.msg.messages);
  }

  /** The row a send answers with is a fitting copy for what a forward goes on to write. */
  lemma FinishedFits(s: State, born: map<MessageId, Content>, actor: UserId, input: SendInput, id: MessageId, now: nat)
    requires Core(s) && BotsPlaced(s.ws, s.bot) && BornFits(born, s.msg.messages)
    requires InputFits(s.ws, input) && id !in s.msg.messages.vals
    ensures var r := Finish(s, actor, input, id, now);
      CopyFits(r.state.ws, r.state.msg.messages, Born(born, r.state.msg.messages), r.outcome.value)
  {
    hide ContentsFit, WorkspaceInv, BotsPlaced, BornFits, Finish, CopyFits, StatePersists, MessageInv;
    var r := Finish(s, actor, input, id, now);
    FinishKeeps(s, born, actor, input, id, now);
    FinishStores(s, actor, input, id, now);
    FoundFits(r.state, Born(born, r.state.msg.messages), r.outcome.value.id);
  }

  /** What a move does to the state. */
  lemma MoveKeepsState(w: World, step: TimedMove)
    requires WorldInv(w) && Enabled(w, step.move)
    ensures var s' := MovedState(w, step);
      && Core(s') && BotsPlaced(s'.ws, s'.bot) && StatePersists(w.s, s') && BornFits(Born(w.born, s'.msg.messages), s'.msg.messages)
  {
    hide Core, BotsPlaced, BornFits, Next, Fresh, Finish, Wrote, RowsPersist, IndexGrows, CopyFits, InputFits;
    match step.move
    case Whole(op) => WholeKeeps(w, op, step.now);
    case FinishSend(call, newId) =>
      assert Fits(w.s, w.born, w.inFlight[call]);
      FinishKeeps(w.s, w.born, w.inFlight[call].actor, w.inFlight[call].input, newId, step.now);
    case FinishWrite(call) =>
      assert Fits(w.s, w.born, w.inFlight[call]);
      WroteKeeps(w.s, w.born, w.inFlight[call].copy, w.inFlight[call].change, step.now);
      WroteKeepsBots(w.s, w.inFlight[call].copy, w.inFlight[call].change, step.now);
    case FinishWorkspace(call) =>
      assert Fits(w.s, w.born, w.inFlight[call]);
      SettledKeeps(w.s, w.born, w.inFlight[call].wop, w.inFlight[call].found, step.now);
    case _ => SamePersists(w.s, w.born);
  }

  /** The second half of a workspace call touches no message and no bot, and no channel's mode. */
  lemma SettledKeeps(s: State, born: map<MessageId, Content>, wop: WorkspaceOp, found: Option<Channel>, now: nat)
    requires Core(s) && BotsPlaced(s.ws, s.bot) && BornFits(born, s.msg.messages)
    requires FreshIds(s.ws, wop) && GrantFits(s.ws, wop, found)
    ensures var s' := s.(ws := Settle(s.ws, wop, found, now));
      Core(s') && BotsPlaced(s'.ws, s'.bot) && StatePersists(s, s') && BornFits(Born(born, s'.msg.messages), s'.msg.messages)
  {
    hide WorkspaceInv, MessagesOk, BotsPlaced, BornFits, Settle, ChannelsPersist, GrantFits, FreshIds;
    SettleKeeps(s.ws, wop, found, now);
    ChannelsPersistKeeps(s.ws, Settle(s.ws, wop, found, now), s.msg);
    NormalPersists(s.ws, Settle(s.ws, wop, found, now), s.bot);
    SamePersists(s, born);
  }

  lemma WroteKeepsBots(s: State, copy: Message, change: Change, now: nat)
    requires BotsPlaced(s.ws, s.bot)
    ensures var s' := s.(msg := Wrote(s.msg, copy, change, now)); BotsPlaced(s'.ws, s'.bot)
  {
  }

  lemma SamePersists(s: State, born: map<MessageId, Content>)
    requires BornFits(born, s.msg.messages)
    ensures StatePersists(s, s) && BornFits(Born(born, s.msg.messages), s.msg.messages)
  {
    assert Born(born, s.msg.messages) == born;
  }

  lemma CallStillFits(w: World, step: TimedMove, call: CallId)
    requires WorldInv(w) && Enabled(w, step.move) && call in MovedCalls(w, step)
    ensures call in Moved(w, step).begun && Fits(MovedState(w, step), Born(w.born, MovedState(w, step).msg.messages), MovedCalls(w, step)[call])
  {
    hide Core, BotsPlaced, BornFits, Next, Fresh, Finish, Wrote, StatePersists, CopyFits, InputFits, Fits, Held, Born;
    MoveKeepsState(w, step);
    var s' := MovedState(w, step);
    if call in w.inFlight && MovedCalls(w, step)[call] == w.inFlight[call] {
      assert Fits(w.s, w.born, w.inFlight[call]);
      StillFits(w.s, w.born, s', w.inFlight[call]);
    } else {
      NewCallFits(w, step);
    }
  }

  /** The continuation a move itself leaves in flight. */
  lemma NewCallFits(w: World, step: TimedMove)
    requires WorldInv(w) && Enabled(w, step.move) && !step.move.Whole? && step.move.call in MovedCalls(w, step)
    requires !step.move.FinishWrite? && !step.move.FinishWorkspace?
    ensures Fits(MovedState(w, step), Born(w.born, MovedState(w, step).msg.messages), MovedCalls(w, step)[step.move.call])
  {
    hide Core, BotsPlaced, BornFits, Finish, Held, CopyFits, InputFits;
    if step.move.FinishSend? {
      var call := step.move.call;
      assert Fits(w.s, w.born, w.inFlight[call]);
      FinishedFits(w.s, w.born, w.inFlight[call].actor, w.inFlight[call].input, step.move.newId, step.now);
    } else {
      BeginFits(w, step);
    }
  }

  lemma BeginFits(w: World, step: TimedMove)
    requires WorldInv(w) && Enabled(w, step.move) && !step.move.Whole? && !step.move.FinishSend? && !step.move.FinishWrite?
    requires !step.move.FinishWorkspace? && step.move.call in MovedCalls(w, step)
    ensures MovedState(w, step) == w.s && Born(w.born, w.s.msg.messages) == w.born
    ensures Fits(w.s, w.born, MovedCalls(w, step)[step.move.call])
  {
    hide Core, BotsPlaced, Held, Fits;
    HeldFits(w.s, w.born, step.move);
    assert Born(w.born, w.s.msg.messages) == w.born;
  }

  /** Every move keeps the invariant, and every row with its identity. */
  lemma MoveKeeps(w: World, step: TimedMove)
    requires WorldInv(w) && Enabled(w, step.move)
    ensures WorldInv(Moved(w, step)) && StatePersists(w.s, Moved(w, step).s)
  {
    hide Core, BotsPlaced, BornFits, MovedState, MovedCalls, StatePersists, Fits, Born;
    MoveKeepsState(w, step);
    forall call | call in MovedCalls(w, step)
      ensures call in Moved(w, step).begun && Fits(MovedState(w, step), Born(w.born, MovedState(w, step).msg.messages), MovedCalls(w, step)[call])
    {
      CallStillFits(w, step, call);
    }
  }

  lemma PersistsTransitive(a: State, b: State, c: State)
    requires StatePersists(a, b) && StatePersists(b, c)
    ensures StatePersists(a, c)
  {
    forall id | id in a.msg.messages.vals
      ensures id in c.msg.messages.vals && SameIdentity(a.msg.messages.vals[id], c.msg.messages.vals[id])
    {
      assert SameIdentity(a.msg.messages.vals[id], b.msg.messages.vals[id]) && SameIdentity(b.msg.messages.vals[id], c.msg.messages.vals[id]);
    }
  }

  /** Over every interleaving of halves and whole calls: the tables stay consistent, the client-id index an exact bijection,
      bots and their events outside E2E channels; and nothing stored is lost or changes its identity. */
  lemma {:induction false} AfterKeeps(w: World, clock: nat, moves: seq<TimedMove>)
    requires WorldInv(w) && Possible(w, clock, moves)
    ensures WorldInv(After(w, moves)) && StatePersists(w.s, After(w, moves).s)
    decreases |moves|
  {
    hide WorldInv, StatePersists, Moved, Enabled;
    if moves == [] {
      SameStatePersists(w.s);
    } else {
      MoveKeeps(w, moves[0]);
      AfterKeeps(Moved(w, moves[0]), moves[0].now, moves[1..]);
      PersistsTransitive(w.s, Moved(w, moves[0]).s, After(w, moves).s);
    }
  }

  lemma SameStatePersists(s: State)
    ensures StatePersists(s, s)
  {
  }

  lemma StartInv()
    ensures WorldInv(Start) && EventsPlain(Start.s.bot)
  {
  }

  lemma {:induction false} AfterAppend(w: World, clock: nat, moves: seq<TimedMove>, step: TimedMove)
    requires Possible(w, clock, moves) && ClockAfter(clock, moves) <= step.now && Enabled(After(w, moves), step.move)
    ensures Possible(w, clock, moves + [step]) && After(w, moves + [step]) == Moved(After(w, moves), step)
    decreases |moves|
  {
    hide Moved, Enabled;
    if moves == [] {
      assert moves + [step] == [step] && [step][1..] == [];
    } else {
      AfterAppend(Moved(w, moves[0]), moves[0].now, moves[1..], step);
      assert (moves + [step])[1..] == moves[1..] + [step];
    }
  }
}
