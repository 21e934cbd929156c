/**
 The in-memory `create` with the await it has inside, among all the other halves: one step looks for a row with the client
 id, a later one inserts without looking again, and publishes.  When that still keeps one row per (sender, client id).
 */
module InMemoryCreate {
  import opened JsCollections
  import opened Ids
  import opened Domain
  import opened Workspaces
  import opened MessageStore
  import opened Bots
  import opened Messages
  import opened Runs
  import opened Rows
  import opened Interleaving

  /** A bot's message or a help reply whose look found nothing. */
  datatype Row = Row(m: Message, files: set<FileId>)

  /** `looked` are the sends in flight whose look found nothing, `rows` the other callers of `create`. */
  datatype SplitWorld = SplitWorld(w: World, looked: set<CallId>, rows: map<CallId, Row>)

  datatype SplitMove =
    | Other(move: Move)
    | Look(call: CallId, newId: MessageId)
    | Insert(call: CallId, newId: MessageId)
    | LookFor(call: CallId, m: Message, files: set<FileId>)
    | InsertFor(call: CallId)

  datatype SplitStep = SplitStep(move: SplitMove, now: nat)

  /** Any caller's row: just sent, in a channel whose mode it fits. */
  ghost predicate RowFits(ws: WorkspaceState, m: Message) {
    m.status == StatusSent && ContentFits(ws, m)
  }

  ghost predicate SplitEnabled(sw: SplitWorld, move: SplitMove) {
    match move
    case Other(m) => Enabled(sw.w, m) && !(m.FinishSend? && m.call in sw.looked)
    case Look(call, newId) => call !in sw.looked && Enabled(sw.w, FinishSend(call, newId))
    case Insert(call, newId) => call in sw.looked && Enabled(sw.w, FinishSend(call, newId))
    case LookFor(call, m, _) => call !in sw.rows && RowFits(sw.w.s.ws, m)
    case InsertFor(call) => call in sw.rows && sw.rows[call].m.id !in sw.w.s.msg.messages.vals
  }

  /** The second half of a send as it is after its look: inserted whatever the index says by now, then published. */
  function Blind(s: State, actor: UserId, input: SendInput, id: MessageId, now: nat): SendResult {
    var m := SentMessage(id, actor, input, now);
    Announced(s, input, Inserted(s.msg, m, set f | f in Attachments(input.content)), m, now)
  }

  function BlindBy(w: World, call: CallId, newId: MessageId, now: nat): SendResult
    requires Holds(w, call) && w.inFlight[call].Sending?
  {
    Blind(w.s, w.inFlight[call].actor, w.inFlight[call].input, newId, now)
  }

  function BlindMoved(w: World, call: CallId, newId: MessageId, now: nat): World
    requires Holds(w, call) && w.inFlight[call].Sending?
  {
    var r := BlindBy(w, call, newId, now);
    var origin := w.inFlight[call].origin;
    World(r.state,
          if origin.Some? then w.inFlight[call := Writing(r.outcome.value, Originating(origin.value))] else w.inFlight - {call},
          w.begun + {call}, Born(w.born, r.state.msg.messages))
  }

  function InsertedFor(w: World, row: Row): World {
    var s' := w.s.(msg := Inserted(w.s.msg, row.m, row.files));
    w.(s := s', born := Born(w.born, s'.msg.messages))
  }

  predicate FindsRow(s: State, held: InFlight) {
    held.Sending? && FindByClient(s.msg, held.actor, held.input.clientMsgId).Some?
  }

  ghost function SplitMoved(sw: SplitWorld, step: SplitStep): SplitWorld {
    if !SplitEnabled(sw, step.move) then sw
    else
      match step.move
      case Other(m) => sw.(w := Moved(sw.w, TimedMove(m, step.now)))
      case Look(call, newId) =>
        if FindsRow(sw.w.s, sw.w.inFlight[call]) then sw.(w := Moved(sw.w, TimedMove(FinishSend(call, newId), step.now)))
        else sw.(looked := sw.looked + {call})
      case Insert(call, newId) => SplitWorld(BlindMoved(sw.w, call, newId, step.now), sw.looked - {call}, sw.rows)
      case LookFor(call, m, files) =>
        if FindByClient(sw.w.s.msg, m.senderId, m.clientMsgId).Some? then sw else sw.(rows := sw.rows[call := Row(m, files)])
      case InsertFor(call) => SplitWorld(InsertedFor(sw.w, sw.rows[call]), sw.looked, sw.rows - {call})
  }

  ghost predicate SplitPossible(sw: SplitWorld, clock: nat, moves: seq<SplitStep>)
    decreases |moves|
  {
    moves == []
    || (clock <= moves[0].now && SplitEnabled(sw, moves[0].move) && SplitPossible(SplitMoved(sw, moves[0]), moves[0].now, moves[1..]))
  }

  ghost function SplitAfter(sw: SplitWorld, moves: seq<SplitStep>): SplitWorld
    decreases |moves|
  {
    if moves == [] then sw else SplitAfter(SplitMoved(sw, moves[0]), moves[1..])
  }

  function SplitClock(clock: nat, moves: seq<SplitStep>): nat {
    if moves == [] then clock else moves[|moves| - 1].now
  }

  const SplitStart: SplitWorld := SplitWorld(Start, {}, map[])

  /** With nothing in between, a look and an insert are the atomic second half. */
  lemma LookAndInsertMakeWhole(sw: SplitWorld, call: CallId, newId: MessageId, now: nat)
    requires SplitEnabled(sw, Look(call, newId))
    ensures var whole := sw.(w := Moved(sw.w, TimedMove(FinishSend(call, newId), now)));
      var looked := SplitMoved(sw, SplitStep(Look(call, newId), now));
      if FindsRow(sw.w.s, sw.w.inFlight[call]) then looked == whole
      else SplitEnabled(looked, Insert(call, newId)) && SplitMoved(looked, SplitStep(Insert(call, newId), now)) == whole
  {
    hide Announced, Born, Inserted;
    assert sw.looked + {call} - {call} == sw.looked;
  }

  // ---------------------------------------------------------------- one insert

  /** An insert of a fresh id keeps the index and the messages an exact bijection if and only if its client id is not
      indexed by then. */
  lemma InsertKeepsIndexIff(msg: MessageState, m: Message, files: set<FileId>)
    requires IndexInv(msg.messages, msg.byClientId) && m.id !in msg.messages.vals
    ensures var msg' := Inserted(msg, m, files);
      IndexInv(msg'.messages, msg'.byClientId) <==> ClientKey(m) !in msg.byClientId
  {
    var msg' := Inserted(msg, m, files);
    if ClientKey(m) in msg.byClientId {
      var id := msg.byClientId[ClientKey(m)];
      assert Backed(msg.messages, ClientKey(m), id);
      assert !Indexed(msg'.byClientId, msg'.messages.vals[id], id);
    } else {
      InsertKeepsIndex(msg.messages, msg.byClientId, m);
    }
  }

  // ---------------------------------------------------------------- what every move keeps, clash or not

  ghost predicate LooseCall(s: State, held: InFlight) {
    match held
    case Sending(_, input, _) => InputFits(s.ws, input)
    case Writing(copy, _) => CopyIsLoose(s.ws, s.msg.messages, copy)
    case Granted(wop, found) => GrantFits(s.ws, wop, found)
  }

  ghost predicate CopyIsLoose(ws: WorkspaceState, ms: MessageTable, copy: Message) {
    copy.id in ms.vals && ClientKey(ms.vals[copy.id]) == ClientKey(copy) && ContentFits(ws, copy)
  }

  ghost predicate LooseCalls(w: World) {
    forall call :: call in w.inFlight ==> call in w.begun && LooseCall(w.s, w.inFlight[call])
  }

  ghost predicate LooseState(s: State) {
    WorkspaceInv(s.ws) && RowsOk(s.ws, s.msg.messages) && BotsPlaced(s.ws, s.bot)
  }

  ghost predicate LooksFit(sw: SplitWorld) {
    && (forall call :: call in sw.looked ==> call in sw.w.inFlight && sw.w.inFlight[call].Sending?)
    && (forall call :: call in sw.rows ==> RowFits(sw.w.s.ws, sw.rows[call].m))
  }

  ghost predicate LooseInv(sw: SplitWorld) {
    LooseState(sw.w.s) && LooseCalls(sw.w) && LooksFit(sw)
  }

  /** No row goes or changes its key; no channel goes or changes its mode. */
  ghost predicate Loosely(s: State, s': State) {
    LooseState(s') && ChannelsPersist(s.ws, s'.ws) && KeysStay(s.msg.messages, s'.msg.messages)
  }

  lemma CallStaysLoose(s: State, s': State, held: InFlight)
    requires LooseCall(s, held) && Loosely(s, s')
    ensures LooseCall(s', held)
  {
    hide LooseState;
    if held.Granted? {
      GrantStillFits(s.ws, s'.ws, held.wop, held.found);
    }
  }

  lemma StoredIsLoose(ws: WorkspaceState, ms: MessageTable, m: Message)
    requires RowsOk(ws, ms) && ms.Get(m.id) == Some(m)
    ensures CopyIsLoose(ws, ms, m)
  {
    StoredRow(ws, ms, m.id);
  }

  lemma SameLoosely(s: State)
    requires LooseState(s)
    ensures Loosely(s, s)
  {
  }

  lemma WholeLoosely(s: State, step: Step)
    requires LooseState(s) && Fresh(s, step.op)
    ensures Loosely(s, Next(s, step))
  {
    hide WorkspaceInv, RowsOk, BotsPlaced, Next, Fresh, ChannelsPersist, KeysStay;
    StepKeepsWorkspaces(s, step);
    StepKeepsBots(s, step);
    StepRows(s, step);
  }

  lemma AnnouncedLoosely(s: State, input: SendInput, msg': MessageState, created: Message, now: nat)
    requires LooseState(s) && RowsStay(s.ws, s.msg.messages, msg'.messages)
    ensures Loosely(s, Announced(s, input, msg', created, now).state)
  {
    hide WorkspaceInv, RowsOk, BotsPlaced, KeysStay, Publish;
    if IsNormal(s.ws, input.channelId) {
      PublishPlaced(s.ws, s.bot, CreatedEvent(created, input, now));
    }
  }

  lemma FinishLoosely(s: State, actor: UserId, input: SendInput, id: MessageId, now: nat)
    requires LooseState(s) && InputFits(s.ws, input) && id !in s.msg.messages.vals
    ensures var r := Finish(s, actor, input, id, now);
      Loosely(s, r.state) && CopyIsLoose(r.state.ws, r.state.msg.messages, r.outcome.value)
  {
    hide WorkspaceInv, RowsOk, BotsPlaced, RowsStay, Create, Publish, ContentFits, InputFits, Loosely, CopyIsLoose;
    var m := SentMessage(id, actor, input, now);
    var files := set f | f in Attachments(input.content);
    SentFits(s.ws, actor, input, id, now);
    CreateRows(s.ws, s.msg, m, files);
    var (msg', created) := Create(s.msg, m, files);
    AnnouncedLoosely(s, input, msg', created, now);
    StayOk(s.ws, s.msg.messages, msg'.messages);
    StoredIsLoose(s.ws, msg'.messages, created);
  }

  lemma BlindLoosely(s: State, actor: UserId, input: SendInput, id: MessageId, now: nat)
    requires LooseState(s) && InputFits(s.ws, input) && id !in s.msg.messages.vals
    ensures var r := Blind(s, actor, input, id, now);
      Loosely(s, r.state) && CopyIsLoose(r.state.ws, r.state.msg.messages, r.outcome.value)
  {
    hide WorkspaceInv, RowsOk, BotsPlaced, RowsStay, Publish, ContentFits, InputFits, Loosely, CopyIsLoose;
    var m := SentMessage(id, actor, input, now);
    var msg' := Inserted(s.msg, m, set f | f in Attachments(input.content));
    SentFits(s.ws, actor, input, id, now);
    OverwriteRows(s.ws, s.msg.messages, m);
    AnnouncedLoosely(s, input, msg', m, now);
    StayOk(s.ws, s.msg.messages, msg'.messages);
    StoredIsLoose(s.ws, msg'.messages, m);
  }

  lemma StayOk(ws: WorkspaceState, ms: MessageTable, ms': MessageTable)
    requires RowsStay(ws, ms, ms')
    ensures RowsOk(ws, ms')
  {
  }

  lemma WrittenLoosely(s: State, copy: Message, change: Change, now: nat)
    requires LooseState(s) && CopyIsLoose(s.ws, s.msg.messages, copy)
    ensures Loosely(s, s.(msg := Wrote(s.msg, copy, change, now)))
  {
    hide WorkspaceInv, BotsPlaced, RowsOk, Wrote;
    WroteIs(s.msg, copy, change, now);
    WrittenKeepsRow(s.ws, copy, change, now);
    OverwriteRows(s.ws, s.msg.messages, Written(copy, change, now));
  }

  lemma WrittenKeepsRow(ws: WorkspaceState, copy: Message, change: Change, now: nat)
    requires ContentFits(ws, copy)
    ensures var m := Written(copy, change, now); m.id == copy.id && ClientKey(m) == ClientKey(copy) && ContentFits(ws, m)
  {
  }

  lemma SettledLoosely(s: State, wop: WorkspaceOp, found: Option<Channel>, now: nat)
    requires LooseState(s) && FreshIds(s.ws, wop) && GrantFits(s.ws, wop, found)
    ensures Loosely(s, s.(ws := Settle(s.ws, wop, found, now)))
  {
    hide WorkspaceInv, BotsPlaced, RowsOk, Settle, ChannelsPersist, GrantFits, FreshIds, KeysStay;
    SettleKeeps(s.ws, wop, found, now);
    var ws' := Settle(s.ws, wop, found, now);
    NormalPersists(s.ws, ws', s.bot);
    RowsMoveAlong(s.ws, ws', s.msg.messages);
  }

  lemma MoveLoosely(w: World, step: TimedMove)
    requires LooseState(w.s) && LooseCalls(w) && Enabled(w, step.move)
    ensures Loosely(w.s, Moved(w, step).s)
  {
    hide LooseState, Loosely, Next, Fresh, Finish, Wrote, Settle, FreshIds, CopyIsLoose, InputFits, GrantFits, Born, Held;
    match step.move
    case Whole(op) => WholeLoosely(w.s, Step(op, step.now));
    case FinishSend(call, newId) =>
      assert LooseCall(w.s, w.inFlight[call]);
      FinishLoosely(w.s, w.inFlight[call].actor, w.inFlight[call].input, newId, step.now);
    case FinishWrite(call) =>
      assert LooseCall(w.s, w.inFlight[call]);
      WrittenLoosely(w.s, w.inFlight[call].copy, w.inFlight[call].change, step.now);
    case FinishWorkspace(call) =>
      assert LooseCall(w.s, w.inFlight[call]);
      SettledLoosely(w.s, w.inFlight[call].wop, w.inFlight[call].found, step.now);
    case _ => SameLoosely(w.s);
  }

  lemma AdmissionIsLoose(
      s: State, actor: UserId, input: SendInput, error: Option<Error>, origin: Option<Origin>)
    requires LooseState(s)
    ensures var held := AfterAdmission(Admit(s, actor, input, error), actor, input, origin);
      held.Some? ==> LooseCall(s, held.value)
  {
    hide Admit, InputFits, CopyIsLoose, RowsOk, WorkspaceInv, BotsPlaced;
    AdmittedOnly(s, actor, input, error);
    var admission := Admit(s, actor, input, error);
    if admission.Known? {
      KnownRow(s.ws, s.msg, actor, input.clientMsgId);
      StoredIsLoose(s.ws, s.msg.messages, admission.existing);
    }
  }

  lemma LooseRow(s: State, id: MessageId)
    requires LooseState(s) && Find(s.msg, id).Some?
    ensures CopyIsLoose(s.ws, s.msg.messages, Find(s.msg, id).value)
  {
    StoredRow(s.ws, s.msg.messages, id);
  }

  lemma GrantIsLoose(s: State, wop: WorkspaceOp)
    requires LooseState(s) && Grants(s.ws, wop)
    ensures GrantFits(s.ws, wop, FoundBy(s.ws, wop))
  {
    GrantedFits(s.ws, wop);
  }

  lemma HeldIsLoose(s: State, move: Move)
    requires LooseState(s)
    ensures Held(s, move).Some? ==> LooseCall(s, Held(s, move).value)
  {
    hide LooseState, CopyIsLoose, Admit, InputFits, CanAccessChannel, IsExpired, Grants, GrantFits, FoundBy;
    if FindsMessage(move) {
      if Find(s.msg, move.id).Some? {
        LooseRow(s, move.id);
      }
    } else if move.BeginSend? {
      AdmissionIsLoose(s, move.actor, move.input, move.attachmentError, None);
    } else if move.BeginForward? && Find(s.msg, move.id).Some? && move.target in s.ws.channels.vals {
      var source := Find(s.msg, move.id).value;
      AdmissionIsLoose(s, move.actor, ForwardInput(s, source, move.target, move.client), move.attachmentError, Some(OriginOf(source)));
    } else if move.BeginWorkspace? && Grants(s.ws, move.wop) {
      GrantIsLoose(s, move.wop);
    }
  }

  /** The continuation a move itself leaves in flight. */
  lemma NewCallIsLoose(w: World, step: TimedMove)
    requires LooseState(w.s) && LooseCalls(w) && Enabled(w, step.move) && !step.move.Whole?
    requires step.move.call in MovedCalls(w, step) && !step.move.FinishWrite? && !step.move.FinishWorkspace?
    requires step.move.FinishSend? || Held(w.s, step.move).Some?
    ensures LooseCall(MovedState(w, step), MovedCalls(w, step)[step.move.call])
  {
    hide LooseState, Finish, Held, CopyIsLoose, InputFits, GrantFits, Loosely;
    if step.move.FinishSend? {
      var call := step.move.call;
      assert LooseCall(w.s, w.inFlight[call]);
      FinishLoosely(w.s, w.inFlight[call].actor, w.inFlight[call].input, step.move.newId, step.now);
    } else {
      HeldIsLoose(w.s, step.move);
    }
  }

  lemma MoveKeepsCallsLoose(w: World, step: TimedMove)
    requires LooseState(w.s) && LooseCalls(w) && Enabled(w, step.move)
    ensures LooseCalls(Moved(w, step))
  {
    hide LooseState, Loosely, Next, Fresh, Finish, Wrote, Settle, FreshIds, LooseCall, Born, Held;
    MoveLoosely(w, step);
    forall call | call in MovedCalls(w, step)
      ensures call in Moved(w, step).begun && LooseCall(MovedState(w, step), MovedCalls(w, step)[call])
    {
      if call in w.inFlight && MovedCalls(w, step)[call] == w.inFlight[call] {
        CallStaysLoose(w.s, MovedState(w, step), w.inFlight[call]);
      } else {
        NewCallIsLoose(w, step);
      }
    }
  }

  lemma CallsStayLoose(w: World, s': State, calls: map<CallId, InFlight>, begun: set<CallId>, call: CallId)
    requires LooseCalls(w) && Loosely(w.s, s') && w.begun <= begun
    requires forall x :: x in calls && x != call ==> x in w.inFlight && calls[x] == w.inFlight[x]
    requires call in calls ==> call in begun && LooseCall(s', calls[call])
    ensures forall x :: x in calls ==> x in begun && LooseCall(s', calls[x])
  {
    hide LooseCall, Loosely;
    forall x | x in calls && x != call
      ensures LooseCall(s', calls[x])
    {
      CallStaysLoose(w.s, s', w.inFlight[x]);
    }
  }

  lemma BlindKeepsLoose(w: World, call: CallId, newId: MessageId, now: nat)
    requires LooseState(w.s) && LooseCalls(w) && Enabled(w, FinishSend(call, newId))
    ensures var w' := BlindMoved(w, call, newId, now); Loosely(w.s, w'.s) && LooseCalls(w')
  {
    hide LooseState, Loosely, Blind, CopyIsLoose, InputFits, Born;
    assert LooseCall(w.s, w.inFlight[call]);
    BlindLoosely(w.s, w.inFlight[call].actor, w.inFlight[call].input, newId, now);
    var w' := BlindMoved(w, call, newId, now);
    CallsStayLoose(w, w'.s, w'.inFlight, w'.begun, call);
  }

  lemma RowFitsStill(ws: WorkspaceState, ws': WorkspaceState, m: Message)
    requires RowFits(ws, m) && ChannelsPersist(ws, ws')
    ensures RowFits(ws', m)
  {
  }

  lemma InsertedLoosely(w: World, row: Row)
    requires LooseState(w.s) && LooseCalls(w) && RowFits(w.s.ws, row.m) && row.m.id !in w.s.msg.messages.vals
    ensures var w' := InsertedFor(w, row); Loosely(w.s, w'.s) && LooseCalls(w')
  {
    hide WorkspaceInv, BotsPlaced, RowsOk, LooseCall, Born;
    OverwriteRows(w.s.ws, w.s.msg.messages, row.m);
    var w' := InsertedFor(w, row);
    forall call | call in w'.inFlight
      ensures LooseCall(w'.s, w'.inFlight[call])
    {
      CallStaysLoose(w.s, w'.s, w.inFlight[call]);
    }
  }

  /** What a move does to the world beneath. */
  lemma SplitMoveLoosely(sw: SplitWorld, step: SplitStep)
    requires LooseInv(sw) && SplitEnabled(sw, step.move)
    ensures Loosely(sw.w.s, SplitMoved(sw, step).w.s) && LooseCalls(SplitMoved(sw, step).w)
  {
    hide LooseState, LooseCalls, Loosely, Moved, Enabled, BlindMoved, InsertedFor, RowFits;
    SameLoosely(sw.w.s);
    match step.move
    case Other(m) =>
      MoveLoosely(sw.w, TimedMove(m, step.now));
      MoveKeepsCallsLoose(sw.w, TimedMove(m, step.now));
    case Look(call, newId) =>
      MoveLoosely(sw.w, TimedMove(FinishSend(call, newId), step.now));
      MoveKeepsCallsLoose(sw.w, TimedMove(FinishSend(call, newId), step.now));
    case Insert(call, newId) => BlindKeepsLoose(sw.w, call, newId, step.now);
    case LookFor(_, _, _) =>
    case InsertFor(call) => InsertedLoosely(sw.w, sw.rows[call]);
  }

  /** A send in flight stays as it is, but by its own second half. */
  lemma SendingStays(w: World, step: TimedMove, call: CallId)
    requires LooseCalls(w) && Enabled(w, step.move) && call in w.inFlight && w.inFlight[call].Sending?
    requires !(step.move.FinishSend? && step.move.call == call)
    ensures call in Moved(w, step).inFlight && Moved(w, step).inFlight[call] == w.inFlight[call]
  {
    hide Next, Fresh, Finish, Wrote, Settle, FreshIds, LooseCall, Born, Held;
  }

  lemma LooksStayFit(sw: SplitWorld, step: SplitStep)
    requires LooseInv(sw) && SplitEnabled(sw, step.move)
    ensures LooksFit(SplitMoved(sw, step))
  {
    hide LooseState, LooseCalls, Moved, Enabled, RowFits, ChannelsPersist, KeysStay, Born, Blind;
    SplitMoveLoosely(sw, step);
    var sw' := SplitMoved(sw, step);
    forall call | call in sw'.looked
      ensures call in sw'.w.inFlight && sw'.w.inFlight[call].Sending?
    {
      LookStays(sw, step, call);
    }
    forall call | call in sw'.rows
      ensures RowFits(sw'.w.s.ws, sw'.rows[call].m)
    {
      if call in sw.rows && sw'.rows[call] == sw.rows[call] {
        RowFitsStill(sw.w.s.ws, sw'.w.s.ws, sw.rows[call].m);
      }
    }
  }

  lemma LookStays(sw: SplitWorld, step: SplitStep, call: CallId)
    requires LooseInv(sw) && SplitEnabled(sw, step.move) && call in SplitMoved(sw, step).looked
    ensures call in SplitMoved(sw, step).w.inFlight && SplitMoved(sw, step).w.inFlight[call].Sending?
  {
    hide LooseState, LooseCalls, Moved, RowFits, Born, Blind, Fresh, FreshIds, FindsRow;
    if step.move.Other? {
      SendingStays(sw.w, TimedMove(step.move.move, step.now), call);
    } else if step.move.Look? && call in sw.looked {
      SendingStays(sw.w, TimedMove(FinishSend(step.move.call, step.move.newId), step.now), call);
    }
  }

  /** Every move keeps the rows, the channels' modes and the bots in place, even after two rows have got the same key. */
  lemma SplitMoveKeeps(sw: SplitWorld, step: SplitStep)
    requires LooseInv(sw) && SplitEnabled(sw, step.move)
    ensures LooseInv(SplitMoved(sw, step)) && Loosely(sw.w.s, SplitMoved(sw, step).w.s)
  {
    hide LooseState, LooseCalls, SplitMoved, SplitEnabled, LooksFit, ChannelsPersist, KeysStay;
    SplitMoveLoosely(sw, step);
    LooksStayFit(sw, step);
  }

  lemma LooselyTransitive(a: State, b: State, c: State)
    requires Loosely(a, b) && Loosely(b, c)
    ensures Loosely(a, c)
  {
  }

  lemma {:induction false} SplitAfterKeeps(sw: SplitWorld, clock: nat, moves: seq<SplitStep>)
    requires LooseInv(sw) && SplitPossible(sw, clock, moves)
    ensures LooseInv(SplitAfter(sw, moves)) && Loosely(sw.w.s, SplitAfter(sw, moves).w.s)
    decreases |moves|
  {
    hide SplitMoved, SplitEnabled, Loosely, LooseCalls, LooseState, LooksFit;
    if moves == [] {
      SameLoosely(sw.w.s);
    } else {
      SplitMoveKeeps(sw, moves[0]);
      SplitAfterKeeps(SplitMoved(sw, moves[0]), moves[0].now, moves[1..]);
      LooselyTransitive(sw.w.s, SplitMoved(sw, moves[0]).w.s, SplitAfter(sw, moves).w.s);
    }
  }

  // ---------------------------------------------------------------- one row per key

  ghost predicate OneRowPerKey(ms: MessageTable) {
    forall a, b :: a in ms.vals && b in ms.vals && ClientKey(ms.vals[a]) == ClientKey(ms.vals[b]) ==> a == b
  }

  /** An insert on a key that has been indexed since its look. */
  ghost predicate Clashes(sw: SplitWorld, move: SplitMove) {
    match move
    case Insert(call, _) =>
      call in sw.looked && Holds(sw.w, call) && sw.w.inFlight[call].Sending?
      && (sw.w.inFlight[call].actor, sw.w.inFlight[call].input.clientMsgId) in sw.w.s.msg.byClientId
    case InsertFor(call) => call in sw.rows && ClientKey(sw.rows[call].m) in sw.w.s.msg.byClientId
    case _ => false
  }

  ghost predicate ClashesIn(sw: SplitWorld, moves: seq<SplitStep>)
    decreases |moves|
  {
    moves != [] && (Clashes(sw, moves[0].move) || ClashesIn(SplitMoved(sw, moves[0]), moves[1..]))
  }

  ghost predicate SplitInv(sw: SplitWorld) {
    WorldInv(sw.w) && LooksFit(sw)
  }

  lemma CopyFitsIsLoose(ws: WorkspaceState, ms: MessageTable, born: map<MessageId, Content>, copy: Message)
    requires CopyFits(ws, ms, born, copy)
    ensures CopyIsLoose(ws, ms, copy)
  {
  }

  lemma InvIsLoose(sw: SplitWorld)
    requires SplitInv(sw)
    ensures LooseInv(sw)
  {
    hide WorkspaceInv, MessagesOk, BotsPlaced, BornFits, RowsOk, LooksFit, CopyFits, CopyIsLoose, InputFits, GrantFits;
    IndexedRowsOk(sw.w.s);
    forall call | call in sw.w.inFlight
      ensures LooseCall(sw.w.s, sw.w.inFlight[call])
    {
      assert Fits(sw.w.s, sw.w.born, sw.w.inFlight[call]);
      if sw.w.inFlight[call].Writing? {
        CopyFitsIsLoose(sw.w.s.ws, sw.w.s.msg.messages, sw.w.born, sw.w.inFlight[call].copy);
      }
    }
  }

  /** An insert on a free key is the atomic second half. */
  lemma BlindIsFinish(w: World, call: CallId, newId: MessageId, now: nat)
    requires Enabled(w, FinishSend(call, newId)) && !FindsRow(w.s, w.inFlight[call])
    ensures BlindMoved(w, call, newId, now) == Moved(w, TimedMove(FinishSend(call, newId), now))
  {
    hide Announced, Born, Inserted;
  }

  lemma FreeKeyIsNotFound(s: State, actor: UserId, c: ClientMsgId)
    requires Core(s)
    ensures FindByClient(s.msg, actor, c).None? <==> (actor, c) !in s.msg.byClientId
  {
    FindByClientIs(s.msg, (actor, c));
  }

  lemma InsertKeepsCore(s: State, born: map<MessageId, Content>, m: Message, files: set<FileId>)
    requires Core(s) && BornFits(born, s.msg.messages)
    requires m.id !in s.msg.messages.vals && ClientKey(m) !in s.msg.byClientId && RowFits(s.ws, m)
    ensures var s' := s.(msg := Inserted(s.msg, m, files));
      Core(s') && StatePersists(s, s') && BornFits(Born(born, s'.msg.messages), s'.msg.messages)
  {
    hide WorkspaceInv, MessageInv, ContentsFit, ContentFits, BornFits, AllEvolve, RowsPersist, IndexGrows, Inserted;
    CreateKept(s.ws, s.msg, m, files);
    FreeKeyIsNotFound(s, m.senderId, m.clientMsgId);
    var msg' := Inserted(s.msg, m, files);
    assert Create(s.msg, m, files).0 == msg';
    EvolvesPersists(s.msg, msg');
    EvolvedFits(born, s.msg.messages, msg'.messages);
  }

  lemma InsertedForKeepsInv(w: World, row: Row)
    requires WorldInv(w) && RowFits(w.s.ws, row.m) && row.m.id !in w.s.msg.messages.vals
    requires ClientKey(row.m) !in w.s.msg.byClientId
    ensures WorldInv(InsertedFor(w, row))
  {
    hide Core, BotsPlaced, BornFits, StatePersists, Fits, RowFits, Inserted, Born;
    InsertKeepsCore(w.s, w.born, row.m, row.files);
    var w' := InsertedFor(w, row);
    forall call | call in w'.inFlight
      ensures Fits(w'.s, w'.born, w'.inFlight[call])
    {
      StillFits(w.s, w.born, w'.s, w.inFlight[call]);
    }
  }

  lemma SplitMoveKeepsInv(sw: SplitWorld, step: SplitStep)
    requires SplitInv(sw) && SplitEnabled(sw, step.move) && !Clashes(sw, step.move)
    ensures SplitInv(SplitMoved(sw, step))
  {
    hide LooseState, LooseCalls, Moved, LooksFit, BlindMoved, InsertedFor, RowFits;
    hide Core, BotsPlaced, BornFits, CallsFit, Fresh, FreshIds;
    InvIsLoose(sw);
    LooksStayFit(sw, step);
    match step.move
    case Other(m) => MoveKeeps(sw.w, TimedMove(m, step.now));
    case Look(call, newId) => MoveKeeps(sw.w, TimedMove(FinishSend(call, newId), step.now));
    case Insert(call, newId) =>
      FreeKeyIsNotFound(sw.w.s, sw.w.inFlight[call].actor, sw.w.inFlight[call].input.clientMsgId);
      BlindIsFinish(sw.w, call, newId, step.now);
      MoveKeeps(sw.w, TimedMove(FinishSend(call, newId), step.now));
    case LookFor(_, _, _) =>
    case InsertFor(call) =>
      RowsFit(sw, call);
      InsertedForKeepsInv(sw.w, sw.rows[call]);
  }

  lemma RowsFit(sw: SplitWorld, call: CallId)
    requires LooksFit(sw) && call in sw.rows
    ensures RowFits(sw.w.s.ws, sw.rows[call].m)
  {
  }

  lemma CoreIsUnique(s: State)
    requires Core(s)
    ensures OneRowPerKey(s.msg.messages)
  {
    hide WorkspaceInv, TombstoneInv, ReceiptInv, ContentsFit;
    var ms, index := s.msg.messages, s.msg.byClientId;
    forall a, b | a in ms.vals && b in ms.vals && ClientKey(ms.vals[a]) == ClientKey(ms.vals[b])
      ensures a == b
    {
      assert Indexed(index, ms.vals[a], a) && Indexed(index, ms.vals[b], b);
    }
  }

  /** A second row for an indexed key. */
  lemma TakenKeyMakesTwo(s: State, m: Message)
    requires Core(s) && ClientKey(m) in s.msg.byClientId && m.id !in s.msg.messages.vals
    ensures !OneRowPerKey(s.msg.messages.Set(m.id, m))
  {
    hide WorkspaceInv, TombstoneInv, ReceiptInv, ContentsFit;
    var id := s.msg.byClientId[ClientKey(m)];
    assert Backed(s.msg.messages, ClientKey(m), id);
    var ms' := s.msg.messages.Set(m.id, m);
    assert id in ms'.vals && m.id in ms'.vals && ClientKey(ms'.vals[id]) == ClientKey(ms'.vals[m.id]) && id != m.id;
  }

  lemma ClashMakesTwo(sw: SplitWorld, step: SplitStep)
    requires SplitInv(sw) && SplitEnabled(sw, step.move) && Clashes(sw, step.move)
    ensures !OneRowPerKey(SplitMoved(sw, step).w.s.msg.messages)
  {
    hide Core, BotsPlaced, BornFits, CallsFit, LooksFit, OneRowPerKey, Publish, Born;
    if step.move.Insert? {
      var Sending(actor, input, _) := sw.w.inFlight[step.move.call];
      TakenKeyMakesTwo(sw.w.s, SentMessage(step.move.newId, actor, input, step.now));
    } else {
      TakenKeyMakesTwo(sw.w.s, sw.rows[step.move.call].m);
    }
  }

  lemma TwoStay(s: State, s': State)
    requires !OneRowPerKey(s.msg.messages) && Loosely(s, s')
    ensures !OneRowPerKey(s'.msg.messages)
  {
    var ms, ms' := s.msg.messages, s'.msg.messages;
    var a, b :| a in ms.vals && b in ms.vals && ClientKey(ms.vals[a]) == ClientKey(ms.vals[b]) && a != b;
    assert a in ms'.vals && b in ms'.vals;
  }

  /** Over every run of looks, inserts and all other halves and whole calls, the store ends with one row per (sender, client id)
      if and only if no insert ran on a key that had been indexed since its look. */
  lemma {:induction false} OneRowPerKeyIff(sw: SplitWorld, clock: nat, moves: seq<SplitStep>)
    requires SplitInv(sw) && SplitPossible(sw, clock, moves)
    ensures OneRowPerKey(SplitAfter(sw, moves).w.s.msg.messages) <==> !ClashesIn(sw, moves)
    decreases |moves|
  {
    hide SplitMoved, SplitEnabled, OneRowPerKey, Clashes, WorldInv, LooksFit, LooseInv, Loosely;
    if moves == [] {
      InvIsUnique(sw);
    } else {
      var sw1 := SplitMoved(sw, moves[0]);
      if Clashes(sw, moves[0].move) {
        ClashMakesTwo(sw, moves[0]);
        InvIsLoose(sw);
        SplitMoveKeeps(sw, moves[0]);
        SplitAfterKeeps(sw1, moves[0].now, moves[1..]);
        TwoStay(sw1.w.s, SplitAfter(sw, moves).w.s);
      } else {
        SplitMoveKeepsInv(sw, moves[0]);
        OneRowPerKeyIff(sw1, moves[0].now, moves[1..]);
      }
    }
  }

  lemma InvIsUnique(sw: SplitWorld)
    requires SplitInv(sw)
    ensures OneRowPerKey(sw.w.s.msg.messages)
  {
    CoreIsUnique(sw.w.s);
  }

  lemma SplitStartInv()
    ensures SplitInv(SplitStart) && EventsPlain(SplitStart.w.s.bot)
  {
    StartInv();
  }

  lemma {:induction false} SplitAppend(sw: SplitWorld, clock: nat, moves: seq<SplitStep>, step: SplitStep)
    requires SplitPossible(sw, clock, moves) && SplitClock(clock, moves) <= step.now
    requires SplitEnabled(SplitAfter(sw, moves), step.move)
    ensures SplitPossible(sw, clock, moves + [step]) && SplitAfter(sw, moves + [step]) == SplitMoved(SplitAfter(sw, moves), step)
    decreases |moves|
  {
    hide SplitMoved, SplitEnabled;
    if moves == [] {
      assert moves + [step] == [step] && [step][1..] == [];
    } else {
      SplitAppend(SplitMoved(sw, moves[0]), moves[0].now, moves[1..], step);
      assert (moves + [step])[1..] == moves[1..] + [step];
    }
  }
}
