/**
 Creating or getting a direct message: over every interleaving, when the channel that is answered is the pair's, of the
 requested mode, and open to both.
 */
module DirectMessages {
  import opened JsCollections
  import opened Ids
  import opened DmNames
  import opened Domain
  import opened Workspaces
  import opened Bots
  import opened Messages
  import opened Runs
  import opened Interleaving
  import opened Scenarios

  /** A direct message of the mode, with both as members. */
  predicate IsDmOf(ws: WorkspaceState, ch: Channel, a: UserId, b: UserId, mode: ChannelMode) {
    ch.kind == DirectMessage && ch.mode == mode && (ch.id, a) in ws.channelMembers && (ch.id, b) in ws.channelMembers
  }

  /** The two users, their workspace and the mode; with `open`, deleted channels count as spoilt. */
  datatype Pair = Pair(w: WorkspaceId, a: UserId, b: UserId, mode: ChannelMode, open: bool)

  predicate Suits(ws: WorkspaceState, ch: Channel, p: Pair) {
    IsDmOf(ws, ch, p.a, p.b, p.mode) && (p.open ==> ch.deletedAt.None?)
  }

  predicate Bears(ch: Channel, p: Pair) {
    ch.workspaceId == p.w && ch.name == DmName(p.a, p.b, p.mode)
  }

  /** Whatever bears the pair's name in the workspace is the pair's direct message. */
  ghost predicate NameIsKept(ws: WorkspaceState, p: Pair) {
    forall c :: c in ws.channels.vals && Bears(ws.channels.vals[c], p) ==> Suits(ws, ws.channels.vals[c], p)
  }

  /** The calls that can put something else under the pair's name, or take one of the two out: a room created with the name or a
      channel renamed to it, a removal of either user; and, when it is to stay open, the deletion of a channel with the name. */
  predicate Disturbs(ws: WorkspaceState, op: WorkspaceOp, p: Pair) {
    match op
    case CreateChannelOp(_, w, name, _, _, _) => w == p.w && name == DmName(p.a, p.b, p.mode)
    case UpdateChannelOp(_, c, name, _) => InWorkspace(ws, c, p.w) && name == Some(DmName(p.a, p.b, p.mode))
    case RemoveMemberOp(_, w, user) => w == p.w && user in {p.a, p.b}
    case RemoveChannelMemberOp(_, c, user) => InWorkspace(ws, c, p.w) && ws.channels.vals[c].kind == DirectMessage && user in {p.a, p.b}
    case DeleteChannelOp(_, c) => p.open && c in ws.channels.vals && Bears(ws.channels.vals[c], p)
    case _ => false
  }

  /** Another pair's direct message, or one of another mode, that has the same name all the same. */
  predicate Collides(op: WorkspaceOp, p: Pair) {
    && op.CreateOrGetDmOp? && op.w == p.w && DmName(op.actor, op.peer, op.mode) == DmName(p.a, p.b, p.mode)
    && !({op.actor, op.peer} == {p.a, p.b} && op.mode == p.mode)
  }

  lemma NeverGeneral(a: UserId, b: UserId, mode: ChannelMode)
    ensures DmName(a, b, mode) != "general"
  {
    assert DmName(a, b, mode)[0] == 'd';
  }

  // ---------------------------------------------------------------- one second half

  /** A copy found under the pair's name is of the pair's direct message, and stays so when it is written back. */
  predicate CopySuits(ws: WorkspaceState, op: WorkspaceOp, found: Option<Channel>, p: Pair) {
    Puts(op) && found.Some? && Bears(found.value, p) ==> Suits(ws, found.value, p) && (p.open ==> !op.DeleteChannelOp?)
  }

  /** What is deleted is judged when the channel is found, everything else whenever. */
  predicate Harmless(ws: WorkspaceState, op: WorkspaceOp, found: Option<Channel>, p: Pair) {
    (op.DeleteChannelOp? || !Disturbs(ws, op, p)) && !Collides(op, p) && CopySuits(ws, op, found, p)
  }

  /** The two stay in every direct message of the workspace they are in. */
  ghost predicate MembersStay(ws: WorkspaceState, ws': WorkspaceState, p: Pair) {
    forall c, u :: u in {p.a, p.b} && InWorkspace(ws, c, p.w) && ws.channels.vals[c].kind == DirectMessage && (c, u) in ws.channelMembers ==>
      (c, u) in ws'.channelMembers
  }

  lemma MembersDoStay(ws: WorkspaceState, op: WorkspaceOp, found: Option<Channel>, now: nat, p: Pair)
    requires Harmless(ws, op, found, p)
    ensures MembersStay(ws, Settle(ws, op, found, now), p)
  {
    hide DmName, FindByName;
  }

  lemma CreatesKeepName(ws: WorkspaceState, op: WorkspaceOp, found: Option<Channel>, now: nat, p: Pair)
    requires WorkspaceInv(ws) && FreshIds(ws, op) && NameIsKept(ws, p) && Creates(op) && Harmless(ws, op, found, p)
    ensures NameIsKept(Settle(ws, op, found, now), p)
  {
    hide DmName, FindByName;
    NeverGeneral(p.a, p.b, p.mode);
  }

  lemma PutsKeepName(ws: WorkspaceState, op: WorkspaceOp, found: Option<Channel>, now: nat, p: Pair)
    requires WorkspaceInv(ws) && NameIsKept(ws, p) && Puts(op) && GrantFits(ws, op, found) && Harmless(ws, op, found, p)
    ensures NameIsKept(Settle(ws, op, found, now), p)
  {
    hide DmName;
  }

  lemma MembersKeepName(ws: WorkspaceState, op: WorkspaceOp, found: Option<Channel>, now: nat, p: Pair)
    requires WorkspaceInv(ws) && NameIsKept(ws, p) && !Creates(op) && !Puts(op) && Harmless(ws, op, found, p)
    ensures NameIsKept(Settle(ws, op, found, now), p)
  {
    hide DmName;
  }

  lemma SettleKeepsName(ws: WorkspaceState, op: WorkspaceOp, found: Option<Channel>, now: nat, p: Pair)
    requires WorkspaceInv(ws) && FreshIds(ws, op) && GrantFits(ws, op, found) && NameIsKept(ws, p) && Harmless(ws, op, found, p)
    ensures NameIsKept(Settle(ws, op, found, now), p)
  {
    hide WorkspaceInv, FreshIds, NameIsKept, Harmless, Settle, GrantFits;
    if Creates(op) {
      CreatesKeepName(ws, op, found, now, p);
    } else if Puts(op) {
      PutsKeepName(ws, op, found, now, p);
    } else {
      MembersKeepName(ws, op, found, now, p);
    }
  }

  lemma StaysHarmless(ws: WorkspaceState, ws': WorkspaceState, op: WorkspaceOp, found: Option<Channel>, p: Pair)
    requires WorkspaceInv(ws) && GrantFits(ws, op, found) && Harmless(ws, op, found, p)
    requires ChannelsPersist(ws, ws') && MembersStay(ws, ws', p)
    ensures Harmless(ws', op, found, p)
  {
    hide DmName;
  }

  /** What a call finds is the row, and the row suits. */
  lemma FindsHarmless(ws: WorkspaceState, op: WorkspaceOp, p: Pair)
    requires WorkspaceInv(ws) && NameIsKept(ws, p) && !Disturbs(ws, op, p) && !Collides(op, p)
    ensures Harmless(ws, op, FoundBy(ws, op), p)
  {
    hide DmName;
  }

  lemma ApplyKeepsName(ws: WorkspaceState, op: WorkspaceOp, now: nat, p: Pair)
    requires WorkspaceInv(ws) && FreshIds(ws, op) && NameIsKept(ws, p)
    requires Grants(ws, op) ==> !Disturbs(ws, op, p) && !Collides(op, p)
    ensures NameIsKept(Apply(ws, op, now), p) && MembersStay(ws, Apply(ws, op, now), p)
  {
    hide WorkspaceInv, FreshIds, NameIsKept, Disturbs, Collides, Harmless, Apply, Settle, Grants, GrantFits;
    HalvesMakeWhole(ws, op, now);
    if Grants(ws, op) {
      GrantedFits(ws, op);
      FindsHarmless(ws, op, p);
      SettleKeepsName(ws, op, FoundBy(ws, op), now, p);
      MembersDoStay(ws, op, FoundBy(ws, op), now, p);
    }
  }

  // ---------------------------------------------------------------- every interleaving

  /** The workspace call that a move makes whole or begins. */
  function CallOf(move: Move): Option<WorkspaceOp> {
    match move
    case Whole(WorkspaceCall(op)) => Some(op)
    case BeginWorkspace(_, wop) => Some(wop)
    case _ => None
  }

  /** No granted call disturbs the name, nor collides with it. */
  ghost predicate NeverSpoilt(w: World, moves: seq<TimedMove>, p: Pair)
    decreases |moves|
  {
    moves == [] || (!Spoils(w, moves[0].move, p) && NeverSpoilt(Moved(w, moves[0]), moves[1..], p))
  }

  predicate Spoils(w: World, move: Move, p: Pair) {
    var call := CallOf(move);
    call.Some? && Grants(w.s.ws, call.value) && (Disturbs(w.s.ws, call.value, p) || Collides(call.value, p))
  }

  ghost predicate CallsHarmless(w: World, p: Pair) {
    forall call :: call in w.inFlight && w.inFlight[call].Granted? ==>
      Harmless(w.s.ws, w.inFlight[call].wop, w.inFlight[call].found, p)
  }

  lemma WholeKeepsName(s: State, step: Step, p: Pair)
    requires Core(s) && Fresh(s, step.op) && NameIsKept(s.ws, p)
    requires step.op.WorkspaceCall? && Grants(s.ws, step.op.op) ==> !Disturbs(s.ws, step.op.op, p) && !Collides(step.op.op, p)
    ensures NameIsKept(Next(s, step).ws, p) && MembersStay(s.ws, Next(s, step).ws, p)
  {
    hide NameIsKept, Disturbs, Collides, MessagesOk, WorkspaceInv, Grants, Apply, FreshIds;
    if step.op.WorkspaceCall? {
      ApplyKeepsName(s.ws, step.op.op, step.now, p);
    } else {
      OthersSameWorkspaces(s, step);
    }
  }

  lemma SettledKeepsName(w: World, step: TimedMove, p: Pair)
    requires WorldInv(w) && Enabled(w, step.move) && step.move.FinishWorkspace? && NameIsKept(w.s.ws, p) && CallsHarmless(w, p)
    ensures NameIsKept(Moved(w, step).s.ws, p) && MembersStay(w.s.ws, Moved(w, step).s.ws, p)
  {
    hide MessagesOk, WorkspaceInv, BotsPlaced, BornFits, Settle, FreshIds;
    hide CopyFits, Born, NameIsKept, Harmless, MembersStay, GrantFits;
    assert Fits(w.s, w.born, w.inFlight[step.move.call]);
    var Granted(wop, found) := w.inFlight[step.move.call];
    SettleKeepsName(w.s.ws, wop, found, step.now, p);
    MembersDoStay(w.s.ws, wop, found, step.now, p);
  }

  lemma MoveKeepsName(w: World, step: TimedMove, p: Pair)
    requires WorldInv(w) && Enabled(w, step.move) && NameIsKept(w.s.ws, p) && CallsHarmless(w, p) && !Spoils(w, step.move, p)
    ensures NameIsKept(Moved(w, step).s.ws, p) && MembersStay(w.s.ws, Moved(w, step).s.ws, p)
  {
    hide WorkspaceInv, MessagesOk, BotsPlaced, BornFits, CallsFit, CallsHarmless, NameIsKept;
    hide Next, Fresh, FreshIds, Finish, Held, Born, Settle;
    hide Grants, Disturbs, Collides;
    match step.move
    case Whole(op) => WholeKeepsName(w.s, Step(op, step.now), p);
    case FinishSend(call, newId) => FinishSameWorkspaces(w.s, w.inFlight[call].actor, w.inFlight[call].input, newId, step.now);
    case FinishWorkspace(call) => SettledKeepsName(w, step, p);
    case _ =>
  }

  lemma GrantsHarmless(s: State, wop: WorkspaceOp, p: Pair)
    requires Core(s) && NameIsKept(s.ws, p) && !Disturbs(s.ws, wop, p) && !Collides(wop, p)
    ensures Harmless(s.ws, wop, FoundBy(s.ws, wop), p)
  {
    hide NameIsKept, Disturbs, Collides, Harmless, MessagesOk;
    FindsHarmless(s.ws, wop, p);
  }

  lemma HeldStaysHarmless(w: World, step: TimedMove, call: CallId, p: Pair)
    requires WorldInv(w) && Enabled(w, step.move) && NameIsKept(w.s.ws, p) && CallsHarmless(w, p) && !Spoils(w, step.move, p)
    requires call in w.inFlight && w.inFlight[call].Granted?
    ensures Harmless(Moved(w, step).s.ws, w.inFlight[call].wop, w.inFlight[call].found, p)
  {
    hide MessagesOk, BotsPlaced, BornFits, CopyFits, InputFits, NameIsKept, Harmless;
    hide Moved, Enabled, Spoils, GrantFits, MembersStay, ChannelsPersist;
    MoveKeepsName(w, step, p);
    MoveKeeps(w, step);
    assert Fits(w.s, w.born, w.inFlight[call]);
    StaysHarmless(w.s.ws, Moved(w, step).s.ws, w.inFlight[call].wop, w.inFlight[call].found, p);
  }

  lemma CallsStayHarmless(w: World, step: TimedMove, p: Pair)
    requires WorldInv(w) && Enabled(w, step.move) && NameIsKept(w.s.ws, p) && CallsHarmless(w, p) && !Spoils(w, step.move, p)
    ensures CallsHarmless(Moved(w, step), p)
  {
    hide Core, BotsPlaced, BornFits, CallsFit, NameIsKept, Harmless, Next, Fresh;
    hide FreshIds, Finish, Born, Settle, Grants, Disturbs, Collides, FoundBy;
    forall call | call in MovedCalls(w, step) && MovedCalls(w, step)[call].Granted?
      ensures Harmless(Moved(w, step).s.ws, MovedCalls(w, step)[call].wop, MovedCalls(w, step)[call].found, p)
    {
      if call in w.inFlight && w.inFlight[call] == MovedCalls(w, step)[call] {
        HeldStaysHarmless(w, step, call, p);
      } else {
        NewIsHarmless(w, step, call, p);
      }
    }
  }

  lemma NewIsHarmless(w: World, step: TimedMove, call: CallId, p: Pair)
    requires WorldInv(w) && Enabled(w, step.move) && NameIsKept(w.s.ws, p) && !Spoils(w, step.move, p)
    requires call in MovedCalls(w, step) && MovedCalls(w, step)[call].Granted?
    requires !(call in w.inFlight && w.inFlight[call] == MovedCalls(w, step)[call])
    ensures Harmless(Moved(w, step).s.ws, MovedCalls(w, step)[call].wop, MovedCalls(w, step)[call].found, p)
  {
    hide Core, BotsPlaced, BornFits, CallsFit, NameIsKept, Harmless, Next, Fresh, FreshIds;
    hide Finish, Born, Settle, Grants, Disturbs, Collides, FoundBy, Admit;
    assert step.move.BeginWorkspace?;
    GrantsHarmless(w.s, step.move.wop, p);
  }

  lemma {:induction false} AfterKeepsName(w: World, clock: nat, moves: seq<TimedMove>, p: Pair)
    requires WorldInv(w) && Possible(w, clock, moves) && NeverSpoilt(w, moves, p)
    requires NameIsKept(w.s.ws, p) && CallsHarmless(w, p)
    ensures NameIsKept(After(w, moves).s.ws, p)
    decreases |moves|
  {
    hide WorldInv, NameIsKept, CallsHarmless, Spoils, Moved, Enabled;
    if moves != [] {
      MoveKeepsName(w, moves[0], p);
      CallsStayHarmless(w, moves[0], p);
      MoveKeeps(w, moves[0]);
      AfterKeepsName(Moved(w, moves[0]), moves[0].now, moves[1..], p);
    }
  }

  lemma StartIsKept(p: Pair)
    ensures NameIsKept(Start.s.ws, p) && CallsHarmless(Start, p)
  {
  }

  // ---------------------------------------------------------------- the answer

  /** The answer is the pair's direct message of the requested mode exactly when no channel of the workspace bears its name, or
      the first that does is one. */
  lemma DmAnswerFitsIff(ws: WorkspaceState, a: UserId, w: WorkspaceId, b: UserId, mode: ChannelMode, c: ChannelId, now: nat)
    requires WorkspaceInv(ws) && c !in ws.channels.vals
    ensures var (ws', ch) := StoreDm(ws, a, w, b, mode, c, now);
      var found := FindByName(ws, w, DmName(a, b, mode));
      IsDmOf(ws', ch, a, b, mode) <==> found.None? || IsDmOf(ws, ws.channels.vals[found.value], a, b, mode)
  {
    hide DmName;
  }

  /** And both can open it exactly when no channel bears the name, or the first that does is not deleted and has both. */
  lemma DmAnswerOpensIff(ws: WorkspaceState, a: UserId, w: WorkspaceId, b: UserId, mode: ChannelMode, c: ChannelId, now: nat)
    requires WorkspaceInv(ws) && c !in ws.channels.vals
    ensures var (ws', ch) := StoreDm(ws, a, w, b, mode, c, now);
      var found := FindByName(ws, w, DmName(a, b, mode));
      CanAccessChannel(ws', a, ch.id) && CanAccessChannel(ws', b, ch.id) <==>
        found.None? || (!IsDeleted(ws, found.value) && (found.value, a) in ws.channelMembers && (found.value, b) in ws.channelMembers)
  {
    NeverGeneral(a, b, mode);
    hide DmName;
  }

  lemma KeptNameSuits(ws: WorkspaceState, p: Pair, c: ChannelId, now: nat)
    requires WorkspaceInv(ws) && c !in ws.channels.vals && NameIsKept(ws, p)
    ensures var (ws', ch) := StoreDm(ws, p.a, p.w, p.b, p.mode, c, now); Suits(ws', ch, p)
  {
    hide DmName;
  }

  /** Over every interleaving in which no granted call puts something else under the pair's name or takes either user out: what
      the store answers, to a call granted now or earlier, has the requested kind and mode and both members. */
  lemma {:induction false} DmAnswerFits(
      clock: nat, moves: seq<TimedMove>, world: World, w: WorkspaceId, a: UserId, b: UserId, mode: ChannelMode,
      c: ChannelId, now: nat)
    requires Possible(Start, clock, moves) && world == After(Start, moves) && c !in world.s.ws.channels.vals
    requires NeverSpoilt(Start, moves, Pair(w, a, b, mode, false))
    ensures var (ws', ch) := StoreDm(world.s.ws, a, w, b, mode, c, now);
      && IsDmOf(ws', ch, a, b, mode)
      && CreateOrGetDm(world.s.ws, a, w, b, mode, c, now).1 in {Fail(Forbidden), Ok(ch)}
  {
    hide NeverSpoilt, Possible, After, StoreDm, WorldInv, CallsHarmless, NameIsKept, Start, WorkspaceInv;
    NameIsKeptAfter(clock, moves, Pair(w, a, b, mode, false));
    KeptNameSuits(world.s.ws, Pair(w, a, b, mode, false), c, now);
  }

  lemma NameIsKeptAfter(clock: nat, moves: seq<TimedMove>, p: Pair)
    requires Possible(Start, clock, moves) && NeverSpoilt(Start, moves, p)
    ensures NameIsKept(After(Start, moves).s.ws, p) && WorkspaceInv(After(Start, moves).s.ws)
  {
    hide NeverSpoilt, Possible, After, CallsHarmless, NameIsKept, BornFits;
    hide CallsFit, BotsPlaced, MessagesOk, WorkspaceInv, StatePersists, Start;
    StartInv();
    StartIsKept(p);
    AfterKeepsName(Start, clock, moves, p);
    AfterKeeps(Start, clock, moves);
  }

  /** When moreover no call is granted the deletion of a channel of that name, both can open what is answered. */
  lemma {:induction false} DmAnswerOpens(
      clock: nat, moves: seq<TimedMove>, world: World, w: WorkspaceId, a: UserId, b: UserId, mode: ChannelMode,
      c: ChannelId, now: nat)
    requires Possible(Start, clock, moves) && world == After(Start, moves) && c !in world.s.ws.channels.vals
    requires NeverSpoilt(Start, moves, Pair(w, a, b, mode, true))
    ensures var (ws', ch) := StoreDm(world.s.ws, a, w, b, mode, c, now);
      IsDmOf(ws', ch, a, b, mode) && CanAccessChannel(ws', a, ch.id) && CanAccessChannel(ws', b, ch.id)
  {
    hide NeverSpoilt, Possible, After, WorldInv, CallsHarmless, Start;
    NameIsKeptAfter(clock, moves, Pair(w, a, b, mode, true));
    OpenNameOpens(world.s.ws, Pair(w, a, b, mode, true), c, now);
  }

  lemma OpenNameOpens(ws: WorkspaceState, p: Pair, c: ChannelId, now: nat)
    requires WorkspaceInv(ws) && c !in ws.channels.vals && NameIsKept(ws, p) && p.open
    ensures var (ws', ch) := StoreDm(ws, p.a, p.w, p.b, p.mode, c, now);
      IsDmOf(ws', ch, p.a, p.b, p.mode) && CanAccessChannel(ws', p.a, ch.id) && CanAccessChannel(ws', p.b, ch.id)
  {
    hide DmName;
    KeptNameSuits(ws, p, c, now);
    DmAnswerOpensIff(ws, p.a, p.w, p.b, p.mode, c, now);
  }

  // ---------------------------------------------------------------- ids without colons

  /** Direct messages are asked for between users whose ids have no colon. */
  ghost predicate ColonFreeDms(moves: seq<TimedMove>) {
    forall step :: step in moves ==>
      var call := CallOf(step.move);
      call.Some? && call.value.CreateOrGetDmOp? ==> ColonFree(call.value.actor) && ColonFree(call.value.peer)
  }

  /** No granted call disturbs the pair's name; other pairs' direct messages are not mentioned. */
  ghost predicate NeverDisturbed(w: World, moves: seq<TimedMove>, p: Pair)
    decreases |moves|
  {
    moves == []
    || (var call := CallOf(moves[0].move);
        (call.Some? && Grants(w.s.ws, call.value) ==> !Disturbs(w.s.ws, call.value, p))
        && NeverDisturbed(Moved(w, moves[0]), moves[1..], p))
  }

  /** With colon-free ids no other pair's direct message has the name. */
  lemma OtherPairsNeverCollide(op: WorkspaceOp, p: Pair)
    requires op.CreateOrGetDmOp? ==> ColonFree(op.actor) && ColonFree(op.peer)
    requires ColonFree(p.a) && ColonFree(p.b)
    ensures !Collides(op, p)
  {
    if op.CreateOrGetDmOp? && DmName(op.actor, op.peer, op.mode) == DmName(p.a, p.b, p.mode) {
      DmNameIsInjective(op.actor, op.peer, op.mode, p.a, p.b, p.mode);
    }
  }

  lemma {:induction false} UndisturbedIsUnspoilt(w: World, moves: seq<TimedMove>, p: Pair)
    requires ColonFreeDms(moves) && NeverDisturbed(w, moves, p) && ColonFree(p.a) && ColonFree(p.b)
    ensures NeverSpoilt(w, moves, p)
    decreases |moves|
  {
    hide Moved, Disturbs, Collides, Grants, ColonFree;
    if moves != [] {
      assert moves[0] in moves;
      var call := CallOf(moves[0].move);
      if call.Some? {
        OtherPairsNeverCollide(call.value, p);
      }
      UndisturbedIsUnspoilt(Moved(w, moves[0]), moves[1..], p);
    }
  }

  /** Between users whose ids have no colon, other pairs cannot get in the way: unless a room takes the pair's name or either
      user is removed, the answer is the pair's direct message; and both can open it, if none of that name was deleted either. */
  lemma {:induction false} ColonFreeDmAnswerFits(
      clock: nat, moves: seq<TimedMove>, world: World, p: Pair, c: ChannelId, now: nat)
    requires Possible(Start, clock, moves) && world == After(Start, moves) && c !in world.s.ws.channels.vals
    requires ColonFreeDms(moves) && ColonFree(p.a) && ColonFree(p.b) && NeverDisturbed(Start, moves, p)
    ensures var (ws', ch) := StoreDm(world.s.ws, p.a, p.w, p.b, p.mode, c, now);
      && IsDmOf(ws', ch, p.a, p.b, p.mode)
      && (p.open ==> CanAccessChannel(ws', p.a, ch.id) && CanAccessChannel(ws', p.b, ch.id))
  {
    hide NeverSpoilt, NeverDisturbed, ColonFreeDms, ColonFree, Possible, After, StoreDm, CanAccessChannel, Start;
    UndisturbedIsUnspoilt(Start, moves, p);
    if p.open {
      DmAnswerOpens(clock, moves, world, p.w, p.a, p.b, p.mode, c, now);
    } else {
      DmAnswerFits(clock, moves, world, p.w, p.a, p.b, p.mode, c, now);
    }
  }

  // ---------------------------------------------------------------- a room under a pair's name

  const Inviting: WorkspaceOp := AddMemberOp("u", 1, "v", Member)
  const OpeningRoom: WorkspaceOp := CreateChannelOp("u", 1, "dev", Normal, false, 2)

  function Renaming(): WorkspaceOp {
    UpdateChannelOp("u", 2, Some(DmName("u", "v", E2e)), None)
  }

  function Called(op: WorkspaceOp): Step {
    Step(WorkspaceCall(op), 0)
  }

  function Impersonating(): seq<Step> {
    [Step(Founding, 0)] + [Called(Inviting)] + [Called(OpeningRoom)] + [Called(Renaming())]
  }

  lemma WorkspaceOnly(s: State, op: WorkspaceOp)
    ensures Next(s, Called(op)) == s.(ws := Apply(s.ws, op, 0))
    ensures Fresh(s, Called(op).op) <==> FreshIds(s.ws, op)
  {
  }

  lemma Invited()
    ensures FreshIds(Founded().ws, Inviting)
    ensures var ws := Apply(Founded().ws, Inviting, 0);
      ws == Founded().ws.(roles := ws.roles) && CanAccessWorkspace(ws, "u", 1) && CanAccessWorkspace(ws, "v", 1)
  {
    FoundedIsUsable();
  }

  lemma OpenedRoom(ws: WorkspaceState)
    requires ws == Apply(Apply(Founded().ws, Inviting, 0), OpeningRoom, 0)
    ensures FreshIds(Founded().ws, Inviting) && FreshIds(Apply(Founded().ws, Inviting, 0), OpeningRoom)
    ensures ws.channels.keys == [1, 2] && ws.channels.vals.Keys == {1, 2}
    ensures ws.channels.vals[1].name == "general" && ws.channels.vals[2] == Channel(2, 1, "dev", None, Room, Normal, false, Some("u"), None, None, 0)
    ensures ws.channelMembers == {(1, "u"), (2, "u")} && CanAccessWorkspace(ws, "u", 1) && CanAccessWorkspace(ws, "v", 1)
  {
    hide DmName, Founded;
    Invited();
    FoundedChannels();
    Opens(Apply(Founded().ws, Inviting, 0));
  }

  lemma FoundedChannels()
    ensures var ws := Founded().ws;
      && ws.channels.keys == [1] && ws.channels.vals.Keys == {1} && ws.channels.vals[1].name == "general"
      && ws.channelMembers == {(1, "u")}
  {
  }

  lemma Opens(ws: WorkspaceState)
    requires CanAccessWorkspace(ws, "u", 1) && ws.channels.keys == [1] && ws.channels.vals.Keys == {1}
    requires ws.channels.vals[1].name == "general"
    ensures FreshIds(ws, OpeningRoom)
    ensures Apply(ws, OpeningRoom, 0) == WithChannel(ws, Channel(2, 1, "dev", None, Room, Normal, false, Some("u"), None, None, 0), {"u"})
  {
    assert FindByName(ws, 1, "dev").None?;
  }

  lemma RenamedRoom(ws: WorkspaceState, ws': WorkspaceState)
    requires ws == Apply(Apply(Founded().ws, Inviting, 0), OpeningRoom, 0) && ws' == Apply(ws, Renaming(), 0)
    ensures var answer := CreateOrGetDm(ws', "u", 1, "v", E2e, 3, 0).1;
      answer.Ok? && answer.value.id == 2 && answer.value.kind == Room && answer.value.mode == Normal && (2, "v") !in ws'.channelMembers
  {
    hide DmName, Apply, FindByName;
    OpenedRoom(ws);
    NeverGeneral("u", "v", E2e);
    Renames(ws);
    FirstOfName(ws');
  }

  lemma Renames(ws: WorkspaceState)
    requires 2 in ws.channels.vals && ws.channels.vals[2].createdById == Some("u") && ws.channels.vals[2].id == 2
    ensures Apply(ws, Renaming(), 0) == PutChannel(ws, ws.channels.vals[2].(name := DmName("u", "v", E2e)))
  {
    hide DmName;
  }

  lemma FirstOfName(ws: WorkspaceState)
    requires ws.channels.keys == [1, 2] && ws.channels.vals.Keys == {1, 2} && ws.channels.vals[2].workspaceId == 1
    requires ws.channels.vals[1].name != DmName("u", "v", E2e) && ws.channels.vals[2].name == DmName("u", "v", E2e)
    ensures FindByName(ws, 1, DmName("u", "v", E2e)) == Some(2)
  {
    hide DmName;
    assert [1, 2][1..] == [2];
  }

  /** A normal room renamed to the name of a pair's encrypted direct message is what the pair then gets, and one of the two is
      not even in it. */
  lemma {:induction false} RoomUnderDmName(s: State)
    requires s == Run(InitialState, Impersonating())
    ensures Legal(InitialState, 0, Impersonating())
    ensures var answer := CreateOrGetDm(s.ws, "u", 1, "v", E2e, 3, 0).1;
      answer.Ok? && answer.value.id == 2 && answer.value.kind == Room && answer.value.mode == Normal && (2, "v") !in s.ws.channelMembers
  {
    hide Legal, Run, Next, Fresh, Apply, CreateOrGetDm, DmName, Founded, FreshIds;
    FoundedRun();
    var s1 := Founded();
    WorkspaceOnly(s1, Inviting);
    var s2 := s1.(ws := Apply(s1.ws, Inviting, 0));
    OpenedRoom(Apply(s2.ws, OpeningRoom, 0));
    RunAppend(InitialState, 0, [Step(Founding, 0)], Called(Inviting));
    WorkspaceOnly(s2, OpeningRoom);
    var s3 := s2.(ws := Apply(s2.ws, OpeningRoom, 0));
    RunAppend(InitialState, 0, [Step(Founding, 0)] + [Called(Inviting)], Called(OpeningRoom));
    WorkspaceOnly(s3, Renaming());
    RenamingIsFresh(s3.ws);
    RunAppend(InitialState, 0, [Step(Founding, 0)] + [Called(Inviting)] + [Called(OpeningRoom)], Called(Renaming()));
    RenamedRoom(s3.ws, s.ws);
  }

  lemma RenamingIsFresh(ws: WorkspaceState)
    ensures FreshIds(ws, Renaming())
  {
  }

  // ---------------------------------------------------------------- a deleted direct message

  const Pairing: WorkspaceOp := CreateOrGetDmOp("u", 1, "v", E2e, 2)
  const Closing: WorkspaceOp := DeleteChannelOp("u", 2)

  function PairClosed(): seq<Step> {
    [Step(Founding, 0)] + [Called(Inviting)] + [Called(Pairing)] + [Called(Closing)]
  }

  function PairChannel(): Channel {
    Channel(2, 1, DmName("u", "v", E2e), None, DirectMessage, E2e, true, None, None, None, 0)
  }

  lemma Pairs(ws: WorkspaceState)
    requires CanAccessWorkspace(ws, "u", 1) && CanAccessWorkspace(ws, "v", 1)
    requires ws.channels.keys == [1] && ws.channels.vals.Keys == {1} && ws.channels.vals[1].name == "general"
    ensures FreshIds(ws, Pairing) && Apply(ws, Pairing, 0) == WithChannel(ws, PairChannel(), {"u", "v"})
  {
    NeverGeneral("u", "v", E2e);
    hide DmName;
    assert FindByName(ws, 1, DmName("u", "v", E2e)).None?;
  }

  lemma PairedTables(ws: WorkspaceState)
    requires ws == Apply(Apply(Founded().ws, Inviting, 0), Pairing, 0)
    ensures FreshIds(Founded().ws, Inviting) && FreshIds(Apply(Founded().ws, Inviting, 0), Pairing)
    ensures ws.channels.keys == [1, 2] && ws.channels.vals.Keys == {1, 2}
    ensures ws.channels.vals[1].name == "general" && ws.channels.vals[2] == PairChannel()
    ensures (2, "u") in ws.channelMembers && (2, "v") in ws.channelMembers
    ensures CanAccessWorkspace(ws, "u", 1) && CanAccessWorkspace(ws, "v", 1) && IsManager(ws, "u", 1)
  {
    hide Founded, DmName;
    Invited();
    FoundedChannels();
    FounderManages();
    Pairs(Apply(Founded().ws, Inviting, 0));
  }

  lemma FounderManages()
    ensures IsManager(Apply(Founded().ws, Inviting, 0), "u", 1)
  {
  }

  lemma ClosedTables(ws: WorkspaceState, ws': WorkspaceState)
    requires ws == Apply(Apply(Founded().ws, Inviting, 0), Pairing, 0) && ws' == Apply(ws, Closing, 0)
    ensures FreshIds(ws, Closing)
    ensures var answer := CreateOrGetDm(ws', "u", 1, "v", E2e, 3, 0).1;
      answer.Ok? && answer.value.id == 2 && IsDmOf(ws', answer.value, "u", "v", E2e) && IsDeleted(ws', 2)
  {
    PairedTables(ws);
    NeverGeneral("u", "v", E2e);
    hide DmName, Founded, FindByName;
    Closes(ws);
    FirstOfName(ws');
  }

  lemma Closes(ws: WorkspaceState)
    requires 2 in ws.channels.vals && ws.channels.vals[2] == PairChannel() && IsManager(ws, "u", 1)
    ensures FreshIds(ws, Closing) && Apply(ws, Closing, 0) == PutChannel(ws, PairChannel().(deletedAt := Some(0)))
  {
    hide DmName;
  }

  /** Once a pair's direct message has been deleted, the pair is answered with it all the same, and neither can open it. */
  lemma {:induction false} DeletedDmIsAnswered(s: State)
    requires s == Run(InitialState, PairClosed())
    ensures Legal(InitialState, 0, PairClosed())
    ensures var answer := CreateOrGetDm(s.ws, "u", 1, "v", E2e, 3, 0).1;
      answer.Ok? && answer.value.id == 2 && IsDmOf(s.ws, answer.value, "u", "v", E2e)
    ensures !CanAccessChannel(s.ws, "u", 2) && !CanAccessChannel(s.ws, "v", 2)
  {
    hide Legal, Run, Next, Fresh, Apply, CreateOrGetDm, DmName, Founded, FreshIds, IsDmOf;
    FoundedRun();
    var s1 := Founded();
    WorkspaceOnly(s1, Inviting);
    var s2 := s1.(ws := Apply(s1.ws, Inviting, 0));
    PairedTables(Apply(s2.ws, Pairing, 0));
    RunAppend(InitialState, 0, [Step(Founding, 0)], Called(Inviting));
    WorkspaceOnly(s2, Pairing);
    var s3 := s2.(ws := Apply(s2.ws, Pairing, 0));
    RunAppend(InitialState, 0, [Step(Founding, 0)] + [Called(Inviting)], Called(Pairing));
    WorkspaceOnly(s3, Closing);
    ClosedTables(s3.ws, Apply(s3.ws, Closing, 0));
    RunAppend(InitialState, 0, [Step(Founding, 0)] + [Called(Inviting)] + [Called(Pairing)], Called(Closing));
  }
}
