/**
 Deleted channels and removed members over every interleaving: exactly when a deleted channel stays closed, and a removed
 member out.
 */
module Access {
  import opened JsCollections
  import opened Ids
  import opened DmNames
  import opened Domain
  import opened Workspaces
  import opened MessageStore
  import opened Bots
  import opened Messages
  import opened Runs
  import opened Interleaving
  import opened Guarantees

  // ---------------------------------------------------------------- reading

  /** A page shows something only of a channel that exists and is not deleted, and only to a member: of the workspace, for the room
      called general, of the channel itself for any other.  To anyone else it is empty; to them it is the list, as visible now. */
  lemma {:induction false} PagesAreForMembers(
      s: State, actor: UserId, c: ChannelId, cursor: Option<MessageId>, limit: nat, now: nat)
    requires s.msg.messages.Valid()
    ensures var page, raw := ListPage(s, actor, c, cursor, limit, now), List(s.msg, c, cursor, limit);
      var member :=
        && c in s.ws.channels.vals && s.ws.channels.vals[c].deletedAt == None
        && if s.ws.channels.vals[c].kind == Room && s.ws.channels.vals[c].name == "general"
           then (s.ws.channels.vals[c].workspaceId, actor) in s.ws.roles else (c, actor) in s.ws.channelMembers;
      && (page.items != [] ==> member)
      && (!member ==> page == Page([], None))
      && (member ==> |page.items| == |raw| && forall i :: 0 <= i < |raw| ==> page.items[i] == Visible(raw[i], now))
      && (member ==> page.nextCursor == if limit > 0 && |raw| == limit then Some(raw[limit - 1].id) else None)
  {
    hide List, Visible;
    forall m: Message
      ensures Visible(m, now).id == m.id
    {
      SameId(m, now);
    }
  }

  lemma SameId(m: Message, now: nat)
    ensures Visible(m, now).id == m.id
  {
  }

  // ---------------------------------------------------------------- deleted channels

  ghost predicate DeletedThroughout(w: World, moves: seq<TimedMove>, c: ChannelId)
    decreases |moves|
  {
    IsDeleted(w.s.ws, c) && (moves == [] || DeletedThroughout(Moved(w, moves[0]), moves[1..], c))
  }

  /** An update or archiving that found the channel when it was not deleted. */
  predicate HoldsOpen(held: InFlight, c: ChannelId) {
    && held.Granted? && Puts(held.wop) && !held.wop.DeleteChannelOp?
    && held.found.Some? && held.found.value.id == c && held.found.value.deletedAt.None?
  }

  /** A step of the run writes back a copy of the channel that a call had found before, and that is not deleted. */
  predicate Reopens(before: map<CallId, InFlight>, step: TimedMove, c: ChannelId) {
    step.move.FinishWorkspace? && step.move.call in before && HoldsOpen(before[step.move.call], c)
  }

  ghost predicate ReopenedIn(before: map<CallId, InFlight>, moves: seq<TimedMove>, c: ChannelId) {
    exists step :: step in moves && Reopens(before, step, c)
  }

  /** Calls begun since have found the channel deleted. */
  ghost predicate LaterCopies(before: map<CallId, InFlight>, w: World, c: ChannelId) {
    forall call :: call in w.inFlight && HoldsOpen(w.inFlight[call], c) ==> call in before && before[call] == w.inFlight[call]
  }

  lemma WholeKeepsDeleted(s: State, step: Step, c: ChannelId)
    requires Core(s) && Fresh(s, step.op) && IsDeleted(s.ws, c)
    ensures IsDeleted(Next(s, step).ws, c)
  {
    hide Core, Next, Fresh, ChannelsPersist, Evolves, IsDeleted;
    StepKeepsCore(s, step);
  }

  lemma SettledReopensIff(w: World, step: TimedMove, c: ChannelId)
    requires WorldInv(w) && Enabled(w, step.move) && step.move.FinishWorkspace? && IsDeleted(w.s.ws, c)
    ensures IsDeleted(Moved(w, step).s.ws, c) <==> !HoldsOpen(w.inFlight[step.move.call], c)
  {
    hide MessagesOk, BotsPlaced, BornFits, Settle, FreshIds, CopyFits, Born;
    assert Fits(w.s, w.born, w.inFlight[step.move.call]);
    var Granted(wop, found) := w.inFlight[step.move.call];
    SettleReopensIff(w.s.ws, wop, found, step.now, c);
  }

  /** A deleted channel stays deleted through every move but one that reopens it. */
  lemma MoveReopensIff(before: map<CallId, InFlight>, w: World, step: TimedMove, c: ChannelId)
    requires WorldInv(w) && Enabled(w, step.move) && IsDeleted(w.s.ws, c)
    requires EarlierCalls(before, w) && LaterCopies(before, w, c)
    ensures IsDeleted(Moved(w, step).s.ws, c) <==> !Reopens(before, step, c)
  {
    hide BotsPlaced, BornFits, CallsFit, Core, IsDeleted, Next, Fresh, Finish, Held, Born, Settle, FreshIds;
    match step.move
    case Whole(op) => WholeKeepsDeleted(w.s, Step(op, step.now), c);
    case FinishSend(call, newId) => FinishSameWorkspaces(w.s, w.inFlight[call].actor, w.inFlight[call].input, newId, step.now);
    case FinishWorkspace(call) => SettledReopensIff(w, step, c);
    case _ =>
  }

  /** What an update finds now is deleted. */
  lemma FindsDeleted(s: State, wop: WorkspaceOp, c: ChannelId)
    requires Core(s) && IsDeleted(s.ws, c)
    ensures !HoldsOpen(Granted(wop, FoundBy(s.ws, wop)), c)
  {
  }

  lemma CopiesStaySorted(before: map<CallId, InFlight>, w: World, step: TimedMove, c: ChannelId)
    requires WorldInv(w) && Enabled(w, step.move) && IsDeleted(w.s.ws, c) && LaterCopies(before, w, c)
    ensures LaterCopies(before, Moved(w, step), c)
  {
    hide BotsPlaced, BornFits, CallsFit, Core, IsDeleted, Next, Fresh, Finish;
    hide Born, Settle, FreshIds, HoldsOpen, FoundBy, Grants, Admit;
    forall call | call in MovedCalls(w, step) && HoldsOpen(MovedCalls(w, step)[call], c)
      ensures call in w.inFlight && MovedCalls(w, step)[call] == w.inFlight[call]
    {
      NewIsNotOpen(w, step, call, c);
    }
  }

  lemma NewIsNotOpen(w: World, step: TimedMove, call: CallId, c: ChannelId)
    requires WorldInv(w) && Enabled(w, step.move) && IsDeleted(w.s.ws, c) && call in MovedCalls(w, step)
    requires HoldsOpen(MovedCalls(w, step)[call], c)
    ensures call in w.inFlight && MovedCalls(w, step)[call] == w.inFlight[call]
  {
    hide BotsPlaced, BornFits, CallsFit, Core, IsDeleted, Next, Fresh;
    hide Finish, Born, Settle, FreshIds, FoundBy, Grants, Admit;
    if step.move.BeginWorkspace? {
      FindsDeleted(w.s, step.move.wop, c);
    }
  }

  lemma {:induction false} DeletedFrom(
      before: map<CallId, InFlight>, w: World, clock: nat, moves: seq<TimedMove>, c: ChannelId)
    requires WorldInv(w) && Possible(w, clock, moves) && IsDeleted(w.s.ws, c)
    requires EarlierCalls(before, w) && LaterCopies(before, w, c)
    ensures DeletedThroughout(w, moves, c) <==> !ReopenedIn(before, moves, c)
    decreases |moves|
  {
    hide WorldInv, Moved, Enabled, Reopens, EarlierCalls, LaterCopies, IsDeleted;
    if moves != [] {
      var step, rest := moves[0], moves[1..];
      assert moves == [step] + rest;
      MoveReopensIff(before, w, step, c);
      if Reopens(before, step, c) {
        assert step in moves;
      } else {
        CopiesStaySorted(before, w, step, c);
        EarlierStay(before, w, step);
        MoveKeeps(w, step);
        DeletedFrom(before, Moved(w, step), step.now, rest, c);
        assert ReopenedIn(before, moves, c) <==> ReopenedIn(before, rest, c);
      }
    }
  }

  /** A deleted channel stays deleted through every interleaving if and only if no step writes back an undeleted copy of it
      that an update or archiving had found before. */
  lemma {:induction false} DeletedIff(w: World, clock: nat, moves: seq<TimedMove>, c: ChannelId)
    requires WorldInv(w) && Possible(w, clock, moves) && IsDeleted(w.s.ws, c)
    ensures DeletedThroughout(w, moves, c) <==> !ReopenedIn(w.inFlight, moves, c)
  {
    hide Core, BotsPlaced, BornFits, Fits, DeletedThroughout, ReopenedIn, Possible, IsDeleted;
    DeletedFrom(w.inFlight, w, clock, moves, c);
  }

  lemma {:induction false} DeletedAtTheEnd(w: World, moves: seq<TimedMove>, c: ChannelId)
    requires DeletedThroughout(w, moves, c)
    ensures IsDeleted(After(w, moves).s.ws, c)
    decreases |moves|
  {
    hide Moved, IsDeleted;
    if moves != [] {
      DeletedAtTheEnd(Moved(w, moves[0]), moves[1..], c);
    }
  }

  /** No page of it can be opened and no send to it begun. */
  ghost predicate ClosedTo(s: State, user: UserId, c: ChannelId) {
    && !CanAccessChannel(s.ws, user, c) && s.msg.messages.Valid()
    && (forall cursor, limit, t :: ListPage(s, user, c, cursor, limit, t) == Page([], None))
    && (forall input: SendInput, error :: input.channelId == c ==> Admit(s, user, input, error) == Refused(Forbidden))
  }

  lemma DeletedIsClosed(s: State, user: UserId, c: ChannelId)
    requires MessageInv(s.msg) && IsDeleted(s.ws, c)
    ensures ClosedTo(s, user, c)
  {
    NoAccessIsClosed(s, user, c);
  }

  lemma NoAccessIsClosed(s: State, user: UserId, c: ChannelId)
    requires MessageInv(s.msg) && !CanAccessChannel(s.ws, user, c)
    ensures ClosedTo(s, user, c)
  {
    hide CanAccessChannel;
  }

  /** A whole deletion that succeeds, or the second half of one. */
  predicate Deletes(w: World, step: TimedMove, c: ChannelId) {
    match step.move
    case Whole(WorkspaceCall(DeleteChannelOp(actor, c'))) => c' == c && DeleteChannel(w.s.ws, actor, c, step.now).1.Ok?
    case FinishWorkspace(call) =>
      Holds(w, call) && w.inFlight[call].Granted? && w.inFlight[call].wop.DeleteChannelOp? && w.inFlight[call].wop.c == c
    case _ => false
  }

  lemma DeletionDeletes(w: World, step: TimedMove, c: ChannelId)
    requires WorldInv(w) && Enabled(w, step.move) && Deletes(w, step, c)
    ensures IsDeleted(Moved(w, step).s.ws, c)
  {
    hide BotsPlaced, BornFits, CopyFits, MessagesOk, Born, FindByName, DmName;
    if step.move.FinishWorkspace? {
      assert Fits(w.s, w.born, w.inFlight[step.move.call]);
    }
  }

  /** Once `deleteChannel` has marked a channel it stays marked through every interleaving if and only if no step writes back an
      undeleted copy that an update or archiving had found before; and then no one can open a page of it or begin a send to
      it, not even by joining again. */
  lemma {:induction false} DeletedChannelStaysClosed(
      w: World, step: TimedMove, c: ChannelId, w1: World, moves: seq<TimedMove>, w2: World, user: UserId)
    requires WorldInv(w) && Enabled(w, step.move) && Deletes(w, step, c) && w1 == Moved(w, step)
    requires Possible(w1, step.now, moves) && w2 == After(w1, moves)
    ensures DeletedThroughout(w1, moves, c) <==> !ReopenedIn(w1.inFlight, moves, c)
    ensures !ReopenedIn(w1.inFlight, moves, c) ==> ClosedTo(w2.s, user, c)
  {
    hide Possible, After, WorldInv, Moved, Enabled, Deletes, IsDeleted, DeletedThroughout, ReopenedIn, ClosedTo, MessageInv;
    DeletionDeletes(w, step, c);
    MoveKeeps(w, step);
    DeletedIff(w1, step.now, moves, c);
    if !ReopenedIn(w1.inFlight, moves, c) {
      AfterKeeps(w1, step.now, moves);
      DeletedAtTheEnd(w1, moves, c);
      WorldMessages(w2);
      DeletedIsClosed(w2.s, user, c);
    }
  }

  // ---------------------------------------------------------------- removed members

  ghost predicate ShutOutThroughout(w: World, moves: seq<TimedMove>, user: UserId, ws: WorkspaceId)
    decreases |moves|
  {
    ShutOut(w.s.ws, user, ws) && (moves == [] || ShutOutThroughout(Moved(w, moves[0]), moves[1..], user, ws))
  }

  /** A room or direct message of the workspace that would have the user in it has passed its checks. */
  predicate HoldsOpening(held: InFlight, user: UserId, ws: WorkspaceId) {
    held.Granted? && OpensFor(held.wop, user, ws)
  }

  /** A granted `addMember` or `addChannelMember` for the user goes to the store; or a room or direct message with the user that
      had passed its checks before does, and its name is still free. */
  predicate Readmits(before: map<CallId, InFlight>, w: World, move: Move, user: UserId, ws: WorkspaceId) {
    match move
    case Whole(WorkspaceCall(op)) => Grants(w.s.ws, op) && Adds(w.s.ws, op, user, ws)
    case FinishWorkspace(call) =>
      Holds(w, call) && w.inFlight[call].Granted?
      && (Adds(w.s.ws, w.inFlight[call].wop, user, ws)
          || (call in before && HoldsOpening(before[call], user, ws) && NameIsFree(w.s.ws, before[call].wop)))
    case _ => false
  }

  ghost predicate ReadmittedIn(
      before: map<CallId, InFlight>, w: World, moves: seq<TimedMove>, user: UserId, ws: WorkspaceId)
    decreases |moves|
  {
    moves != [] && (Readmits(before, w, moves[0].move, user, ws) || ReadmittedIn(before, Moved(w, moves[0]), moves[1..], user, ws))
  }

  ghost predicate LaterOpenings(before: map<CallId, InFlight>, w: World, user: UserId, ws: WorkspaceId) {
    forall call :: call in w.inFlight && HoldsOpening(w.inFlight[call], user, ws) ==> call in before && before[call] == w.inFlight[call]
  }

  lemma StepShutOutIff(s: State, step: Step, user: UserId, w: WorkspaceId)
    requires Core(s) && Fresh(s, step.op) && ShutOut(s.ws, user, w)
    ensures ShutOut(Next(s, step).ws, user, w) <==>
      !(step.op.WorkspaceCall? && Grants(s.ws, step.op.op) && Adds(s.ws, step.op.op, user, w))
  {
    hide ShutOut, Adds, WorkspaceInv, MessagesOk, Grants, Apply, FreshIds;
    if step.op.WorkspaceCall? {
      ApplyShutOutIff(s.ws, step.op.op, step.now, user, w);
    } else if !step.op.BotCall? {
      MessageCallKept(s, step);
    }
  }

  lemma SettledShutOutIff(w: World, step: TimedMove, user: UserId, ws: WorkspaceId)
    requires WorldInv(w) && Enabled(w, step.move) && step.move.FinishWorkspace? && ShutOut(w.s.ws, user, ws)
    ensures var wop := w.inFlight[step.move.call].wop;
      ShutOut(Moved(w, step).s.ws, user, ws) <==> !(Adds(w.s.ws, wop, user, ws) || (OpensFor(wop, user, ws) && NameIsFree(w.s.ws, wop)))
  {
    hide MessagesOk, BotsPlaced, BornFits, Settle, FreshIds, CopyFits, Born, ShutOut, Adds, OpensFor, NameIsFree;
    assert Fits(w.s, w.born, w.inFlight[step.move.call]);
    var Granted(wop, found) := w.inFlight[step.move.call];
    SettleShutOutIff(w.s.ws, wop, found, step.now, user, ws);
  }

  lemma MoveShutOutIff(before: map<CallId, InFlight>, w: World, step: TimedMove, user: UserId, ws: WorkspaceId)
    requires WorldInv(w) && Enabled(w, step.move) && ShutOut(w.s.ws, user, ws)
    requires EarlierCalls(before, w) && LaterOpenings(before, w, user, ws)
    ensures ShutOut(Moved(w, step).s.ws, user, ws) <==> !Readmits(before, w, step.move, user, ws)
  {
    hide BotsPlaced, BornFits, CallsFit, Core, ShutOut, Next, Fresh, Finish;
    hide Held, Born, Settle, FreshIds, Adds, OpensFor, NameIsFree, Grants;
    match step.move
    case Whole(op) => StepShutOutIff(w.s, Step(op, step.now), user, ws);
    case FinishSend(call, newId) => FinishSameWorkspaces(w.s, w.inFlight[call].actor, w.inFlight[call].input, newId, step.now);
    case FinishWorkspace(call) => SettledShutOutIff(w, step, user, ws);
    case _ =>
  }

  lemma OpeningsStaySorted(before: map<CallId, InFlight>, w: World, step: TimedMove, user: UserId, ws: WorkspaceId)
    requires Enabled(w, step.move) && ShutOut(w.s.ws, user, ws) && LaterOpenings(before, w, user, ws)
    ensures LaterOpenings(before, Moved(w, step), user, ws)
  {
    hide ShutOut, Next, Fresh, Finish, Born, Settle, FreshIds, OpensFor, FoundBy, Grants, Admit;
    if step.move.BeginWorkspace? && OpensFor(step.move.wop, user, ws) {
      ShutOutOpensNothing(w.s.ws, step.move.wop, user, ws);
    }
  }

  lemma {:induction false} ShutOutFrom(
      before: map<CallId, InFlight>, w: World, clock: nat, moves: seq<TimedMove>, user: UserId, ws: WorkspaceId)
    requires WorldInv(w) && Possible(w, clock, moves) && ShutOut(w.s.ws, user, ws)
    requires EarlierCalls(before, w) && LaterOpenings(before, w, user, ws)
    ensures ShutOutThroughout(w, moves, user, ws) <==> !ReadmittedIn(before, w, moves, user, ws)
    decreases |moves|
  {
    hide WorldInv, Moved, Enabled, Readmits, EarlierCalls, LaterOpenings, ShutOut;
    if moves != [] {
      MoveShutOutIff(before, w, moves[0], user, ws);
      if !Readmits(before, w, moves[0].move, user, ws) {
        OpeningsStaySorted(before, w, moves[0], user, ws);
        EarlierStay(before, w, moves[0]);
        MoveKeeps(w, moves[0]);
        ShutOutFrom(before, Moved(w, moves[0]), moves[0].now, moves[1..], user, ws);
      }
    }
  }

  /** A user who is shut out of a workspace stays out through every interleaving if and only if no granted `addMember` or
      `addChannelMember` for that user goes to the store, and no room or direct message with the user that was granted before. */
  lemma {:induction false} ShutOutIff(w: World, clock: nat, moves: seq<TimedMove>, user: UserId, ws: WorkspaceId)
    requires WorldInv(w) && Possible(w, clock, moves) && ShutOut(w.s.ws, user, ws)
    ensures ShutOutThroughout(w, moves, user, ws) <==> !ReadmittedIn(w.inFlight, w, moves, user, ws)
  {
    hide Core, BotsPlaced, BornFits, Fits, ShutOutThroughout, ReadmittedIn, Possible, ShutOut;
    ShutOutFrom(w.inFlight, w, clock, moves, user, ws);
  }

  lemma {:induction false} ShutOutAtTheEnd(w: World, moves: seq<TimedMove>, user: UserId, ws: WorkspaceId)
    requires ShutOutThroughout(w, moves, user, ws)
    ensures ShutOut(After(w, moves).s.ws, user, ws)
    decreases |moves|
  {
    hide Moved, ShutOut;
    if moves != [] {
      ShutOutAtTheEnd(Moved(w, moves[0]), moves[1..], user, ws);
    }
  }

  /** A whole removal that succeeds, or the second half of one. */
  predicate Removes(w: World, step: TimedMove, user: UserId, ws: WorkspaceId) {
    match step.move
    case Whole(WorkspaceCall(RemoveMemberOp(actor, ws', user'))) => ws' == ws && user' == user && RemoveMember(w.s.ws, actor, ws, user).1.Ok?
    case FinishWorkspace(call) =>
      && Holds(w, call) && w.inFlight[call].Granted? && w.inFlight[call].wop.RemoveMemberOp?
      && w.inFlight[call].wop.w == ws && w.inFlight[call].wop.user == user
    case _ => false
  }

  lemma RemovalShutsOut(w: World, step: TimedMove, user: UserId, ws: WorkspaceId)
    requires WorldInv(w) && Enabled(w, step.move) && Removes(w, step, user, ws)
    ensures ShutOut(Moved(w, step).s.ws, user, ws)
  {
    hide BotsPlaced, BornFits, CopyFits, MessagesOk, Born, FindByName, DmName;
    if step.move.FinishWorkspace? {
      assert Fits(w.s, w.born, w.inFlight[step.move.call]);
    } else {
      RemoveMemberShutsOut(w.s.ws, step.move.op.op.actor, ws, user);
    }
  }

  /** The user lists no channel of the workspace, and can open no page of any and begin no send to any. */
  ghost predicate SeesNothing(s: State, user: UserId, w: WorkspaceId) {
    && s.ws.channels.Valid() && ListChannels(s.ws, user, w) == []
    && forall c: ChannelId :: InWorkspace(s.ws, c, w) ==> ClosedTo(s, user, c)
  }

  lemma ShutOutIsClosed(s: State, user: UserId, w: WorkspaceId)
    requires WorkspaceInv(s.ws) && MessageInv(s.msg) && ShutOut(s.ws, user, w)
    ensures SeesNothing(s, user, w)
  {
    hide ListChannels, ShutOut, ClosedTo;
    ShutOutSeesNothing(s.ws, user, w);
    forall c: ChannelId | InWorkspace(s.ws, c, w)
      ensures ClosedTo(s, user, c)
    {
      NoAccessIsClosed(s, user, c);
    }
  }

  /** Once `removeMember` has removed a user, the user stays out of the workspace through every interleaving if and only if no
      granted `addMember` or `addChannelMember` for the user goes to the store, and no room or direct message with the user
      that was granted before the removal; and then the user lists no channel of the workspace, and can open no page of
      any and begin no send to any. */
  lemma {:induction false} RemovedMemberStaysOut(
      w: World, step: TimedMove, ws: WorkspaceId, user: UserId, w1: World, moves: seq<TimedMove>, w2: World)
    requires WorldInv(w) && Enabled(w, step.move) && Removes(w, step, user, ws) && w1 == Moved(w, step)
    requires Possible(w1, step.now, moves) && w2 == After(w1, moves)
    ensures ShutOutThroughout(w1, moves, user, ws) <==> !ReadmittedIn(w1.inFlight, w1, moves, user, ws)
    ensures !ReadmittedIn(w1.inFlight, w1, moves, user, ws) ==> SeesNothing(w2.s, user, ws)
  {
    hide Possible, After, WorldInv, Moved, Enabled, Removes;
    hide ShutOut, ShutOutThroughout, ReadmittedIn, WorkspaceInv, SeesNothing, MessageInv;
    RemovalShutsOut(w, step, user, ws);
    MoveKeeps(w, step);
    ShutOutIff(w1, step.now, moves, user, ws);
    if !ReadmittedIn(w1.inFlight, w1, moves, user, ws) {
      AfterKeeps(w1, step.now, moves);
      ShutOutAtTheEnd(w1, moves, user, ws);
      WorldWorkspaces(w2);
      WorldMessages(w2);
      ShutOutIsClosed(w2.s, user, ws);
    }
  }

  lemma WorldWorkspaces(w: World)
    requires WorldInv(w)
    ensures WorkspaceInv(w.s.ws) && w.s.ws.channels.Valid()
  {
  }
}
