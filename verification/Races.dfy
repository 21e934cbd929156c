/**
 Interleaved runs from the empty store in which a second half meets what happened in between: an edit that outlives a
 deletion, a channel update that outlives the channel, a room that lets a removed member back in, a send that publishes
 another channel's ciphertext, and two rows for one client id.
 */
module Races {
  import opened JsCollections
  import opened Ids
  import opened DmNames
  import opened Domain
  import opened Workspaces
  import opened MessageStore
  import opened Bots
  import opened Messages
  import opened Runs
  import opened Interleaving
  import opened Guarantees
  import opened Access
  import opened BotEvents
  import opened Scenarios
  import opened InMemoryCreate

  function At0(move: Move): TimedMove {
    TimedMove(move, 0)
  }

  const FoundingMove: TimedMove := At0(Whole(Founding))

  /** After the founding: no messages, no bots, no calls under way. */
  lemma FoundedWorld()
    ensures Possible(Start, 0, [FoundingMove]) && After(Start, [FoundingMove]) == World(Founded(), map[], {}, map[])
  {
    hide Next, Fresh, Founded;
    FoundedIsUsable();
    assert Possible(Start, 0, []) && [] + [FoundingMove] == [FoundingMove];
    AfterAppend(Start, 0, [], FoundingMove);
    assert Born(map[], Founded().msg.messages) == map[];
  }

  // ---------------------------------------------------------------- an edit that outlives a deletion

  const PostMove: TimedMove := At0(Whole(SendCall("u", Posting("x", 1, Plaintext("one")), None, 1)))
  const EditMove: TimedMove := At0(BeginEdit(7, "u", 1, "two"))
  const DeleteMove: TimedMove := At0(Whole(SoftDeleteCall("u", 1)))
  const LateEditMove: TimedMove := At0(FinishWrite(7))

  function Post(): Message {
    SentMessage(1, "u", Posting("x", 1, Plaintext("one")), 0)
  }

  lemma PostedWorld(w: World)
    requires w == After(Start, [FoundingMove] + [PostMove])
    ensures Possible(Start, 0, [FoundingMove] + [PostMove])
    ensures w.s.msg.messages.Get(1) == Some(Post()) && w.inFlight == map[] && w.begun == {}
  {
    hide Next, Founded, Finish, OpenTo, Admit, After, Possible;
    FoundedWorld();
    FoundedIsUsable();
    var s := Founded();
    Posted(s, "x", 1, Plaintext("one"), Normal, 1);
    FinishedPost(s, "x", 1, Plaintext("one"), 1);
    AfterAppend(Start, 0, [FoundingMove], PostMove);
  }

  lemma EditBegunWorld(w: World)
    requires w == After(Start, [FoundingMove] + [PostMove] + [EditMove])
    ensures Possible(Start, 0, [FoundingMove] + [PostMove] + [EditMove])
    ensures w.s.msg.messages.Get(1) == Some(Post()) && w.inFlight == map[7 := Writing(Post(), NewText("two"))]
  {
    hide After, Possible, Born;
    var before := After(Start, [FoundingMove] + [PostMove]);
    PostedWorld(before);
    AfterAppend(Start, 0, [FoundingMove] + [PostMove], EditMove);
  }

  /** An edit finds the text, the sender deletes the message, the edit writes its copy back: readers who saw the tombstone see
      the text again. */
  lemma {:induction false} StaleEditRevives(deleted: World, revived: World)
    requires deleted == After(Start, [FoundingMove] + [PostMove] + [EditMove] + [DeleteMove])
    requires revived == After(Start, [FoundingMove] + [PostMove] + [EditMove] + [DeleteMove] + [LateEditMove])
    ensures Possible(Start, 0, [FoundingMove] + [PostMove] + [EditMove] + [DeleteMove] + [LateEditMove])
    ensures 1 in deleted.s.msg.messages.vals && DeadAt(deleted.s.msg.messages.vals[1], 0)
    ensures 1 in revived.s.msg.messages.vals && revived.s.msg.messages.vals[1].content == Plaintext("two")
    ensures !DeadAt(revived.s.msg.messages.vals[1], 0) && Revives(deleted.inFlight, LateEditMove, 1)
  {
    hide After, Possible, Next, Born;
    var begun := After(Start, [FoundingMove] + [PostMove] + [EditMove]);
    EditBegunWorld(begun);
    DeletesPost(begun.s, 1);
    AfterAppend(Start, 0, [FoundingMove] + [PostMove] + [EditMove], DeleteMove);
    AfterAppend(Start, 0, [FoundingMove] + [PostMove] + [EditMove] + [DeleteMove], LateEditMove);
  }

  // ---------------------------------------------------------------- a channel update that outlives the channel

  const DescribeMove: TimedMove := At0(BeginWorkspace(7, UpdateChannelOp("u", 1, None, Some(Some("news")))))
  const CloseMove: TimedMove := At0(Whole(WorkspaceCall(DeleteChannelOp("u", 1))))
  const LateSettleMove: TimedMove := At0(FinishWorkspace(7))

  /** A whole workspace call changes the workspace tables only. */
  lemma WorkspaceMove(w: World, op: WorkspaceOp)
    requires FreshIds(w.s.ws, op) && w.born == map[] && w.s.msg == InitialState.msg
    ensures var step := At0(Whole(WorkspaceCall(op)));
      Enabled(w, step.move) && Moved(w, step) == w.(s := w.s.(ws := Apply(w.s.ws, op, 0)))
  {
    hide Apply, FreshIds;
    assert Born(map[], w.s.msg.messages) == map[];
  }

  lemma DescribeBegun(w: World)
    requires w == After(Start, [FoundingMove] + [DescribeMove])
    ensures Possible(Start, 0, [FoundingMove] + [DescribeMove])
    ensures w.s == Founded() && w.born == map[] && 1 in w.s.ws.channels.vals
    ensures w.inFlight == map[7 := Granted(UpdateChannelOp("u", 1, None, Some(Some("news"))), Some(w.s.ws.channels.vals[1]))]
  {
    hide After, Possible;
    FoundedWorld();
    AfterAppend(Start, 0, [FoundingMove], DescribeMove);
    assert Born(map[], Founded().msg.messages) == map[];
  }

  lemma ReopenedTables(ws: WorkspaceState)
    requires ws == Apply(Founded().ws, DeleteChannelOp("u", 1), 0)
    ensures IsDeleted(ws, 1) && 1 in Founded().ws.channels.vals && Founded().ws.channels.vals[1].id == 1
    ensures Founded().ws.channels.vals[1].deletedAt.None?
    ensures var ws' := Settle(ws, UpdateChannelOp("u", 1, None, Some(Some("news"))), Some(Founded().ws.channels.vals[1]), 0);
      !IsDeleted(ws', 1) && CanAccessChannel(ws', "u", 1)
  {
  }

  /** An update finds the channel, the channel is deleted, the update writes its copy back: the channel is open again. */
  lemma {:induction false} StaleUpdateReopens(deleted: World, reopened: World)
    requires deleted == After(Start, [FoundingMove] + [DescribeMove] + [CloseMove])
    requires reopened == After(Start, [FoundingMove] + [DescribeMove] + [CloseMove] + [LateSettleMove])
    ensures Possible(Start, 0, [FoundingMove] + [DescribeMove] + [CloseMove] + [LateSettleMove])
    ensures IsDeleted(deleted.s.ws, 1) && Reopens(deleted.inFlight, LateSettleMove, 1)
    ensures !IsDeleted(reopened.s.ws, 1) && CanAccessChannel(reopened.s.ws, "u", 1)
  {
    hide After, Possible, Born, Apply, Settle, IsDeleted, CanAccessChannel, Founded;
    var begun := After(Start, [FoundingMove] + [DescribeMove]);
    DescribeBegun(begun);
    FoundedIsUsable();
    ReopenedTables(Apply(Founded().ws, DeleteChannelOp("u", 1), 0));
    WorkspaceMove(begun, DeleteChannelOp("u", 1));
    AfterAppend(Start, 0, [FoundingMove] + [DescribeMove], CloseMove);
    AfterAppend(Start, 0, [FoundingMove] + [DescribeMove] + [CloseMove], LateSettleMove);
  }

  // ---------------------------------------------------------------- a room that lets a removed member back in

  const InviteMove: TimedMove := At0(Whole(WorkspaceCall(AddMemberOp("u", 1, "v", Member))))
  const OpenRoomMove: TimedMove := At0(BeginWorkspace(7, GrantedRoom))
  const RemoveMove: TimedMove := At0(Whole(WorkspaceCall(RemoveMemberOp("u", 1, "v"))))

  const GrantedRoom: WorkspaceOp := CreateChannelOp("v", 1, "dev", Normal, true, 2)

  function InvitedTables(): WorkspaceState {
    Apply(Founded().ws, AddMemberOp("u", 1, "v", Member), 0)
  }

  lemma RemovedTables(ws: WorkspaceState)
    requires ws == Apply(InvitedTables(), RemoveMemberOp("u", 1, "v"), 0)
    ensures Grants(InvitedTables(), GrantedRoom) && FreshIds(ws, GrantedRoom) && ShutOut(ws, "v", 1) && NameIsFree(ws, GrantedRoom)
    ensures var ws' := Settle(ws, GrantedRoom, None, 0);
      InWorkspace(ws', 2, 1) && CanAccessChannel(ws', "v", 2) && !CanAccessWorkspace(ws', "v", 1)
  {
  }

  lemma RoomBegun(w: World)
    requires w == After(Start, [FoundingMove] + [InviteMove] + [OpenRoomMove])
    ensures Possible(Start, 0, [FoundingMove] + [InviteMove] + [OpenRoomMove])
    ensures w.s == Founded().(ws := InvitedTables()) && w.born == map[]
    ensures w.inFlight == map[7 := Granted(GrantedRoom, None)]
  {
    hide After, Possible, Apply, Grants, Founded;
    FoundedWorld();
    FoundedIsUsable();
    RemovedTables(Apply(InvitedTables(), RemoveMemberOp("u", 1, "v"), 0));
    WorkspaceMove(World(Founded(), map[], {}, map[]), AddMemberOp("u", 1, "v", Member));
    AfterAppend(Start, 0, [FoundingMove], InviteMove);
    AfterAppend(Start, 0, [FoundingMove] + [InviteMove], OpenRoomMove);
    assert Born(map[], Founded().msg.messages) == map[];
  }

  /** A member is granted a new room, is removed, and then the room is stored: with no role in the workspace, the removed user
      is in a channel of it. */
  lemma {:induction false} GrantedRoomReadmits(removed: World, returned: World)
    requires removed == After(Start, [FoundingMove] + [InviteMove] + [OpenRoomMove] + [RemoveMove])
    requires returned == After(Start, [FoundingMove] + [InviteMove] + [OpenRoomMove] + [RemoveMove] + [LateSettleMove])
    ensures Possible(Start, 0, [FoundingMove] + [InviteMove] + [OpenRoomMove] + [RemoveMove] + [LateSettleMove])
    ensures ShutOut(removed.s.ws, "v", 1) && Readmits(removed.inFlight, removed, LateSettleMove.move, "v", 1)
    ensures InWorkspace(returned.s.ws, 2, 1) && CanAccessChannel(returned.s.ws, "v", 2) && !CanAccessWorkspace(returned.s.ws, "v", 1)
  {
    hide After, Possible, Born, Apply, Settle, ShutOut, Founded, NameIsFree, CanAccessChannel, InvitedTables;
    var begun := After(Start, [FoundingMove] + [InviteMove] + [OpenRoomMove]);
    RoomBegun(begun);
    FoundedIsUsable();
    RemovedTables(Apply(InvitedTables(), RemoveMemberOp("u", 1, "v"), 0));
    WorkspaceMove(begun, RemoveMemberOp("u", 1, "v"));
    AfterAppend(Start, 0, [FoundingMove] + [InviteMove] + [OpenRoomMove], RemoveMove);
    AfterAppend(Start, 0, [FoundingMove] + [InviteMove] + [OpenRoomMove] + [RemoveMove], LateSettleMove);
  }

  // ---------------------------------------------------------------- a send that publishes another channel's ciphertext

  const TheBot: Manifest := Manifest("b", [], false)
  const Secret: Content := Ciphertext("c", false, None, [])

  const VaultMove: TimedMove := At0(Whole(WorkspaceCall(CreateChannelOp("u", 1, "vault", E2e, false, 2))))
  const InstallMove: TimedMove := At0(Whole(BotCall(InstallOp(1, TheBot))))
  const JoinMove: TimedMove := At0(Whole(BotCall(AddToChannelOp("b", 1))))
  const ListenMove: TimedMove := At0(Whole(BotCall(SubscribeOp("b", MessageCreated))))
  const BeginMove: TimedMove := At0(BeginSend(7, "u", Posting("x", 1, Plaintext("hi")), None))
  const SecretMove: TimedMove := At0(Whole(SendCall("u", Posting("x", 2, Secret), None, 1)))
  const FinishMove: TimedMove := At0(FinishSend(7, 2))

  function Listening(): seq<TimedMove> {
    [FoundingMove] + [VaultMove] + [InstallMove] + [JoinMove] + [ListenMove]
  }

  /** Channel 1 is normal, channel 2 end-to-end encrypted; a bot listens in channel 1; nothing has been sent. */
  ghost predicate AllSet(w: World) {
    && OpenTo(w.s, 1, Normal) && OpenTo(w.s, 2, E2e) && w.s.msg == InitialState.msg
    && w.s.bot.bots.vals == map["b" := Bot(1, TheBot, {1}, {MessageCreated})] && w.s.bot.queues == map[]
    && w.inFlight == map[] && w.begun == {} && w.born == map[]
  }

  lemma VaultWorld(w: World)
    requires w == After(Start, [FoundingMove] + [VaultMove])
    ensures Possible(Start, 0, [FoundingMove] + [VaultMove])
    ensures OpenTo(w.s, 1, Normal) && OpenTo(w.s, 2, E2e) && w.s.msg == InitialState.msg && w.s.bot == InitialState.bot
    ensures w.inFlight == map[] && w.begun == {} && w.born == map[]
  {
    hide Next, Founded, OpenTo, After, Possible, Fresh;
    FoundedWorld();
    FoundedIsUsable();
    NotOpenYet("vault");
    ChannelAdded(Founded(), 2, "vault", E2e, 1, Normal);
    AfterAppend(Start, 0, [FoundingMove], VaultMove);
    assert Born(map[], w.s.msg.messages) == map[];
  }

  lemma BotMove(w: World, step: TimedMove)
    requires step.move.Whole? && step.move.op.BotCall? && step.now == 0 && w.born == map[] && w.s.msg == InitialState.msg
    ensures Enabled(w, step.move)
    ensures Moved(w, step) == w.(s := w.s.(bot := ApplyBotOp(w.s, step.move.op.botOp)))
  {
    hide ApplyBotOp;
    assert Born(map[], w.s.msg.messages) == map[];
  }

  lemma ListeningWorld(w: World)
    requires w == After(Start, Listening())
    ensures Possible(Start, 0, Listening()) && AllSet(w)
  {
    hide OpenTo, After, Possible, Moved, Enabled, InitialState;
    NothingYet();
    var w2 := After(Start, [FoundingMove] + [VaultMove]);
    VaultWorld(w2);
    BotMove(w2, InstallMove);
    AfterAppend(Start, 0, [FoundingMove] + [VaultMove], InstallMove);
    var w3 := Moved(w2, InstallMove);
    BotMove(w3, JoinMove);
    AfterAppend(Start, 0, [FoundingMove] + [VaultMove] + [InstallMove], JoinMove);
    var w4 := Moved(w3, JoinMove);
    BotMove(w4, ListenMove);
    AfterAppend(Start, 0, [FoundingMove] + [VaultMove] + [InstallMove] + [JoinMove], ListenMove);
    OpenFacts(w2.s);
    assert w3.s.bot.bots.vals == map["b" := Bot(1, TheBot, {}, {})];
    assert {} + {1} == {1} && {} + {MessageCreated} == {MessageCreated};
    assert w4.s.bot.bots.vals == map["b" := Bot(1, TheBot, {1}, {})];
    assert w == Moved(w4, ListenMove);
    assert w.s.bot.bots.vals == map["b" := Bot(1, TheBot, {1}, {MessageCreated})];
    SameUsers(w2.s, w.s, 1, Normal);
    SameUsers(w2.s, w.s, 2, E2e);
  }

  lemma NothingYet()
    ensures InitialState.bot.bots.vals == map[] && InitialState.bot.queues == map[]
  {
  }

  lemma OpenFacts(s: State)
    requires OpenTo(s, 1, Normal)
    ensures 1 in s.ws.channels.vals && s.ws.channels.vals[1].mode == Normal
  {
  }

  /** The send to channel 1 has passed its checks; then the same client id went, encrypted, to channel 2. */
  lemma RacedWorld(w: World)
    requires w == After(Start, Listening() + [BeginMove] + [SecretMove])
    ensures Possible(Start, 0, Listening() + [BeginMove] + [SecretMove])
    ensures w.inFlight == map[7 := Sending("u", Posting("x", 1, Plaintext("hi")), None)]
    ensures w.s.msg == Inserted(InitialState.msg, SentMessage(1, "u", Posting("x", 2, Secret), 0), {})
    ensures w.s.bot.bots.vals == map["b" := Bot(1, TheBot, {1}, {MessageCreated})] && w.s.bot.queues == map[]
    ensures IsNormal(w.s.ws, 1)
  {
    hide After, Possible, Admit, Finish, OpenTo, Inserted, Next;
    var w0 := After(Start, Listening());
    ListeningWorld(w0);
    OpenFacts(w0.s);
    Posted(w0.s, "x", 1, Plaintext("hi"), Normal, 9);
    AfterAppend(Start, 0, Listening(), BeginMove);
    var w1 := Moved(w0, BeginMove);
    assert w1.s == w0.s;
    Posted(w1.s, "x", 2, Secret, E2e, 1);
    FinishedPost(w1.s, "x", 2, Secret, 1);
    FinishedSecret(w1.s);
    AfterAppend(Start, 0, Listening() + [BeginMove], SecretMove);
    assert (set f: FileId | f in Attachments(Secret)) == {};
  }

  lemma FinishedSecret(s: State)
    requires OpenTo(s, 2, E2e)
    ensures Finish(s, "u", Posting("x", 2, Secret), 1, 0).state.bot == s.bot
  {
    hide Create;
  }

  /** The second half then publishes the ciphertext of channel 2 to the bot of channel 1, under channel 1's id, and stores
      nothing: one `message.created` event, no new message. */
  lemma {:induction false} RacingSendPublishesCiphertext(before: World, after: World)
    requires before == After(Start, Listening() + [BeginMove] + [SecretMove])
    requires after == After(Start, Listening() + [BeginMove] + [SecretMove] + [FinishMove])
    ensures Possible(Start, 0, Listening() + [BeginMove] + [SecretMove] + [FinishMove])
    ensures "b" in after.s.bot.queues && |after.s.bot.queues["b"]| == 1
    ensures var e := after.s.bot.queues["b"][0];
      e.channelId == 1 && e.payload == MessagePayload(SentMessage(1, "u", Posting("x", 2, Secret), 0)) && !Plain(e)
    ensures after.s.msg == before.s.msg && Repeats(before, FinishMove.move) && Leaks(before, FinishMove.move)
  {
    hide After, Possible;
    RacedWorld(before);
    AfterAppend(Start, 0, Listening() + [BeginMove] + [SecretMove], FinishMove);
    assert Matches(before.s.bot, "b", 1, MessageCreated);
  }

  // ---------------------------------------------------------------- two rows for one client id

  function Twin(id: MessageId): Message {
    SentMessage(id, "u", Posting("x", 1, Plaintext("one")), 0)
  }

  function TwinCall(): InFlight {
    Sending("u", Posting("x", 1, Plaintext("one")), None)
  }

  function Split0(move: SplitMove): SplitStep {
    SplitStep(move, 0)
  }

  const SplitFounding: SplitStep := Split0(Other(Whole(Founding)))
  const BeginTwin1: SplitStep := Split0(Other(BeginSend(1, "u", Posting("x", 1, Plaintext("one")), None)))
  const BeginTwin2: SplitStep := Split0(Other(BeginSend(2, "u", Posting("x", 1, Plaintext("one")), None)))
  const Look1: SplitStep := Split0(Look(1, 1))
  const Look2: SplitStep := Split0(Look(2, 2))
  const Insert1: SplitStep := Split0(Insert(1, 1))
  const Insert2: SplitStep := Split0(Insert(2, 2))

  function BothBegun(): seq<SplitStep> {
    [SplitFounding] + [BeginTwin1] + [BeginTwin2]
  }

  lemma FoundedOnce()
    ensures SplitPossible(SplitStart, 0, [SplitFounding])
    ensures SplitAfter(SplitStart, [SplitFounding]) == SplitWorld(World(Founded(), map[], {}, map[]), {}, map[])
  {
    hide Next, Fresh, Founded;
    FoundedIsUsable();
    assert SplitPossible(SplitStart, 0, []) && [] + [SplitFounding] == [SplitFounding];
    SplitAppend(SplitStart, 0, [], SplitFounding);
    assert Born(map[], Founded().msg.messages) == map[];
  }

  /** Beginning a send changes nothing but the calls in flight. */
  lemma TwinBegins(sw: SplitWorld, call: CallId)
    requires sw.w.s == Founded() && call !in sw.w.begun && sw.w.born == map[]
    ensures var step := Split0(Other(BeginSend(call, "u", Posting("x", 1, Plaintext("one")), None)));
      && SplitEnabled(sw, step.move)
      && SplitMoved(sw, step) == sw.(w := World(sw.w.s, sw.w.inFlight[call := TwinCall()], sw.w.begun + {call}, map[]))
  {
    hide Admit, Founded, Finish, OpenTo;
    FoundedIsUsable();
    Posted(Founded(), "x", 1, Plaintext("one"), Normal, 1);
    assert Born(map[], Founded().msg.messages) == map[];
  }

  lemma TwinsBegun(sw: SplitWorld)
    requires sw == SplitAfter(SplitStart, BothBegun())
    ensures SplitPossible(SplitStart, 0, BothBegun()) && SplitClock(0, BothBegun()) == 0
    ensures sw.w.s == Founded() && sw.w.inFlight == map[1 := TwinCall(), 2 := TwinCall()] && sw.looked == {} && sw.rows == map[]
  {
    hide SplitAfter, SplitPossible, Founded, SplitMoved, SplitEnabled;
    FoundedOnce();
    var w1 := SplitAfter(SplitStart, [SplitFounding]);
    TwinBegins(w1, 1);
    SplitAppend(SplitStart, 0, [SplitFounding], BeginTwin1);
    var w2 := SplitMoved(w1, BeginTwin1);
    TwinBegins(w2, 2);
    SplitAppend(SplitStart, 0, [SplitFounding] + [BeginTwin1], BeginTwin2);
  }

  lemma TwinsLooked(sw: SplitWorld)
    requires sw == SplitAfter(SplitStart, BothBegun() + [Look1] + [Look2])
    ensures SplitPossible(SplitStart, 0, BothBegun() + [Look1] + [Look2])
    ensures sw.w.s == Founded() && sw.w.inFlight == map[1 := TwinCall(), 2 := TwinCall()] && sw.looked == {1, 2} && sw.rows == map[]
  {
    hide SplitAfter, SplitPossible, Founded, BothBegun, Finish;
    TwinsBegun(SplitAfter(SplitStart, BothBegun()));
    FoundedIsUsable();
    SplitAppend(SplitStart, 0, BothBegun(), Look1);
    SplitAppend(SplitStart, 0, BothBegun() + [Look1], Look2);
    assert {} + {1} + {2} == {1, 2};
  }

  /** An insert of a twin row, whatever the index says. */
  lemma TwinInserts(sw: SplitWorld, call: CallId, id: MessageId)
    requires call in sw.looked && Holds(sw.w, call) && sw.w.inFlight[call] == TwinCall() && id !in sw.w.s.msg.messages.vals
    ensures var step := Split0(Insert(call, id));
      var sw' := SplitMoved(sw, step);
      && SplitEnabled(sw, step.move)
      && sw'.w.s.msg == Inserted(sw.w.s.msg, Twin(id), {}) && sw'.w.inFlight == sw.w.inFlight - {call} && sw'.looked == sw.looked - {call}
  {
    hide Publish, Inserted, Born;
    assert (set f: FileId | f in Attachments(Plaintext("one"))) == {};
  }

  /** Two sends of one client id both look before either inserts: the store ends with two rows for it. */
  lemma {:induction false} TwoRowsForOneClientId(sw: SplitWorld)
    requires sw == SplitAfter(SplitStart, BothBegun() + [Look1] + [Look2] + [Insert1] + [Insert2])
    ensures SplitPossible(SplitStart, 0, BothBegun() + [Look1] + [Look2] + [Insert1] + [Insert2])
    ensures sw.w.s.msg.messages.Get(1) == Some(Twin(1)) && sw.w.s.msg.messages.Get(2) == Some(Twin(2))
    ensures ClientKey(Twin(1)) == ClientKey(Twin(2)) && !OneRowPerKey(sw.w.s.msg.messages)
  {
    hide SplitAfter, SplitPossible, SplitMoved, SplitEnabled, Founded, BothBegun;
    var w0 := SplitAfter(SplitStart, BothBegun() + [Look1] + [Look2]);
    TwinsLooked(w0);
    FoundedIsUsable();
    TwinInserts(w0, 1, 1);
    SplitAppend(SplitStart, 0, BothBegun() + [Look1] + [Look2], Insert1);
    var w1 := SplitMoved(w0, Insert1);
    TwinInserts(w1, 2, 2);
    SplitAppend(SplitStart, 0, BothBegun() + [Look1] + [Look2] + [Insert1], Insert2);
    assert 1 in sw.w.s.msg.messages.vals && 2 in sw.w.s.msg.messages.vals;
  }
}
