/**
 Runs from the empty store in which the exact conditions elsewhere fail: each is an input the service can receive.
 */
module Scenarios {
  import opened JsCollections
  import opened Ids
  import opened DmNames
  import opened Domain
  import opened Workspaces
  import opened MessageStore
  import opened Bots
  import opened Messages
  import opened Runs

  // ---------------------------------------------------------------- a workspace with its general channel

  const Founding: Op := WorkspaceCall(CreateWorkspaceOp("u", "acme", 1, 1))

  function Founded(): State {
    InitialState.(ws := CreateWorkspace(InitialState.ws, "u", "acme", 1, 1, 0))
  }

  function Plaintext(text: string): Content {
    Text(text, [])
  }

  function Posting(client: string, c: ChannelId, content: Content): SendInput {
    SendInput(1, c, Chosen(client), content, None)
  }

  /** User "u" may use channel `c`, which holds messages of mode `mode`. */
  ghost predicate OpenTo(s: State, c: ChannelId, mode: ChannelMode) {
    && c in s.ws.channels.vals && s.ws.channels.vals[c].workspaceId == 1
    && s.ws.channels.vals[c].mode == mode && CanAccessChannel(s.ws, "u", c)
  }

  lemma FoundedIsUsable()
    ensures Next(InitialState, Step(Founding, 0)) == Founded() && Fresh(InitialState, Founding)
    ensures OpenTo(Founded(), 1, Normal) && Founded().msg == InitialState.msg && Founded().bot == InitialState.bot
    ensures Founded().ws.channels.keys == [1] && Founded().ws.channels.vals.Keys == {1} && CanAccessWorkspace(Founded().ws, "u", 1)
  {
  }

  lemma FoundedRun()
    ensures Legal(InitialState, 0, [Step(Founding, 0)]) && Run(InitialState, [Step(Founding, 0)]) == Founded()
  {
    hide Next, Fresh, Founded;
    FoundedIsUsable();
    assert Legal(InitialState, 0, []) && [] + [Step(Founding, 0)] == [Step(Founding, 0)];
    RunAppend(InitialState, 0, [], Step(Founding, 0));
  }

  /** Sending where nothing has the client id stores the message, and with no bots that is all. */
  lemma Posted(s: State, client: string, c: ChannelId, content: Content, mode: ChannelMode, id: MessageId)
    requires OpenTo(s, c, mode) && (mode == E2e <==> content.Ciphertext?)
    requires ("u", Chosen(client)) !in s.msg.byClientId
    ensures var input := Posting(client, c, content);
      && Admit(s, "u", input, None) == Admitted
      && Next(s, Step(SendCall("u", input, None, id), 0)) == Finish(s, "u", input, id, 0).state
  {
    hide Finish, CanAccessChannel;
  }

  lemma FinishedPost(s: State, client: string, c: ChannelId, content: Content, id: MessageId)
    requires ("u", Chosen(client)) !in s.msg.byClientId
    ensures var input := Posting(client, c, content);
      var m := SentMessage(id, "u", input, 0);
      var s' := Finish(s, "u", input, id, 0).state;
      && s'.ws == s.ws && s'.msg == Inserted(s.msg, m, set f | f in Attachments(content))
  {
    hide Publish;
  }

  lemma ChannelAdded(s: State, c: ChannelId, name: string, mode: ChannelMode, was: ChannelId, wasMode: ChannelMode)
    requires OpenTo(s, was, wasMode) && CanAccessWorkspace(s.ws, "u", 1) && c !in s.ws.channels.vals
    requires FindByName(s.ws, 1, name).None? && name != "general"
    ensures var step := Step(WorkspaceCall(CreateChannelOp("u", 1, name, mode, false, c)), 0);
      && Fresh(s, step.op)
      && OpenTo(Next(s, step), was, wasMode) && OpenTo(Next(s, step), c, mode) && CanAccessWorkspace(Next(s, step).ws, "u", 1)
      && Next(s, step).msg == s.msg && Next(s, step).bot == s.bot
  {
  }

  // ---------------------------------------------------------------- a cursor from another channel

  const Opening: Step := Step(WorkspaceCall(CreateChannelOp("u", 1, "dev", Normal, false, 2)), 0)
  const PostingOne: Step := Step(SendCall("u", Posting("x", 1, Plaintext("one")), None, 1), 0)
  const PostingTwo: Step := Step(SendCall("u", Posting("y", 2, Plaintext("two")), None, 2), 0)

  function TwoChannels(): seq<Step> {
    [Step(Founding, 0)] + [Opening] + [PostingOne] + [PostingTwo]
  }

  lemma OpenedRun(s: State)
    requires s == Run(InitialState, [Step(Founding, 0)] + [Opening])
    ensures Legal(InitialState, 0, [Step(Founding, 0)] + [Opening])
    ensures OpenTo(s, 1, Normal) && OpenTo(s, 2, Normal) && s.msg == InitialState.msg
  {
    hide Run, Legal, Next, Fresh, OpenTo, Founded, InitialState;
    FoundedRun();
    FoundedIsUsable();
    NotOpenYet("dev");
    ChannelAdded(Founded(), 2, "dev", Normal, 1, Normal);
    RunAppend(InitialState, 0, [Step(Founding, 0)], Opening);
  }

  lemma NotOpenYet(name: string)
    requires name != "general"
    ensures FindByName(Founded().ws, 1, name).None? && 2 !in Founded().ws.channels.vals
  {
    FoundedIsUsable();
  }

  /** A send into an open channel under a new client id and message id. */
  lemma PostedRun(s: State, client: string, c: ChannelId, text: string, id: MessageId)
    requires OpenTo(s, c, Normal) && ("u", Chosen(client)) !in s.msg.byClientId && id !in s.msg.messages.vals
    ensures var step := Step(SendCall("u", Posting(client, c, Plaintext(text)), None, id), 0);
      && Fresh(s, step.op) && Next(s, step).ws == s.ws
      && Next(s, step).msg == Inserted(s.msg, SentMessage(id, "u", Posting(client, c, Plaintext(text)), 0), {})
  {
    hide Next, Finish, Admit, OpenTo, Inserted;
    Posted(s, client, c, Plaintext(text), Normal, id);
    FinishedPost(s, client, c, Plaintext(text), id);
    FreshSend(s, SendCall("u", Posting(client, c, Plaintext(text)), None, id));
    assert (set f: FileId | f in Attachments(Plaintext(text))) == {};
  }

  /** The state after the four calls: message 1 in channel 1, message 2 in channel 2. */
  lemma TwoChannelsRun(s: State)
    requires s == Run(InitialState, TwoChannels())
    ensures Legal(InitialState, 0, TwoChannels())
    ensures s.msg.messages == Empty<MessageId, Message>().Set(1, SentMessage(1, "u", Posting("x", 1, Plaintext("one")), 0))
                                .Set(2, SentMessage(2, "u", Posting("y", 2, Plaintext("two")), 0))
  {
    hide Run, Legal, Next, Fresh, OpenTo;
    var s2 := Run(InitialState, [Step(Founding, 0)] + [Opening]);
    OpenedRun(s2);
    PostedRun(s2, "x", 1, "one", 1);
    RunAppend(InitialState, 0, [Step(Founding, 0)] + [Opening], PostingOne);
    var s3 := Next(s2, PostingOne);
    SameUsers(s2, s3, 2, Normal);
    PostedRun(s3, "y", 2, "two", 2);
    RunAppend(InitialState, 0, [Step(Founding, 0)] + [Opening] + [PostingOne], PostingTwo);
  }

  lemma FreshSend(s: State, op: Op)
    requires op.SendCall? && op.newId !in s.msg.messages.vals
    ensures Fresh(s, op)
  {
  }

  lemma SameUsers(s: State, s': State, c: ChannelId, mode: ChannelMode)
    requires OpenTo(s, c, mode) && s'.ws == s.ws
    ensures OpenTo(s', c, mode)
  {
  }

  /** A cursor of another channel: the in-memory list starts over, the PostgreSQL list does not. */
  lemma {:induction false} ForeignCursorRestarts(s: State)
    requires s == Run(InitialState, TwoChannels())
    ensures Legal(InitialState, 0, TwoChannels())
    ensures s.msg.messages.Valid() && s.msg.messages.vals.Keys == {1, 2} && s.msg.messages.vals[2].channelId == 2
    ensures List(s.msg, 1, Some(2), 1) == [s.msg.messages.vals[1]] && ListRange(s.msg, 1, Some(2), 1) == []
  {
    hide Legal, Run, TwoChannels, List, ListRange;
    TwoChannelsRun(s);
    TwoMessages(s.msg, SentMessage(1, "u", Posting("x", 1, Plaintext("one")), 0), SentMessage(2, "u", Posting("y", 2, Plaintext("two")), 0));
  }

  lemma TwoMessages(msg: MessageState, a: Message, b: Message)
    requires msg.messages == Empty<MessageId, Message>().Set(1, a).Set(2, b)
    requires a.id == 1 && b.id == 2 && a.channelId == 1 && b.channelId == 2
    ensures msg.messages.Valid() && msg.messages.vals.Keys == {1, 2} && msg.messages.vals[1] == a && msg.messages.vals[2] == b
    ensures List(msg, 1, Some(2), 1) == [a] && ListRange(msg, 1, Some(2), 1) == []
  {
    hide Filter, SortById;
    var values := msg.messages.Values();
    assert values == [a, b];
    FirstOnly(a, b);
    OneMessage(a);
    RangeIsEmpty(a);
  }

  lemma FirstOnly(a: Message, b: Message)
    requires a.channelId == 1 && b.channelId == 2
    ensures Filter([a, b], InChannel(1)) == [a]
  {
    assert [a, b][1..] == [b] && [b][1..] == [];
  }

  lemma OneMessage(a: Message)
    requires a.id == 1
    ensures SortById([a]) == [a] && StartAfter([a], 2) == 0
  {
    assert [a][1..] == [];
  }

  lemma RangeIsEmpty(a: Message)
    requires a.id == 1
    ensures Filter([a], (m: Message) => Some(2).Some? ==> m.id > Some(2).value) == []
  {
    assert [a][1..] == [];
  }

  // ---------------------------------------------------------------- an acknowledged deletion

  const DeletingOne: Step := Step(SoftDeleteCall("u", 1), 0)
  const Acking: Step := Step(AckReadCall("u", 1), 0)

  function Deleting(): seq<Step> {
    [Step(Founding, 0)] + [PostingOne] + [DeletingOne]
  }

  lemma DeletingRun(s: State)
    requires s == Run(InitialState, Deleting())
    ensures Legal(InitialState, 0, Deleting()) && OpenTo(s, 1, Normal)
    ensures 1 in s.msg.messages.vals
    ensures s.msg.messages.vals[1] == Entomb(SentMessage(1, "u", Posting("x", 1, Plaintext("one")), 0), Deleted, 0)
  {
    hide Run, Legal, Fresh, OpenTo, Next, Entomb, Founded;
    FoundedRun();
    FoundedIsUsable();
    var s1 := Founded();
    PostedRun(s1, "x", 1, "one", 1);
    RunAppend(InitialState, 0, [Step(Founding, 0)], PostingOne);
    var s2 := Next(s1, PostingOne);
    SameUsers(s1, s2, 1, Normal);
    DeletesPost(s2, 1);
    RunAppend(InitialState, 0, [Step(Founding, 0)] + [PostingOne], DeletingOne);
    SameUsers(s2, s, 1, Normal);
  }

  lemma {:induction false} RunAppend(s: State, clock: nat, run: seq<Step>, step: Step)
    requires Legal(s, clock, run) && Clock(clock, run) <= step.now && Fresh(Run(s, run), step.op)
    ensures Legal(s, clock, run + [step]) && Run(s, run + [step]) == Next(Run(s, run), step)
    decreases |run|
  {
    hide Next, Fresh;
    if run == [] {
      assert run + [step] == [step] && [step][1..] == [];
    } else {
      RunAppend(Next(s, run[0]), run[0].now, run[1..], step);
      assert (run + [step])[1..] == run[1..] + [step];
    }
  }

  /** A deleted message, once acknowledged, is read: only its tombstone is left to say that it was deleted. */
  lemma {:induction false} AckUndeletesStatus(s: State, s': State)
    requires s == Run(InitialState, Deleting()) && s' == Run(InitialState, Deleting() + [Acking])
    ensures Legal(InitialState, 0, Deleting() + [Acking])
    ensures 1 in s.msg.messages.vals && s.msg.messages.vals[1].status == StatusDeleted
    ensures 1 in s'.msg.messages.vals && s'.msg.messages.vals[1].status == StatusRead
    ensures s'.msg.messages.vals[1].content == Tombstone(Deleted)
  {
    hide Run, Legal, Next, OpenTo;
    DeletingRun(s);
    AcksDeleted(s, 1);
    RunAppend(InitialState, 0, Deleting(), Acking);
  }

  /** The sender deletes a text that is stored under its id. */
  lemma DeletesPost(s: State, id: MessageId)
    requires id in s.msg.messages.vals
    requires var m := s.msg.messages.vals[id]; m.id == id && m.senderId == "u" && m.channelId == 1 && !m.content.Tombstone?
    ensures var step := Step(SoftDeleteCall("u", id), 0);
      var s' := Next(s, step);
      && Fresh(s, step.op) && s'.ws == s.ws && s'.bot == s.bot && id in s'.msg.messages.vals
      && s'.msg.messages.vals[id] == Entomb(s.msg.messages.vals[id], Deleted, 0)
  {
  }

  lemma AcksDeleted(s: State, id: MessageId)
    requires id in s.msg.messages.vals && OpenTo(s, 1, Normal)
    requires var m := s.msg.messages.vals[id]; m.id == id && m.channelId == 1 && m.content.Tombstone?
    ensures var step := Step(AckReadCall("u", id), 0);
      var s' := Next(s, step);
      && Fresh(s, step.op) && id in s'.msg.messages.vals
      && s'.msg.messages.vals[id] == s.msg.messages.vals[id].(status := StatusRead)
  {
  }
}
