/**
 The delivery path end to end: submissions through the hybrid transport or straight over the socket, the
 double submission after a relay fallback, retries, the server's pre-check and atomic insert-or-get as
 separate steps of racing requests, and repeated deliveries to every open client in any order.
 */
module Delivery {
  import opened Ids
  import ClientStore
  import Transport

  type TabId = nat

  datatype Route = ViaP2p | ViaServer

  /** A client id is minted once, for one submission of one sender in one browser tab. */
  datatype Submission = Submission(tab: TabId, sender: UserId, channel: ChannelId, body: string, route: Route)

  datatype Row = Row(sender: UserId, clientMsgId: ClientMsgId, channel: ChannelId, body: string)

  datatype Phase = Arrived | Checked | Answered(id: MessageId)
  datatype Request = Request(clientMsgId: ClientMsgId, phase: Phase)

  /** How a message is submitted: straight over the socket, with or without an optimistic entry, or as an end-to-end
      encrypted direct message through the transport. */
  datatype Attempt =
    | OverSocket(optimistic: bool)
    | OverTransport(env: Transport.Environment, p2pOnly: bool)

  datatype State = State(
    submissions: map<ClientMsgId, Submission>,
    rows: map<MessageId, Row>,
    index: map<(UserId, ClientMsgId), MessageId>,
    requests: seq<Request>,
    clients: map<TabId, ClientStore.Store>)

  const Init := State(map[], map[], map[], [], map[])

  datatype Step =
    | Submit(c: ClientMsgId, tab: TabId, sender: UserId, channel: ChannelId, body: string, attempt: Attempt)
    | Resubmit(c: ClientMsgId)
    | PreCheck(i: nat)
    | Create(i: nat, id: MessageId)
    | Broadcast(i: nat, tab: TabId)
    | Frame(c: ClientMsgId, tab: TabId)

  function RouteOf(attempt: Attempt): Route {
    if attempt.OverTransport? && Transport.DirectSendWorks(attempt.env) then ViaP2p else ViaServer
  }

  /** How many `message.send` events one submission emits: the relay fallback emits its own and then, unless the
      user insists on peer-to-peer or no reply came back, the component emits the message once more. */
  function Emissions(attempt: Attempt): nat {
    match attempt
    case OverSocket(_) => 1
    case OverTransport(env, p2pOnly) =>
      if Transport.DirectSendWorks(env) then 0
      else if p2pOnly || env.reply.NoReply? then 1
      else 2
  }

  function ClientOf(s: State, tab: TabId): ClientStore.Store {
    if tab in s.clients then s.clients[tab] else ClientStore.EmptyStore
  }

  function Requests(c: ClientMsgId, n: nat): seq<Request> {
    if n == 0 then [] else Requests(c, n - 1) + [Request(c, Arrived)]
  }

  function KeyOf(s: State, c: ClientMsgId): (UserId, ClientMsgId)
    requires c in s.submissions
  {
    (s.submissions[c].sender, c)
  }

  ghost predicate Enabled(s: State, step: Step) {
    match step
    case Submit(c, _, _, _, _, _) => c !in s.submissions
    case Resubmit(c) => c in s.submissions && s.submissions[c].route == ViaServer
    case PreCheck(i) => i < |s.requests| && s.requests[i].phase == Arrived && s.requests[i].clientMsgId in s.submissions
    case Create(i, id) =>
      i < |s.requests| && s.requests[i].phase == Checked && s.requests[i].clientMsgId in s.submissions && id !in s.rows
    case Broadcast(i, _) => i < |s.requests| && s.requests[i].phase.Answered? && s.requests[i].phase.id in s.rows
    case Frame(c, tab) => c in s.submissions && s.submissions[c].route == ViaP2p && tab != s.submissions[c].tab
  }

  function Entry(id: ClientStore.EntryId, c: ClientMsgId, channel: ChannelId, body: string): ClientStore.Message {
    ClientStore.Message(id, channel, c, body)
  }

  function Next(s: State, step: Step): State
    requires Enabled(s, step)
  {
    match step
    case Submit(c, tab, sender, channel, body, attempt) =>
      var client := ClientOf(s, tab);
      var client' :=
        if RouteOf(attempt) == ViaP2p then
          ClientStore.Upserted(client, Entry(ClientStore.P2pLocal(c), c, channel, body), ClientStore.Sent)
        else if attempt.OverSocket? && attempt.optimistic then
          ClientStore.Upserted(client, Entry(ClientStore.Optimistic(c), c, channel, body), ClientStore.Sending)
        else client;
      s.(submissions := s.submissions[c := Submission(tab, sender, channel, body, RouteOf(attempt))],
         requests := s.requests + Requests(c, Emissions(attempt)),
         clients := s.clients[tab := client'])
    case Resubmit(c) =>
      s.(requests := s.requests + [Request(c, Arrived)])
    case PreCheck(i) =>
      var c := s.requests[i].clientMsgId;
      var key := KeyOf(s, c);
      s.(requests := s.requests[i := Request(c, if key in s.index then Answered(s.index[key]) else Checked)])
    case Create(i, id) =>
      var c := s.requests[i].clientMsgId;
      var key := KeyOf(s, c);
      if key in s.index then
        s.(requests := s.requests[i := Request(c, Answered(s.index[key]))])
      else
        s.(rows := s.rows[id := Row(key.0, c, s.submissions[c].channel, s.submissions[c].body)],
           index := s.index[key := id],
           requests := s.requests[i := Request(c, Answered(id))])
    case Broadcast(i, tab) =>
      var id := s.requests[i].phase.id;
      var row := s.rows[id];
      var m := Entry(ClientStore.ServerId(id), row.clientMsgId, row.channel, row.body);
      s.(clients := s.clients[tab := ClientStore.Merged(ClientOf(s, tab), m)])
    case Frame(c, tab) =>
      var sub := s.submissions[c];
      var m := Entry(ClientStore.P2pReceived(c), c, sub.channel, sub.body);
      s.(clients := s.clients[tab := ClientStore.Upserted(ClientOf(s, tab), m, ClientStore.Sent)])
  }

  ghost predicate Legal(s: State, run: seq<Step>)
    decreases |run|
  {
    run == [] || (Enabled(s, run[0]) && Legal(Next(s, run[0]), run[1..]))
  }

  ghost function Run(s: State, run: seq<Step>): State
    requires Legal(s, run)
    decreases |run|
  {
    if run == [] then s else Run(Next(s, run[0]), run[1..])
  }

  // ---------------------------------------------------------------- the invariant

  ghost predicate ServerInv(s: State) {
    && (forall id | id in s.rows ::
          && s.rows[id].clientMsgId in s.submissions
          && s.submissions[s.rows[id].clientMsgId].route == ViaServer
          && KeyOf(s, s.rows[id].clientMsgId) == (s.rows[id].sender, s.rows[id].clientMsgId)
          && KeyOf(s, s.rows[id].clientMsgId) in s.index
          && s.index[KeyOf(s, s.rows[id].clientMsgId)] == id)
    && (forall key | key in s.index ::
          s.index[key] in s.rows && (s.rows[s.index[key]].sender, s.rows[s.index[key]].clientMsgId) == key)
  }

  ghost predicate RequestFits(s: State, r: Request) {
    && r.clientMsgId in s.submissions
    && s.submissions[r.clientMsgId].route == ViaServer
    && (r.phase.Answered? ==> r.phase.id in s.rows && s.rows[r.phase.id].clientMsgId == r.clientMsgId)
  }

  ghost predicate RequestInv(s: State) {
    forall r :: r in s.requests ==> RequestFits(s, r)
  }

  /** The id an entry for client id `c` may have in a tab: a direct message has one, fixed by the tab; a relayed
      one is the row's own id, or the optimistic placeholder. */
  ghost predicate EntryFits(s: State, tab: TabId, id: ClientStore.EntryId, c: ClientMsgId) {
    c in s.submissions
    && match s.submissions[c].route
       case ViaP2p => id == if tab == s.submissions[c].tab then ClientStore.P2pLocal(c) else ClientStore.P2pReceived(c)
       case ViaServer => id == ClientStore.Optimistic(c) || (id.ServerId? && id.id in s.rows && s.rows[id.id].clientMsgId == c)
  }

  ghost predicate ClientInv(s: State, tab: TabId, client: ClientStore.Store) {
    && ClientStore.Consistent(client)
    && ClientStore.Unique(client)
    && (forall id :: id in client.messages.vals ==> EntryFits(s, tab, id, client.messages.vals[id].clientMsgId))
  }

  ghost predicate ClientsInv(s: State) {
    forall tab :: tab in s.clients ==> ClientInv(s, tab, s.clients[tab])
  }

  ghost predicate Inv(s: State) {
    ServerInv(s) && RequestInv(s) && ClientsInv(s)
  }

  /** Submissions and rows only accumulate. */
  ghost predicate Extends(s: State, s': State) {
    && (forall c :: c in s.submissions ==> c in s'.submissions && s'.submissions[c] == s.submissions[c])
    && (forall id :: id in s.rows ==> id in s'.rows && s'.rows[id] == s.rows[id])
  }

  lemma StepExtends(s: State, step: Step)
    requires Enabled(s, step)
    ensures Extends(s, Next(s, step))
  {
  }

  lemma {:induction false} RequestsAre(c: ClientMsgId, n: nat)
    ensures forall r :: r in Requests(c, n) ==> r == Request(c, Arrived)
  {
    if n > 0 {
      RequestsAre(c, n - 1);
    }
  }

  lemma UpsertFits(s: State, tab: TabId, client: ClientStore.Store, m: ClientStore.Message, status: ClientStore.Status)
    requires ClientInv(s, tab, client)
    requires EntryFits(s, tab, m.id, m.clientMsgId)
    requires forall id :: id in client.messages.vals && client.messages.vals[id].clientMsgId == m.clientMsgId ==> id == m.id
    ensures ClientInv(s, tab, ClientStore.Upserted(client, m, status))
  {
    ClientStore.UpsertedConsistent(client, m, status);
    ClientStore.UpsertedKeepsUniqueIff(client, m, status);
  }

  lemma MergeFits(s: State, tab: TabId, client: ClientStore.Store, m: ClientStore.Message)
    requires ClientInv(s, tab, client)
    requires EntryFits(s, tab, m.id, m.clientMsgId)
    ensures ClientInv(s, tab, ClientStore.Merged(client, m))
  {
    ClientStore.MergedConsistent(client, m);
    ClientStore.MergedKeepsUnique(client, m);
    if m.id !in client.messages.vals {
      ClientStore.MergedEffect(client, m);
    }
  }

  /** When one client changes and the server only accumulates, the other clients still fit. */
  lemma OneClientChanges(s: State, s': State, tab: TabId)
    requires ClientsInv(s) && Extends(s, s')
    requires tab in s'.clients && s'.clients == s.clients[tab := s'.clients[tab]]
    requires ClientInv(s', tab, s'.clients[tab])
    ensures ClientsInv(s')
  {
    forall t | t in s'.clients && t != tab
      ensures ClientInv(s', t, s'.clients[t])
    {
      ClientStillFits(s, s', t, s.clients[t]);
    }
  }

  lemma ClientStillFits(s: State, s': State, tab: TabId, client: ClientStore.Store)
    requires ClientInv(s, tab, client) && Extends(s, s')
    ensures ClientInv(s', tab, client)
  {
    forall id | id in client.messages.vals
      ensures EntryFits(s', tab, id, client.messages.vals[id].clientMsgId)
    {
      assert EntryFits(s, tab, id, client.messages.vals[id].clientMsgId);
    }
  }

  lemma SubmitKeepsClients(s: State, step: Step)
    requires Inv(s) && step.Submit? && Enabled(s, step)
    ensures ClientsInv(Next(s, step))
  {
    var Submit(c, tab, sender, channel, body, attempt) := step;
    var s' := Next(s, step);
    var client := ClientOf(s, tab);
    ClientStillFits(s, s', tab, client);
    assert forall id :: id in client.messages.vals ==> EntryFits(s, tab, id, client.messages.vals[id].clientMsgId);
    if RouteOf(attempt) == ViaP2p {
      UpsertFits(s', tab, client, Entry(ClientStore.P2pLocal(c), c, channel, body), ClientStore.Sent);
    } else if attempt.OverSocket? && attempt.optimistic {
      UpsertFits(s', tab, client, Entry(ClientStore.Optimistic(c), c, channel, body), ClientStore.Sending);
    }
    OneClientChanges(s, s', tab);
  }

  lemma BroadcastKeepsClients(s: State, step: Step)
    requires Inv(s) && step.Broadcast? && Enabled(s, step)
    ensures ClientsInv(Next(s, step))
  {
    var s' := Next(s, step);
    var client := ClientOf(s, step.tab);
    var id := s.requests[step.i].phase.id;
    var row := s.rows[id];
    var m := Entry(ClientStore.ServerId(id), row.clientMsgId, row.channel, row.body);
    ClientStillFits(s, s', step.tab, client);
    MergeFits(s', step.tab, client, m);
    OneClientChanges(s, s', step.tab);
  }

  lemma FrameKeepsClients(s: State, step: Step)
    requires Inv(s) && step.Frame? && Enabled(s, step)
    ensures ClientsInv(Next(s, step))
  {
    var s' := Next(s, step);
    var client := ClientOf(s, step.tab);
    var sub := s.submissions[step.c];
    var m := Entry(ClientStore.P2pReceived(step.c), step.c, sub.channel, sub.body);
    ClientStillFits(s, s', step.tab, client);
    forall id | id in client.messages.vals && client.messages.vals[id].clientMsgId == m.clientMsgId
      ensures id == m.id
    {
      assert EntryFits(s, step.tab, id, client.messages.vals[id].clientMsgId);
    }
    UpsertFits(s', step.tab, client, m, ClientStore.Sent);
    OneClientChanges(s, s', step.tab);
  }

  lemma StepKeepsClients(s: State, step: Step)
    requires Inv(s) && Enabled(s, step)
    ensures ClientsInv(Next(s, step))
  {
    match step
    case Submit(_, _, _, _, _, _) => SubmitKeepsClients(s, step);
    case Broadcast(_, _) => BroadcastKeepsClients(s, step);
    case Frame(_, _) => FrameKeepsClients(s, step);
    case _ =>
      StepExtends(s, step);
      var s' := Next(s, step);
      forall tab | tab in s'.clients
        ensures ClientInv(s', tab, s'.clients[tab])
      {
        ClientStillFits(s, s', tab, s.clients[tab]);
      }
  }

  lemma StepKeepsServer(s: State, step: Step)
    requires Inv(s) && Enabled(s, step)
    ensures ServerInv(Next(s, step))
  {
    var s' := Next(s, step);
    if step.Create? {
      var c := s.requests[step.i].clientMsgId;
      assert RequestFits(s, s.requests[step.i]);
      assert forall id | id in s.rows :: s.rows[id].clientMsgId == c ==> KeyOf(s, c) in s.index;
    }
  }

  lemma StepKeepsRequests(s: State, step: Step)
    requires Inv(s) && Enabled(s, step)
    ensures RequestInv(Next(s, step))
  {
    var s' := Next(s, step);
    StepExtends(s, step);
    forall r | r in s'.requests
      ensures RequestFits(s', r)
    {
      if r in s.requests {
        assert RequestFits(s, r);
      } else {
        match step
        case Submit(c, _, _, _, _, attempt) => RequestsAre(c, Emissions(attempt));
        case Resubmit(c) =>
        case PreCheck(i) => assert RequestFits(s, s.requests[i]);
        case Create(i, id) => assert RequestFits(s, s.requests[i]);
      }
    }
  }

  lemma {:induction false} RunKeepsInv(s: State, run: seq<Step>)
    requires Inv(s) && Legal(s, run)
    ensures Inv(Run(s, run))
    decreases |run|
  {
    if run != [] {
      StepKeepsServer(s, run[0]);
      StepKeepsRequests(s, run[0]);
      StepKeepsClients(s, run[0]);
      RunKeepsInv(Next(s, run[0]), run[1..]);
    }
  }

  // ---------------------------------------------------------------- exactly once

  ghost predicate Holds(s: State, tab: TabId, c: ClientMsgId) {
    HeldIn(ClientOf(s, tab), c)
  }

  ghost predicate HeldIn(client: ClientStore.Store, c: ClientMsgId) {
    exists id :: id in client.messages.vals && client.messages.vals[id].clientMsgId == c
  }

  /** Over every interleaving, however often a submission is repeated and re-broadcast: the server keeps at
      most one row per (sender, client id), every answered request for it got that row's id, and no client
      ever shows a client id twice. */
  lemma ExactlyOnceEffect(run: seq<Step>)
    requires Legal(Init, run)
    ensures var s := Run(Init, run);
      && (forall a, b | a in s.rows && b in s.rows ::
            s.rows[a].sender == s.rows[b].sender && s.rows[a].clientMsgId == s.rows[b].clientMsgId ==> a == b)
      && (forall i | 0 <= i < |s.requests| && s.requests[i].phase.Answered? ::
            s.requests[i].phase.id in s.rows && s.rows[s.requests[i].phase.id].clientMsgId == s.requests[i].clientMsgId)
      && (forall i, j | 0 <= i < |s.requests| && 0 <= j < |s.requests| && s.requests[i].phase.Answered? && s.requests[j].phase.Answered? ::
            s.requests[i].clientMsgId == s.requests[j].clientMsgId ==> s.requests[i].phase == s.requests[j].phase)
      && (forall tab :: ClientStore.Unique(ClientOf(s, tab)))
  {
    RunKeepsInv(Init, run);
    var s := Run(Init, run);
    forall i | 0 <= i < |s.requests| && s.requests[i].phase.Answered?
      ensures s.requests[i].phase.id in s.rows && s.rows[s.requests[i].phase.id].clientMsgId == s.requests[i].clientMsgId
    {
      assert RequestFits(s, s.requests[i]);
    }
    forall i, j | 0 <= i < |s.requests| && 0 <= j < |s.requests| && s.requests[i].phase.Answered? && s.requests[j].phase.Answered?
        && s.requests[i].clientMsgId == s.requests[j].clientMsgId
      ensures s.requests[i].phase == s.requests[j].phase
    {
      assert RequestFits(s, s.requests[i]) && RequestFits(s, s.requests[j]);
      var a, b := s.requests[i].phase.id, s.requests[j].phase.id;
      assert s.rows[a].clientMsgId == s.rows[b].clientMsgId;
      assert s.rows[a].sender == s.rows[b].sender;
    }
  }

  /** Nothing a client holds is ever lost: a merge replaces an entry only by one with the same client id. */
  lemma StepKeepsHeld(s: State, step: Step, tab: TabId, c: ClientMsgId)
    requires Inv(s) && Enabled(s, step) && Holds(s, tab, c)
    ensures Holds(Next(s, step), tab, c)
  {
    var client := ClientOf(s, tab);
    if step.Broadcast? && tab == step.tab {
      var row := s.rows[s.requests[step.i].phase.id];
      var m := Entry(ClientStore.ServerId(s.requests[step.i].phase.id), row.clientMsgId, row.channel, row.body);
      ClientFits(s, tab);
      MergeKeepsHeld(client, m, c);
    } else if step.Submit? && tab == step.tab {
      SubmitKeepsHeld(s, step, c);
    } else if step.Frame? && tab == step.tab {
      var m := Entry(ClientStore.P2pReceived(step.c), step.c, s.submissions[step.c].channel, s.submissions[step.c].body);
      FrameEntry(s, tab, step.c);
      UpsertKeepsHeld(client, m, ClientStore.Sent, c);
    }
  }

  lemma ClientFits(s: State, tab: TabId)
    requires ClientsInv(s)
    ensures ClientInv(s, tab, ClientOf(s, tab))
  {
  }

  lemma MergeKeepsHeld(client: ClientStore.Store, m: ClientStore.Message, c: ClientMsgId)
    requires ClientStore.Consistent(client) && HeldIn(client, c)
    ensures HeldIn(ClientStore.Merged(client, m), c)
  {
    var id :| id in client.messages.vals && client.messages.vals[id].clientMsgId == c;
    if m.id !in client.messages.vals {
      ClientStore.MergedEffect(client, m);
      var after := ClientStore.Merged(client, m).messages.vals;
      assert m.id in after && (id in after || m.clientMsgId == c);
    }
  }

  /** An upsert over an entry with the same client id, or over none. */
  lemma UpsertKeepsHeld(client: ClientStore.Store, m: ClientStore.Message, status: ClientStore.Status, c: ClientMsgId)
    requires HeldIn(client, c)
    requires m.id in client.messages.vals ==> client.messages.vals[m.id].clientMsgId == m.clientMsgId
    ensures HeldIn(ClientStore.Upserted(client, m, status), c)
  {
    var id :| id in client.messages.vals && client.messages.vals[id].clientMsgId == c;
    var after := ClientStore.Upserted(client, m, status).messages.vals;
    assert id in after && after[id].clientMsgId == c;
  }

  /** The ids the client makes up name the client id they belong to. */
  lemma FrameEntry(s: State, tab: TabId, c: ClientMsgId)
    requires ClientsInv(s)
    ensures var vals := ClientOf(s, tab).messages.vals;
      ClientStore.P2pReceived(c) in vals ==> vals[ClientStore.P2pReceived(c)].clientMsgId == c
  {
    var vals := ClientOf(s, tab).messages.vals;
    ClientFits(s, tab);
    if ClientStore.P2pReceived(c) in vals {
      assert EntryFits(s, tab, ClientStore.P2pReceived(c), vals[ClientStore.P2pReceived(c)].clientMsgId);
    }
  }

  lemma SubmitKeepsHeld(s: State, step: Step, c: ClientMsgId)
    requires ClientsInv(s) && step.Submit? && Enabled(s, step) && HeldIn(ClientOf(s, step.tab), c)
    ensures HeldIn(ClientOf(Next(s, step), step.tab), c)
  {
    var client := ClientOf(s, step.tab);
    ClientFits(s, step.tab);
    assert forall id :: id in client.messages.vals ==> EntryFits(s, step.tab, id, client.messages.vals[id].clientMsgId);
    if RouteOf(step.attempt) == ViaP2p {
      UpsertKeepsHeld(client, Entry(ClientStore.P2pLocal(step.c), step.c, step.channel, step.body), ClientStore.Sent, c);
    } else if step.attempt.OverSocket? && step.attempt.optimistic {
      UpsertKeepsHeld(client, Entry(ClientStore.Optimistic(step.c), step.c, step.channel, step.body), ClientStore.Sending, c);
    }
  }

  /** A broadcast or a frame leaves the client holding the message. */
  lemma DeliveryArrives(s: State, step: Step)
    requires Inv(s) && Enabled(s, step) && (step.Broadcast? || step.Frame?)
    ensures Holds(Next(s, step), step.tab, if step.Frame? then step.c else s.requests[step.i].clientMsgId)
  {
    var vals := ClientOf(Next(s, step), step.tab).messages.vals;
    match step
    case Broadcast(i, tab) =>
      assert RequestFits(s, s.requests[i]);
      var id := ClientStore.ServerId(s.requests[i].phase.id);
      assert id in vals && vals[id].clientMsgId == s.requests[i].clientMsgId;
    case Frame(c, tab) =>
      assert vals[ClientStore.P2pReceived(c)].clientMsgId == c;
  }

  /** From its first delivery on, through every later step, a client shows the message exactly once. */
  lemma {:induction false} DeliveredExactlyOnce(s: State, run: seq<Step>, tab: TabId, c: ClientMsgId)
    requires Inv(s) && Legal(s, run) && Holds(s, tab, c)
    ensures Holds(Run(s, run), tab, c) && ClientStore.Unique(ClientOf(Run(s, run), tab))
    decreases |run|
  {
    if run != [] {
      StepKeepsHeld(s, run[0], tab, c);
      RunKeepsInv(s, [run[0]]);
      assert Run(s, [run[0]]) == Next(s, run[0]);
      DeliveredExactlyOnce(Next(s, run[0]), run[1..], tab, c);
    }
  }

  // ---------------------------------------------------------------- nothing is altered on the way

  /** The entry is of a submission, with its channel and body. */
  ghost predicate EntryIntact(s: State, m: ClientStore.Message) {
    && m.clientMsgId in s.submissions
    && m.channelId == s.submissions[m.clientMsgId].channel && m.body == s.submissions[m.clientMsgId].body
  }

  ghost predicate RowIntact(s: State, row: Row) {
    && row.clientMsgId in s.submissions && row.sender == s.submissions[row.clientMsgId].sender
    && row.channel == s.submissions[row.clientMsgId].channel && row.body == s.submissions[row.clientMsgId].body
  }

  ghost predicate ClientIntact(s: State, client: ClientStore.Store) {
    forall id :: id in client.messages.vals ==> EntryIntact(s, client.messages.vals[id])
  }

  ghost predicate Intact(s: State) {
    && (forall id :: id in s.rows ==> RowIntact(s, s.rows[id]))
    && (forall tab :: tab in s.clients ==> ClientIntact(s, s.clients[tab]))
  }

  lemma IntactStays(s: State, s': State, client: ClientStore.Store)
    requires ClientIntact(s, client) && Extends(s, s')
    ensures ClientIntact(s', client)
  {
    forall id | id in client.messages.vals
      ensures EntryIntact(s', client.messages.vals[id])
    {
      assert EntryIntact(s, client.messages.vals[id]);
    }
  }

  lemma PutsIntact(s: State, client: ClientStore.Store, m: ClientStore.Message, status: ClientStore.Status)
    requires ClientIntact(s, client) && EntryIntact(s, m) && ClientStore.Consistent(client)
    ensures ClientIntact(s, ClientStore.Upserted(client, m, status)) && ClientIntact(s, ClientStore.Merged(client, m))
  {
    if m.id !in client.messages.vals {
      ClientStore.MergedEffect(client, m);
    }
  }

  lemma StepKeepsRowsIntact(s: State, step: Step)
    requires Inv(s) && Intact(s) && Enabled(s, step)
    ensures forall id :: id in Next(s, step).rows ==> RowIntact(Next(s, step), Next(s, step).rows[id])
  {
    var s' := Next(s, step);
    StepExtends(s, step);
    forall id | id in s'.rows
      ensures RowIntact(s', s'.rows[id])
    {
      if id in s.rows {
        assert RowIntact(s, s.rows[id]);
      }
    }
  }

  lemma StepKeepsIntact(s: State, step: Step)
    requires Inv(s) && Intact(s) && Enabled(s, step)
    ensures Intact(Next(s, step))
  {
    hide ClientIntact, Inv, RowIntact;
    var s' := Next(s, step);
    StepExtends(s, step);
    StepKeepsRowsIntact(s, step);
    forall tab | tab in s'.clients
      ensures ClientIntact(s', s'.clients[tab])
    {
      ClientIsIntact(s, tab);
      IntactStays(s, s', ClientOf(s, tab));
      if tab !in s.clients || s'.clients[tab] != s.clients[tab] {
        ChangedIsIntact(s, step, tab);
      }
    }
  }

  lemma ClientIsIntact(s: State, tab: TabId)
    requires Intact(s)
    ensures ClientIntact(s, ClientOf(s, tab))
  {
  }

  /** The client that a step writes to. */
  lemma ChangedIsIntact(s: State, step: Step, tab: TabId)
    requires Inv(s) && Intact(s) && Enabled(s, step) && tab in Next(s, step).clients
    requires tab !in s.clients || Next(s, step).clients[tab] != s.clients[tab]
    ensures ClientIntact(Next(s, step), Next(s, step).clients[tab])
  {
    hide ServerInv, RequestInv, ClientIntact;
    var s' := Next(s, step);
    StepExtends(s, step);
    ClientIsIntact(s, tab);
    IntactStays(s, s', ClientOf(s, tab));
    ClientFits(s, tab);
    match step
    case Submit(c, _, _, channel, body, _) =>
      PutsIntact(s', ClientOf(s, tab), Entry(ClientStore.P2pLocal(c), c, channel, body), ClientStore.Sent);
      PutsIntact(s', ClientOf(s, tab), Entry(ClientStore.Optimistic(c), c, channel, body), ClientStore.Sending);
    case Broadcast(i, _) =>
      var id := s.requests[i].phase.id;
      assert RowIntact(s, s.rows[id]);
      var row := s.rows[id];
      PutsIntact(s', ClientOf(s, tab), Entry(ClientStore.ServerId(id), row.clientMsgId, row.channel, row.body), ClientStore.Sent);
    case Frame(c, _) =>
      PutsIntact(
        s', ClientOf(s, tab), Entry(ClientStore.P2pReceived(c), c, s.submissions[c].channel, s.submissions[c].body), ClientStore.Sent);
    case _ =>
  }

  lemma {:induction false} RunKeepsIntact(s: State, run: seq<Step>)
    requires Inv(s) && Intact(s) && Legal(s, run)
    ensures Intact(Run(s, run))
    decreases |run|
  {
    hide Inv, Intact, Enabled;
    if run != [] {
      RunKeepsInv(s, [run[0]]);
      assert Run(s, [run[0]]) == Next(s, run[0]);
      StepKeepsIntact(s, run[0]);
      RunKeepsIntact(Next(s, run[0]), run[1..]);
    }
  }

  /** Over every interleaving: what the server stores and what any client shows under a client id is what was submitted under it, with
      the submission's sender, channel and body; nothing else is ever stored or shown. */
  lemma {:induction false} ShownAsSubmitted(run: seq<Step>)
    requires Legal(Init, run)
    ensures var s := Run(Init, run);
      && (forall id :: id in s.rows ==> RowIntact(s, s.rows[id]))
      && (forall tab, id :: id in ClientOf(s, tab).messages.vals ==> EntryIntact(s, ClientOf(s, tab).messages.vals[id]))
  {
    RunKeepsIntact(Init, run);
    var s := Run(Init, run);
    forall tab, id | id in ClientOf(s, tab).messages.vals
      ensures EntryIntact(s, ClientOf(s, tab).messages.vals[id])
    {
      ClientIsIntact(s, tab);
    }
  }

  /** A submission through the transport emits nothing when it went directly, and twice when the relay answered and the user
      does not insist on the direct path. */
  lemma EmissionsAre(attempt: Attempt)
    ensures attempt.OverSocket? ==> Emissions(attempt) == 1 && RouteOf(attempt) == ViaServer
    ensures attempt.OverTransport? ==>
      && (Emissions(attempt) == 0 <==> RouteOf(attempt) == ViaP2p)
      && (RouteOf(attempt) == ViaP2p <==> Transport.DirectSendWorks(attempt.env))
      && (Emissions(attempt) == 2 <==> RouteOf(attempt) == ViaServer && !attempt.p2pOnly && !attempt.env.reply.NoReply?)
      && Emissions(attempt) <= 2
  {
  }

  /** A submission is shown in its own tab at once exactly when it went directly or is optimistic: as sent, or as still sending. */
  lemma {:induction false} SubmissionIsShownIff(s: State, step: Step)
    requires Inv(s) && step.Submit? && Enabled(s, step)
    ensures var s' := Next(s, step);
      var direct := RouteOf(step.attempt) == ViaP2p;
      var optimistic := step.attempt.OverSocket? && step.attempt.optimistic;
      && (Holds(s', step.tab, step.c) <==> direct || optimistic)
      && (direct ==> ClientOf(s', step.tab).status == ClientOf(s, step.tab).status[step.c := ClientStore.Sent])
      && (optimistic ==> ClientOf(s', step.tab).status == ClientOf(s, step.tab).status[step.c := ClientStore.Sending])
      && (forall tab :: tab != step.tab ==> ClientOf(s', tab) == ClientOf(s, tab))
  {
    var client := ClientOf(s, step.tab);
    ClientFits(s, step.tab);
    forall id | id in client.messages.vals
      ensures client.messages.vals[id].clientMsgId != step.c
    {
      assert EntryFits(s, step.tab, id, client.messages.vals[id].clientMsgId);
    }
    var after := ClientOf(Next(s, step), step.tab).messages.vals;
    if RouteOf(step.attempt) == ViaP2p {
      assert ClientStore.P2pLocal(step.c) in after && after[ClientStore.P2pLocal(step.c)].clientMsgId == step.c;
    } else if step.attempt.OverSocket? && step.attempt.optimistic {
      assert ClientStore.Optimistic(step.c) in after && after[ClientStore.Optimistic(step.c)].clientMsgId == step.c;
    }
  }

  /** A request is answered at its pre-check exactly when its client id has a row by then, and at its create always; a row is
      added by a create exactly when there was none. */
  lemma AnsweredIff(s: State, i: nat, id: MessageId)
    requires Inv(s)
    ensures Enabled(s, PreCheck(i)) ==>
      var s' := Next(s, PreCheck(i));
      (s'.requests[i].phase.Answered? <==> KeyOf(s, s.requests[i].clientMsgId) in s.index) && s'.rows == s.rows
    ensures Enabled(s, Create(i, id)) ==>
      var s' := Next(s, Create(i, id));
      s'.requests[i].phase.Answered? && (s'.rows == s.rows <==> KeyOf(s, s.requests[i].clientMsgId) in s.index)
  {
    if Enabled(s, Create(i, id)) && KeyOf(s, s.requests[i].clientMsgId) !in s.index {
      assert id in Next(s, Create(i, id)).rows;
    }
  }
}
