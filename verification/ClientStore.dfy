/**
 The web client's message store: a map plus an order array, fed by upserts, optimistic sends and the
 `message.created` handler.
 */
module ClientStore {
  import opened JsCollections
  import opened Ids

  /** Server ids, and the prefixed ids the client makes up. */
  datatype EntryId =
    | ServerId(id: int)
    | P2pLocal(clientMsgId: ClientMsgId)
    | P2pReceived(clientMsgId: ClientMsgId)
    | Optimistic(clientMsgId: ClientMsgId)

  datatype Message = Message(id: EntryId, channelId: ChannelId, clientMsgId: ClientMsgId, body: string)
  datatype Status = Sending | Sent | Failed

  datatype Store = Store(messages: JsMap<EntryId, Message>, order: seq<EntryId>, status: map<ClientMsgId, Status>)

  const EmptyStore: Store := Store(JsMap([], map[]), [], map[])

  function Upserted(s: Store, m: Message, status: Status): Store {
    Store(
      s.messages.Set(m.id, m),
      if m.id in s.order then s.order else s.order + [m.id],
      s.status[m.clientMsgId := status])
  }

  /** The first stored message with this client id, in map order. */
  function FindByClientId(messages: JsMap<EntryId, Message>, c: ClientMsgId): Option<EntryId> {
    FindFirst(messages.keys, id => id in messages.vals && messages.vals[id].clientMsgId == c)
  }

  function Renamed(order: seq<EntryId>, from: EntryId, to: EntryId): seq<EntryId> {
    seq(|order|, i requires 0 <= i < |order| => if order[i] == from then to else order[i])
  }

  /** The `message.created` handler. */
  function Merged(s: Store, m: Message): Store {
    if m.id in s.messages.vals then s
    else
      match FindByClientId(s.messages, m.clientMsgId)
      case Some(dup) => Store(s.messages.Delete(dup).Set(m.id, m), Renamed(s.order, dup, m.id), s.status)
      case None => Upserted(s, m, Sent)
  }

  function SelectChannel(s: Store, channel: ChannelId): seq<Message> {
    SelectFrom(s.messages.vals, s.order, channel)
  }

  function SelectFrom(vals: map<EntryId, Message>, order: seq<EntryId>, channel: ChannelId): seq<Message> {
    if order == [] then []
    else
      (if order[0] in vals && vals[order[0]].channelId == channel then [vals[order[0]]] else [])
      + SelectFrom(vals, order[1..], channel)
  }

  /** `useMessageStore`, and the part of ChatRoute that writes to it. */
  class MessageStore {
    var messages: JsMap<EntryId, Message>
    var order: seq<EntryId>
    var status: map<ClientMsgId, Status>

    function View(): Store
      reads this
    {
      Store(messages, order, status)
    }

    constructor ()
      ensures View() == EmptyStore
    {
      messages := JsMap([], map[]);
      order := [];
      status := map[];
    }

    method Upsert(m: Message, st: Status)
      modifies this
      ensures View() == Upserted(old(View()), m, st)
    {
      messages := messages.Set(m.id, m);
      if m.id !in order {
        order := order + [m.id];
      }
      status := status[m.clientMsgId := st];
    }

    method SendOptimistic(m: Message)
      modifies this
      ensures View() == Upserted(old(View()), m, Sending)
    {
      Upsert(m, Sending);
    }

    method OnMessageCreated(m: Message)
      modifies this
      ensures View() == Merged(old(View()), m)
    {
      if m.id in messages.vals {
        return;
      }
      var dup := FindByClientId(messages, m.clientMsgId);
      if dup.Some? {
        var newMessages := messages.Delete(dup.value);
        newMessages := newMessages.Set(m.id, m);
        var newOrder := [];
        for i := 0 to |order|
          invariant |newOrder| == i
          invariant forall k :: 0 <= k < i ==> newOrder[k] == if order[k] == dup.value then m.id else order[k]
          invariant unchanged(this)
        {
          newOrder := newOrder + [if order[i] == dup.value then m.id else order[i]];
        }
        messages := newMessages;
        order := newOrder;
        assert order == Renamed(old(order), dup.value, m.id);
      } else {
        Upsert(m, Sent);
      }
    }
  }

  // ---------------------------------------------------------------- map and order agree

  ghost predicate Consistent(s: Store) {
    && s.messages.Valid()
    && Distinct(s.order)
    && (forall id :: id in s.order <==> id in s.messages.vals)
    && (forall id :: id in s.messages.vals ==> s.messages.vals[id].id == id)
  }

  lemma UpsertedConsistent(s: Store, m: Message, status: Status)
    requires Consistent(s)
    ensures Consistent(Upserted(s, m, status))
  {
  }

  /** A merge changes at most one slot of the order: it keeps the replaced entry's position and every
      other entry; with nothing to replace it appends. */
  lemma MergedEffect(s: Store, m: Message)
    requires Consistent(s) && m.id !in s.messages.vals
    ensures var s' := Merged(s, m);
      match FindByClientId(s.messages, m.clientMsgId)
      case Some(dup) =>
        && s'.messages.vals == (s.messages.vals - {dup})[m.id := m]
        && dup in s.order
        && (forall i :: 0 <= i < |s.order| && s.order[i] == dup ==> s'.order == s.order[i := m.id])
      case None =>
        && s'.messages.vals == s.messages.vals[m.id := m]
        && s'.order == s.order + [m.id]
  {
  }

  /** An upsert stores the entry under its id, at the end if it is new, with its status; everything else stays. */
  lemma UpsertedEffect(s: Store, m: Message, status: Status)
    requires Consistent(s)
    ensures var s' := Upserted(s, m, status);
      && s'.messages.Get(m.id) == Some(m) && (forall id :: id != m.id ==> s'.messages.Get(id) == s.messages.Get(id))
      && s'.order == s.order + (if m.id in s.messages.vals then [] else [m.id])
      && m.clientMsgId in s'.status && s'.status[m.clientMsgId] == status
      && s'.status - {m.clientMsgId} == s.status - {m.clientMsgId}
  {
  }

  /** A broadcast of a message that is shown already changes nothing; one that replaces an entry leaves every status as it was, so
      an optimistic entry's stays `Sending`; only one that is new is marked `Sent`. */
  lemma MergedStatus(s: Store, m: Message)
    requires Consistent(s)
    ensures var s' := Merged(s, m);
      var known := exists id :: id in s.messages.vals && s.messages.vals[id].clientMsgId == m.clientMsgId;
      && (m.id in s.messages.vals ==> s' == s)
      && (known ==> s'.status == s.status)
      && (m.id !in s.messages.vals && !known ==> s'.status == s.status[m.clientMsgId := Sent])
  {
    if id :| id in s.messages.vals && s.messages.vals[id].clientMsgId == m.clientMsgId {
      assert id in s.messages.keys;
    }
  }

  lemma MergedConsistent(s: Store, m: Message)
    requires Consistent(s)
    ensures Consistent(Merged(s, m))
  {
    MergedValid(s, m);
    if m.id !in s.messages.vals {
      MergedEffect(s, m);
      var found := FindByClientId(s.messages, m.clientMsgId);
      if found.Some? {
        var i :| 0 <= i < |s.order| && s.order[i] == found.value;
        ReplacedConsistent(s, Merged(s, m), i, m);
      } else {
        UpsertedConsistent(s, m, Sent);
      }
    }
  }

  lemma ReplacedConsistent(s: Store, s': Store, i: nat, m: Message)
    requires Consistent(s) && i < |s.order| && m.id !in s.messages.vals && s'.messages.Valid()
    requires s'.messages.vals == (s.messages.vals - {s.order[i]})[m.id := m] && s'.order == s.order[i := m.id]
    ensures Consistent(s')
  {
    ReplacedMembers(s.order, i, m.id);
  }

  lemma MergedValid(s: Store, m: Message)
    requires s.messages.Valid()
    ensures Merged(s, m).messages.Valid()
  {
    hide Renamed;
  }

  /** Replacing one slot of a duplicate-free sequence by a new value swaps that one member. */
  lemma ReplacedMembers(order: seq<EntryId>, i: nat, id: EntryId)
    requires i < |order| && Distinct(order) && id !in order
    ensures Distinct(order[i := id])
    ensures forall x :: x in order[i := id] <==> x == id || (x in order && x != order[i])
  {
    var order' := order[i := id];
    forall x
      ensures x in order' <==> x == id || (x in order && x != order[i])
    {
      if x in order {
        var k :| 0 <= k < |order| && order[k] == x;
        assert k != i ==> order'[k] == x;
      }
      assert order'[i] == id;
    }
  }

  datatype Input =
    | UpsertIn(m: Message, status: Status)
    | OptimisticIn(m: Message)
    | CreatedIn(m: Message)

  function Apply(s: Store, input: Input): Store {
    match input
    case UpsertIn(m, status) => Upserted(s, m, status)
    case OptimisticIn(m) => Upserted(s, m, Sending)
    case CreatedIn(m) => Merged(s, m)
  }

  function ApplyAll(s: Store, inputs: seq<Input>): Store
    decreases |inputs|
  {
    if inputs == [] then s else ApplyAll(Apply(s, inputs[0]), inputs[1..])
  }

  /** Over every sequence of inputs, `order` is duplicate-free and is exactly the map's key set. */
  lemma {:induction false} EveryRunConsistent(s: Store, inputs: seq<Input>)
    requires Consistent(s)
    ensures Consistent(ApplyAll(s, inputs))
    decreases |inputs|
  {
    if inputs != [] {
      match inputs[0] {
        case UpsertIn(m, status) => UpsertedConsistent(s, m, status);
        case OptimisticIn(m) => UpsertedConsistent(s, m, Sending);
        case CreatedIn(m) => MergedConsistent(s, m);
      }
      EveryRunConsistent(Apply(s, inputs[0]), inputs[1..]);
    }
  }

  /** The selected messages are exactly the channel's entries, each once, in `order`'s order. */
  lemma SelectChannelExact(s: Store, channel: ChannelId)
    requires Consistent(s)
    ensures var shown := SelectChannel(s, channel);
      var ids := seq(|shown|, i requires 0 <= i < |shown| => shown[i].id);
      && ids == Filter(s.order, id => id in s.messages.vals && s.messages.vals[id].channelId == channel)
      && Distinct(ids)
      && (forall id :: id in ids <==> id in s.messages.vals && s.messages.vals[id].channelId == channel)
      && (forall m :: m in shown ==> m.id in s.messages.vals && s.messages.vals[m.id] == m)
  {
    SelectFromIsFilter(s.messages.vals, s.order, channel);
    FilterDistinct(s.order, id => id in s.messages.vals && s.messages.vals[id].channelId == channel);
  }

  lemma {:induction false} SelectFromIsFilter(vals: map<EntryId, Message>, order: seq<EntryId>, channel: ChannelId)
    requires forall id :: id in vals ==> vals[id].id == id
    ensures var shown := SelectFrom(vals, order, channel);
      && seq(|shown|, i requires 0 <= i < |shown| => shown[i].id) == Filter(order, id => id in vals && vals[id].channelId == channel)
      && (forall m :: m in shown ==> m.id in vals && vals[m.id] == m)
  {
    if order != [] {
      SelectFromIsFilter(vals, order[1..], channel);
      var rest := SelectFrom(vals, order[1..], channel);
      var shown := SelectFrom(vals, order, channel);
      var inChannel := id => id in vals && vals[id].channelId == channel;
      assert seq(|shown|, i requires 0 <= i < |shown| => shown[i].id)
        == (if inChannel(order[0]) then [order[0]] else []) + seq(|rest|, i requires 0 <= i < |rest| => rest[i].id);
    }
  }

  // ---------------------------------------------------------------- one entry per client id

  ghost predicate Unique(s: Store) {
    forall a, b | a in s.messages.vals && b in s.messages.vals ::
      s.messages.vals[a].clientMsgId == s.messages.vals[b].clientMsgId ==> a == b
  }

  /** A merge never makes a second entry for a client id. */
  lemma MergedKeepsUnique(s: Store, m: Message)
    requires Consistent(s) && Unique(s)
    ensures Unique(Merged(s, m))
  {
    if m.id !in s.messages.vals {
      MergedEffect(s, m);
      var found := FindByClientId(s.messages, m.clientMsgId);
      if found.None? {
        forall id | id in s.messages.vals
          ensures s.messages.vals[id].clientMsgId != m.clientMsgId
        {
          assert id in s.messages.keys;
        }
      }
    }
  }

  /** A plain upsert keeps one entry per client id exactly when no entry under another id has that client id. */
  lemma UpsertedKeepsUniqueIff(s: Store, m: Message, status: Status)
    requires Consistent(s) && Unique(s)
    ensures Unique(Upserted(s, m, status)) <==>
      forall id :: id in s.messages.vals && id != m.id ==> s.messages.vals[id].clientMsgId != m.clientMsgId
  {
    var vals := Upserted(s, m, status).messages.vals;
    assert m.id in vals && vals[m.id] == m;
    assert forall id :: id in s.messages.vals && id != m.id ==> id in vals && vals[id] == s.messages.vals[id];
  }
}
