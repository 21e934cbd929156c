/**
 The in-memory message persistence as functions on its tables, and the invariant its tables keep.
 */
module MessageStore {
  import opened JsCollections
  import opened Ids
  import opened Domain

  type MessageTable = JsMap<MessageId, Message>
  type ClientIndex = map<(UserId, ClientMsgId), MessageId>

  function Find(msg: MessageState, id: MessageId): Option<Message> {
    msg.messages.Get(id)
  }

  function FindByClient(msg: MessageState, sender: UserId, c: ClientMsgId): Option<Message> {
    if (sender, c) in msg.byClientId then msg.messages.Get(msg.byClientId[(sender, c)]) else None
  }

  function Inserted(msg: MessageState, m: Message, files: set<FileId>): MessageState {
    msg.(messages := msg.messages.Set(m.id, m),
         byClientId := msg.byClientId[(m.senderId, m.clientMsgId) := m.id],
         attachments := msg.attachments[m.id := files])
  }

  /** Insert-or-get on (sender, client id), as one step. */
  function Create(msg: MessageState, m: Message, files: set<FileId>): (MessageState, Message) {
    match FindByClient(msg, m.senderId, m.clientMsgId)
    case Some(existing) => (msg, existing)
    case None =>
      (Inserted(msg, m, files), m)
  }

  function Update(msg: MessageState, m: Message): MessageState {
    msg.(messages := msg.messages.Set(m.id, m))
  }

  // ---------------------------------------------------------------- listing

  function Insert(m: Message, sorted: seq<Message>): seq<Message> {
    if sorted == [] then [m]
    else if m.id <= sorted[0].id then [m] + sorted
    else [sorted[0]] + Insert(m, sorted[1..])
  }

  function SortById(ms: seq<Message>): seq<Message> {
    if ms == [] then [] else Insert(ms[0], SortById(ms[1..]))
  }

  function InChannel(c: ChannelId): Message -> bool {
    (m: Message) => m.channelId == c
  }

  /** The channel's messages in id order. */
  function ChannelMessages(msg: MessageState, c: ChannelId): seq<Message>
    requires msg.messages.Valid()
  {
    SortById(Filter(msg.messages.Values(), InChannel(c)))
  }

  /** `findIndex` by id, plus one: zero when no message has that id. */
  function StartAfter(all: seq<Message>, cursor: MessageId): (n: nat)
    ensures n <= |all|
    ensures n > 0 ==> all[n - 1].id == cursor
    ensures n == 0 ==> forall m :: m in all ==> m.id != cursor
  {
    if all == [] then 0
    else if all[0].id == cursor then 1
    else
      var n := StartAfter(all[1..], cursor);
      assert all == [all[0]] + all[1..];
      if n == 0 then 0 else n + 1
  }

  function Slice(all: seq<Message>, start: nat, limit: nat): seq<Message>
    requires start <= |all|
  {
    if start + limit <= |all| then all[start..start + limit] else all[start..]
  }

  function SliceAfter(all: seq<Message>, cursor: Option<MessageId>, limit: nat): seq<Message> {
    Slice(all, if cursor.Some? then StartAfter(all, cursor.value) else 0, limit)
  }

  /** The in-memory `list`: index of the cursor, then a slice. */
  function List(msg: MessageState, c: ChannelId, cursor: Option<MessageId>, limit: nat): seq<Message>
    requires msg.messages.Valid()
  {
    SliceAfter(ChannelMessages(msg, c), cursor, limit)
  }

  /** The PostgreSQL `list`: the first `limit` messages with an id above the cursor. */
  function ListRange(msg: MessageState, c: ChannelId, cursor: Option<MessageId>, limit: nat): seq<Message>
    requires msg.messages.Valid()
  {
    var above := Filter(ChannelMessages(msg, c), (m: Message) => cursor.Some? ==> m.id > cursor.value);
    Slice(above, 0, limit)
  }

  predicate IsExpired(m: Message, before: nat) {
    m.status != StatusDeleted && m.content.Ciphertext? && m.content.expiresAt.Some? && m.content.expiresAt.value <= before
  }

  function ListExpired(msg: MessageState, before: nat): seq<Message>
    requires msg.messages.Valid()
  {
    Filter(msg.messages.Values(), (m: Message) => IsExpired(m, before))
  }

  // ---------------------------------------------------------------- reactions, saves

  function CountReactions(reactions: JsMap<ReactionKey, nat>, id: MessageId, emoji: Emoji): nat {
    |Filter(reactions.keys, (k: ReactionKey) => k.messageId == id && k.emoji == emoji)|
  }

  function WithReaction(reactions: JsMap<ReactionKey, nat>, key: ReactionKey, add: bool, now: nat): JsMap<ReactionKey, nat> {
    if add then reactions.Set(key, now) else reactions.Delete(key)
  }

  function ListSaved(msg: MessageState, user: UserId): seq<Message> {
    SavedFrom(msg, msg.saved.keys, user)
  }

  function SavedFrom(msg: MessageState, keys: seq<(UserId, MessageId)>, user: UserId): (r: seq<Message>)
    ensures forall m :: m in r ==> exists k :: k in keys && k.0 == user && k.1 in msg.messages.vals && msg.messages.vals[k.1] == m
  {
    if keys == [] then []
    else
      assert keys == [keys[0]] + keys[1..];
      (if keys[0].0 == user && keys[0].1 in msg.messages.vals then [msg.messages.vals[keys[0].1]] else [])
      + SavedFrom(msg, keys[1..], user)
  }

  // ---------------------------------------------------------------- the invariant

  function ClientKey(m: Message): (UserId, ClientMsgId) {
    (m.senderId, m.clientMsgId)
  }

  ghost predicate Indexed(index: ClientIndex, m: Message, id: MessageId) {
    m.id == id && ClientKey(m) in index && index[ClientKey(m)] == id
  }

  ghost predicate Backed(ms: MessageTable, key: (UserId, ClientMsgId), id: MessageId) {
    id in ms.vals && ClientKey(ms.vals[id]) == key
  }

  /** Each message is stored under its own id; the client-id index and the messages are an exact bijection. */
  ghost predicate IndexInv(ms: MessageTable, index: ClientIndex) {
    && ms.Valid()
    && (forall id :: id in ms.vals ==> Indexed(index, ms.vals[id], id))
    && (forall key :: key in index ==> Backed(ms, key, index[key]))
  }

  ghost predicate TombstoneInv(ms: MessageTable) {
    forall id :: id in ms.vals && ms.vals[id].status == StatusDeleted ==> ms.vals[id].content.Tombstone?
  }

  /** Receipts are for stored messages and never from the sender; each pending one is recorded, and once. */
  ghost predicate ReceiptInv(ms: MessageTable, receipts: set<Receipt>, pending: seq<Receipt>) {
    && (forall r :: r in receipts ==> r.messageId in ms.vals && ms.vals[r.messageId].senderId != r.user)
    && (forall r :: r in pending ==> r in receipts)
    && Distinct(pending)
  }

  ghost predicate MessageInv(msg: MessageState) {
    && IndexInv(msg.messages, msg.byClientId)
    && TombstoneInv(msg.messages)
    && ReceiptInv(msg.messages, msg.receipts, msg.pendingReceipts)
    && msg.attachments.Keys == msg.messages.vals.Keys
    && msg.reactions.Valid()
    && msg.saved.Valid()
  }

  // ---------------------------------------------------------------- how messages may change

  /** Tombstones stay tombstones, text never becomes ciphertext and keeps its attachments, ciphertext never changes but
      into a tombstone. */
  predicate ContentEvolves(c: Content, c': Content) {
    match c
    case Text(_, files) => (c'.Text? && c'.attachments == files) || c'.Tombstone?
    case Ciphertext(_, _, _, _) => c' == c || c'.Tombstone?
    case Tombstone(_) => c'.Tombstone?
  }

  /** What no update of a message ever changes. */
  predicate SameIdentity(m: Message, m': Message) {
    && m'.id == m.id && m'.workspaceId == m.workspaceId && m'.channelId == m.channelId
    && m'.senderId == m.senderId && m'.clientMsgId == m.clientMsgId
    && m'.replyTo == m.replyTo && m'.createdAt == m.createdAt
  }

  predicate MessageEvolves(m: Message, m': Message) {
    && SameIdentity(m, m')
    && (m.deletedAt.Some? ==> m'.deletedAt == m.deletedAt)
    && ContentEvolves(m.content, m'.content)
  }

  /** Nothing is ever removed, and every message evolves. */
  ghost predicate AllEvolve(ms: MessageTable, ms': MessageTable) {
    forall id :: id in ms.vals ==> id in ms'.vals && MessageEvolves(ms.vals[id], ms'.vals[id])
  }

  ghost predicate IndexGrows(index: ClientIndex, index': ClientIndex) {
    forall key :: key in index ==> key in index' && index'[key] == index[key]
  }

  ghost predicate Evolves(msg: MessageState, msg': MessageState) {
    AllEvolve(msg.messages, msg'.messages) && IndexGrows(msg.byClientId, msg'.byClientId)
  }

  lemma ReplaceKeepsIndex(ms: MessageTable, index: ClientIndex, m: Message)
    requires IndexInv(ms, index) && m.id in ms.vals && SameIdentity(ms.vals[m.id], m)
    ensures IndexInv(ms.Set(m.id, m), index)
  {
    var ms' := ms.Set(m.id, m);
    forall id | id in ms'.vals
      ensures Indexed(index, ms'.vals[id], id)
    {
      assert Indexed(index, ms.vals[id], id);
    }
    forall key | key in index
      ensures Backed(ms', key, index[key])
    {
      assert Backed(ms, key, index[key]);
    }
  }

  /** Overwriting a row keeps every table's invariant and the row's place, and, when the row evolves, loses nothing. */
  lemma UpdateKeeps(msg: MessageState, m: Message)
    requires MessageInv(msg) && m.id in msg.messages.vals && SameIdentity(msg.messages.vals[m.id], m)
    requires m.status == StatusDeleted ==> m.content.Tombstone?
    ensures MessageInv(Update(msg, m)) && Update(msg, m).messages.keys == msg.messages.keys
    ensures MessageEvolves(msg.messages.vals[m.id], m) ==> Evolves(msg, Update(msg, m))
  {
    ReplaceKeepsIndex(msg.messages, msg.byClientId, m);
    assert Update(msg, m).messages.vals.Keys == msg.messages.vals.Keys;
  }

  lemma FindByClientIs(msg: MessageState, key: (UserId, ClientMsgId))
    requires IndexInv(msg.messages, msg.byClientId)
    ensures FindByClient(msg, key.0, key.1).Some? <==> key in msg.byClientId
    ensures key in msg.byClientId ==>
      msg.byClientId[key] in msg.messages.vals && FindByClient(msg, key.0, key.1) == Some(msg.messages.vals[msg.byClientId[key]])
  {
    if key in msg.byClientId {
      assert Backed(msg.messages, key, msg.byClientId[key]);
    }
  }

  lemma InsertKeepsIndex(ms: MessageTable, index: ClientIndex, m: Message)
    requires IndexInv(ms, index) && m.id !in ms.vals && ClientKey(m) !in index
    ensures IndexInv(ms.Set(m.id, m), index[ClientKey(m) := m.id])
  {
    var ms', index' := ms.Set(m.id, m), index[ClientKey(m) := m.id];
    forall id | id in ms'.vals
      ensures Indexed(index', ms'.vals[id], id)
    {
      if id != m.id {
        assert Indexed(index, ms.vals[id], id);
      }
    }
    forall key | key in index'
      ensures Backed(ms', key, index'[key])
    {
      if key != ClientKey(m) {
        assert Backed(ms, key, index[key]);
      }
    }
  }

  lemma InsertEvolves(ms: MessageTable, index: ClientIndex, m: Message)
    requires m.id !in ms.vals && ClientKey(m) !in index
    ensures AllEvolve(ms, ms.Set(m.id, m)) && IndexGrows(index, index[ClientKey(m) := m.id])
  {
  }

  lemma InsertKeepsRest(ms: MessageTable, receipts: set<Receipt>, pending: seq<Receipt>, m: Message)
    requires TombstoneInv(ms) && ReceiptInv(ms, receipts, pending) && m.id !in ms.vals
    requires m.status == StatusDeleted ==> m.content.Tombstone?
    ensures TombstoneInv(ms.Set(m.id, m)) && ReceiptInv(ms.Set(m.id, m), receipts, pending)
  {
  }

  lemma InsertKeeps(msg: MessageState, m: Message, files: set<FileId>)
    requires MessageInv(msg) && m.id !in msg.messages.vals && ClientKey(m) !in msg.byClientId
    requires m.status == StatusDeleted ==> m.content.Tombstone?
    ensures var (msg', created) := Create(msg, m, files);
      MessageInv(msg') && Evolves(msg, msg') && msg'.messages == msg.messages.Set(m.id, m) && created == m
  {
    var msg' := Create(msg, m, files).0;
    FindByClientIs(msg, ClientKey(m));
    InsertKeepsIndex(msg.messages, msg.byClientId, m);
    InsertKeepsRest(msg.messages, msg.receipts, msg.pendingReceipts, m);
    InsertEvolves(msg.messages, msg.byClientId, m);
    assert msg'.attachments.Keys == msg'.messages.vals.Keys;
  }

  /** `create` returns the one row for its (sender, client id): the one already there, or the new one. */
  lemma {:induction false} CreateKeeps(msg: MessageState, m: Message, files: set<FileId>)
    requires MessageInv(msg) && m.id !in msg.messages.vals
    requires m.status == StatusDeleted ==> m.content.Tombstone?
    ensures var (msg', created) := Create(msg, m, files);
      && MessageInv(msg') && Evolves(msg, msg')
      && msg'.messages.Get(created.id) == Some(created)
      && ClientKey(created) == ClientKey(m)
      && (if ClientKey(m) in msg.byClientId then msg' == msg
          else created == m && msg'.messages == msg.messages.Set(m.id, m))
  {
    var (msg', created) := Create(msg, m, files);
    FindByClientIs(msg, ClientKey(m));
    if ClientKey(m) in msg.byClientId {
      var id := msg.byClientId[ClientKey(m)];
      assert Backed(msg.messages, ClientKey(m), id) && Indexed(msg.byClientId, msg.messages.vals[id], id);
      EvolvesReflexive(msg);
    } else {
      InsertKeeps(msg, m, files);
    }
  }

  lemma EvolvesReflexive(msg: MessageState)
    ensures Evolves(msg, msg)
  {
  }

  lemma EvolvesTransitive(a: MessageState, b: MessageState, c: MessageState)
    requires Evolves(a, b) && Evolves(b, c)
    ensures Evolves(a, c)
  {
    forall id | id in a.messages.vals
      ensures id in c.messages.vals && MessageEvolves(a.messages.vals[id], c.messages.vals[id])
    {
      assert MessageEvolves(a.messages.vals[id], b.messages.vals[id]) && MessageEvolves(b.messages.vals[id], c.messages.vals[id]);
    }
  }
}
