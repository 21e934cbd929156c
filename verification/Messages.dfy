/**
 What each message operation does to the state: sending, editing, deleting, forwarding, acknowledging,
 flushing receipts, cleaning up; and what readers see.
 */
module Messages {
  import opened JsCollections
  import opened Ids
  import opened DmNames
  import opened Domain
  import opened Workspaces
  import opened MessageStore
  import opened Bots

  // ---------------------------------------------------------------- what readers see

  function Entomb(m: Message, reason: TombstoneReason, now: nat): Message {
    m.(content := Tombstone(reason), status := StatusDeleted, deletedAt := if m.deletedAt.Some? then m.deletedAt else Some(now))
  }

  function Visible(m: Message, now: nat): Message {
    if m.status == StatusDeleted then
      Entomb(m, if m.content.Tombstone? then m.content.reason else Deleted, now)
    else if m.content.Ciphertext? && m.content.expiresAt.Some? && m.content.expiresAt.value <= now then
      Entomb(m, Expired, now)
    else m
  }

  function AllVisible(ms: seq<Message>, now: nat): seq<Message> {
    seq(|ms|, i requires 0 <= i < |ms| => Visible(ms[i], now))
  }

  datatype Page = Page(items: seq<Message>, nextCursor: Option<MessageId>)

  function ListPage(s: State, actor: UserId, c: ChannelId, cursor: Option<MessageId>, limit: nat, now: nat): Page
    requires s.msg.messages.Valid()
  {
    if !CanAccessChannel(s.ws, actor, c) then Page([], None)
    else
      var items := AllVisible(List(s.msg, c, cursor, limit), now);
      Page(items, if |items| == limit && limit > 0 then Some(items[|items| - 1].id) else None)
  }

  function AccessibleTo(ws: WorkspaceState, actor: UserId): Message -> bool {
    (m: Message) => CanAccessChannel(ws, actor, m.channelId)
  }

  function ListSavedFor(s: State, actor: UserId, now: nat): seq<Message> {
    AllVisible(Filter(ListSaved(s.msg, actor), AccessibleTo(s.ws, actor)), now)
  }

  // ---------------------------------------------------------------- sending

  datatype SendResult = SendResult(state: State, outcome: Outcome<Message>, published: seq<BotEvent>)

  function ReplyAllowed(msg: MessageState, input: SendInput): bool {
    input.replyTo.None?
    || var reply := Find(msg, input.replyTo.value);
       reply.Some? && reply.value.channelId == input.channelId && reply.value.status != StatusDeleted
  }

  function Attachments(content: Content): seq<FileId> {
    match content
    case Text(_, files) => files
    case Ciphertext(_, _, _, files) => files
    case Tombstone(_) => []
  }

  function SentMessage(id: MessageId, actor: UserId, input: SendInput, now: nat): Message {
    Message(
      id, input.workspaceId, input.channelId, actor, input.clientMsgId, input.content, StatusSent, input.replyTo,
      None, now, None, None)
  }

  function CreatedEvent(m: Message, input: SendInput, now: nat): BotEvent {
    BotEvent(MessageCreated, input.workspaceId, input.channelId, MessagePayload(m), now)
  }

  function SendAllowed(s: State, actor: UserId, input: SendInput): bool {
    && input.channelId in s.ws.channels.vals
    && s.ws.channels.vals[input.channelId].workspaceId == input.workspaceId
    && CanAccessChannel(s.ws, actor, input.channelId)
  }

  /** What the first half of a send decides, up to the client-id check and the attachments. */
  datatype Admission = Refused(error: Error) | Known(existing: Message) | Admitted

  /** `attachmentError` is what the attachment service answers for the input's references. */
  function Admit(s: State, actor: UserId, input: SendInput, attachmentError: Option<Error>): Admission {
    if !SendAllowed(s, actor, input) then Refused(Forbidden)
    else if (s.ws.channels.vals[input.channelId].mode == E2e) != input.content.Ciphertext? then Refused(ValidationFailed)
    else
      match FindByClient(s.msg, actor, input.clientMsgId)
      case Some(existing) => Known(existing)
      case None =>
        if !ReplyAllowed(s.msg, input) then Refused(NotFound)
        else if attachmentError.Some? then Refused(attachmentError.value)
        else Admitted
  }

  /** After `create`: in a normal channel its row is published, new or not. */
  function Announced(s: State, input: SendInput, msg': MessageState, created: Message, now: nat): SendResult {
    var s1 := s.(msg := msg');
    if IsNormal(s.ws, input.channelId) then
      var event := CreatedEvent(created, input, now);
      SendResult(s1.(bot := Publish(s.bot, event)), Ok(created), [event])
    else SendResult(s1, Ok(created), [])
  }

  /** The second half: create, then publish. */
  function Finish(s: State, actor: UserId, input: SendInput, id: MessageId, now: nat): SendResult {
    var files := set f | f in Attachments(input.content);
    var (msg', created) := Create(s.msg, SentMessage(id, actor, input, now), files);
    Announced(s, input, msg', created, now)
  }

  function Send(
      s: State, actor: UserId, input: SendInput, attachmentError: Option<Error>, id: MessageId, now: nat): SendResult
  {
    match Admit(s, actor, input, attachmentError)
    case Refused(error) => SendResult(s, Fail(error), [])
    case Known(existing) => SendResult(s, Ok(existing), [])
    case Admitted => Finish(s, actor, input, id, now)
  }

  // ---------------------------------------------------------------- changing messages

  function WithEvent(msg: MessageState, e: MessageEvent): MessageState {
    msg.(events := msg.events + [e])
  }

  function Edit(msg: MessageState, actor: UserId, id: MessageId, text: string, now: nat): (MessageState, Outcome<Message>) {
    match Find(msg, id)
    case None => (msg, Fail(Forbidden))
    case Some(m) =>
      if m.senderId != actor then (msg, Fail(Forbidden))
      else if !m.content.Text? then (msg, Fail(ValidationFailed))
      else
        var updated := m.(content := m.content.(text := text), editedAt := Some(now));
        (WithEvent(Update(msg, updated), MessageUpdated(updated, now)), Ok(updated))
  }

  function SoftDelete(msg: MessageState, actor: UserId, id: MessageId, now: nat): (MessageState, Outcome<Message>) {
    match Find(msg, id)
    case None => (msg, Fail(Forbidden))
    case Some(m) =>
      if m.senderId != actor then (msg, Fail(Forbidden))
      else
        var updated := Entomb(m, Deleted, now);
        (WithEvent(Update(msg, updated), MessageDeleted(updated, now)), Ok(updated))
  }

  function OriginOf(source: Message): Origin {
    if source.origin.Some? then source.origin.value else Origin(source.id, source.senderId, source.createdAt)
  }

  function ForwardInput(s: State, source: Message, target: ChannelId, client: ClientMsgId): SendInput
    requires target in s.ws.channels.vals
  {
    SendInput(s.ws.channels.vals[target].workspaceId, target, client, source.content, None)
  }

  /** A successful send, then an update that records where the content came from. */
  function WithOrigin(sent: SendResult, origin: Origin): SendResult {
    match sent.outcome
    case Fail(_) => sent
    case Ok(m) =>
      var updated := m.(origin := Some(origin));
      SendResult(sent.state.(msg := Update(sent.state.msg, updated)), Ok(updated), sent.published)
  }

  function Forward(
      s: State, actor: UserId, id: MessageId, target: ChannelId, client: ClientMsgId,
      attachmentError: Option<Error>, newId: MessageId, now: nat): SendResult
  {
    if Find(s.msg, id).None? || target !in s.ws.channels.vals then SendResult(s, Fail(NotFound), [])
    else
      var source := Find(s.msg, id).value;
      if !CanAccessChannel(s.ws, actor, source.channelId) then SendResult(s, Fail(Forbidden), [])
      else
        WithOrigin(Send(s, actor, ForwardInput(s, source, target, client), attachmentError, newId, now), OriginOf(source))
  }

  function Save(s: State, actor: UserId, id: MessageId, now: nat): (MessageState, Outcome<nat>) {
    match Find(s.msg, id)
    case None => (s.msg, Fail(NotFound))
    case Some(m) =>
      if !CanAccessChannel(s.ws, actor, m.channelId) then (s.msg, Fail(Forbidden))
      else if (actor, id) in s.msg.saved.vals then (s.msg, Ok(s.msg.saved.vals[(actor, id)]))
      else (s.msg.(saved := s.msg.saved.Set((actor, id), now)), Ok(now))
  }

  function React(s: State, actor: UserId, id: MessageId, emoji: Emoji, add: bool, now: nat): (MessageState, Outcome<nat>) {
    match Find(s.msg, id)
    case None => (s.msg, Fail(NotFound))
    case Some(m) =>
      if !CanAccessChannel(s.ws, actor, m.channelId) then (s.msg, Fail(Forbidden))
      else
        var reactions := WithReaction(s.msg.reactions, ReactionKey(id, actor, emoji), add, now);
        var count := CountReactions(reactions, id, emoji);
        (WithEvent(s.msg.(reactions := reactions), MessageReaction(m.channelId, id, emoji, count, add, now)), Ok(count))
  }

  /** The message after an acknowledgement: read, or, when it is read-once ciphertext, consumed. */
  function Acked(m: Message, now: nat): Message {
    if m.content.Ciphertext? && m.content.readOnce then Entomb(m.(status := StatusRead), ReadOnceConsumed, now)
    else m.(status := StatusRead)
  }

  function RecordReceipt(msg: MessageState, sender: UserId, receipt: Receipt): MessageState {
    if sender != receipt.user && receipt !in msg.receipts
    then msg.(receipts := msg.receipts + {receipt}, pendingReceipts := msg.pendingReceipts + [receipt])
    else msg
  }

  function AckRead(s: State, actor: UserId, id: MessageId, now: nat): (MessageState, Outcome<()>) {
    match Find(s.msg, id)
    case None => (s.msg, Fail(NotFound))
    case Some(m) =>
      if !CanAccessChannel(s.ws, actor, m.channelId) then (s.msg, Fail(Forbidden))
      else
        (Update(RecordReceipt(s.msg, m.senderId, Receipt(id, actor)), Acked(m, now)), Ok(()))
  }

  // ---------------------------------------------------------------- flushing receipts

  datatype Batch = Batch(messageId: MessageId, channelId: ChannelId, readers: seq<UserId>, flushedAt: nat)

  predicate Selected(msg: MessageState, channel: Option<ChannelId>, r: Receipt) {
    channel.None? || (r.messageId in msg.messages.vals && msg.messages.vals[r.messageId].channelId == channel.value)
  }

  /** Readers per message: messages in order of their first receipt, readers in receipt order. */
  function GroupReaders(receipts: seq<Receipt>): (g: JsMap<MessageId, seq<UserId>>)
    ensures g.Valid()
  {
    if receipts == [] then Empty()
    else
      var g := GroupReaders(receipts[..|receipts| - 1]);
      var r := receipts[|receipts| - 1];
      g.Set(r.messageId, (if r.messageId in g.vals then g.vals[r.messageId] else []) + [r.user])
  }

  function BatchesFor(msg: MessageState, ids: seq<MessageId>, groups: map<MessageId, seq<UserId>>, now: nat): seq<Batch>
    requires forall id :: id in ids ==> id in groups
  {
    if ids == [] then []
    else
      BatchesFor(msg, ids[..|ids| - 1], groups, now)
      + var id := ids[|ids| - 1];
        if id in msg.messages.vals then [Batch(id, msg.messages.vals[id].channelId, groups[id], now)] else []
  }

  function Drained(msg: MessageState, channel: Option<ChannelId>): Receipt -> bool {
    (r: Receipt) => Selected(msg, channel, r)
  }

  function Undrained(msg: MessageState, channel: Option<ChannelId>): Receipt -> bool {
    (r: Receipt) => !Selected(msg, channel, r)
  }

  function FlushReceipts(msg: MessageState, channel: Option<ChannelId>, now: nat): (MessageState, seq<Batch>) {
    var groups := GroupReaders(Filter(msg.pendingReceipts, Drained(msg, channel)));
    (msg.(pendingReceipts := Filter(msg.pendingReceipts, Undrained(msg, channel))),
     BatchesFor(msg, groups.keys, groups.vals, now))
  }

  // ---------------------------------------------------------------- cleaning up

  function CleanedUp(m: Message, before: nat, now: nat): Message {
    if IsExpired(m, before) then Entomb(m, Expired, now) else m
  }

  /** Every expired message becomes a tombstone, in place; nothing else changes. */
  function CleanUp(msg: MessageState, before: nat, now: nat): MessageState {
    msg.(messages := JsMap(msg.messages.keys, map id | id in msg.messages.vals :: CleanedUp(msg.messages.vals[id], before, now)))
  }
}
