/**
 Ids shared by every component.
 */
module Ids {
  type UserId = string
  type WorkspaceId = int
  type ChannelId = int

  /** A message id stands for its rank in the collation order that both adapters sort by; only the
      order and freshness are used. */
  type MessageId = int

  /** The string a client chose, or the one `/help` derives from the id of its reply. */
  datatype ClientMsgId = Chosen(text: string) | BotReply(id: MessageId)
}

/**
 The entities of the chat domain, and the whole in-memory state as one value.
 */
module Domain {
  import opened JsCollections
  import opened Ids
  import opened DmNames

  type BotId = UserId
  type FileId = int
  type Emoji = string

  datatype Error = Forbidden | NotFound | ValidationFailed | Conflict | E2eBotNotAllowed
  datatype Outcome<+T> = Ok(value: T) | Fail(error: Error)

  // ---------------------------------------------------------------- workspaces

  datatype Role = Owner | Admin | Member
  datatype ChannelKind = Room | DirectMessage

  datatype Channel = Channel(
    id: ChannelId, workspaceId: WorkspaceId, name: string, description: Option<string>,
    kind: ChannelKind, mode: ChannelMode, isPrivate: bool, createdById: Option<UserId>,
    archivedAt: Option<nat>, deletedAt: Option<nat>, createdAt: nat)

  datatype WorkspaceState = WorkspaceState(
    workspaces: map<WorkspaceId, string>,
    roles: map<(WorkspaceId, UserId), Role>,
    channels: JsMap<ChannelId, Channel>,
    channelMembers: set<(ChannelId, UserId)>)

  // ---------------------------------------------------------------- messages

  datatype TombstoneReason = Deleted | Expired | ReadOnceConsumed

  datatype Content =
    | Text(text: string, attachments: seq<FileId>)
    | Ciphertext(ciphertext: string, readOnce: bool, expiresAt: Option<nat>, attachments: seq<FileId>)
    | Tombstone(reason: TombstoneReason)

  datatype Status = StatusSent | StatusDelivered | StatusRead | StatusDeleted

  /** Where a forwarded message came from; the three source fields are always set together. */
  datatype Origin = Origin(messageId: MessageId, senderId: UserId, createdAt: nat)

  datatype Message = Message(
    id: MessageId, workspaceId: WorkspaceId, channelId: ChannelId, senderId: UserId, clientMsgId: ClientMsgId,
    content: Content, status: Status, replyTo: Option<MessageId>, origin: Option<Origin>,
    createdAt: nat, editedAt: Option<nat>, deletedAt: Option<nat>)

  datatype SendInput = SendInput(
    workspaceId: WorkspaceId, channelId: ChannelId, clientMsgId: ClientMsgId, content: Content, replyTo: Option<MessageId>)

  /** Stands for the key string `message:user:emoji`. */
  datatype ReactionKey = ReactionKey(messageId: MessageId, user: UserId, emoji: Emoji)

  datatype Receipt = Receipt(messageId: MessageId, user: UserId)

  datatype MessageEvent =
    | MessageUpdated(message: Message, at: nat)
    | MessageDeleted(message: Message, at: nat)
    | MessageReaction(channelId: ChannelId, messageId: MessageId, emoji: Emoji, count: nat, reacted: bool, at: nat)

  datatype MessageState = MessageState(
    messages: JsMap<MessageId, Message>,
    byClientId: map<(UserId, ClientMsgId), MessageId>,
    attachments: map<MessageId, set<FileId>>,
    reactions: JsMap<ReactionKey, nat>,
    saved: JsMap<(UserId, MessageId), nat>,
    receipts: set<Receipt>,
    pendingReceipts: seq<Receipt>,
    events: seq<MessageEvent>)

  // ---------------------------------------------------------------- bots

  datatype Command = Command(name: string, description: string)
  datatype EventType = MessageCreated | CommandInvoked | OtherEvent(name: string)

  datatype Manifest = Manifest(id: BotId, commands: seq<Command>, canWrite: bool)

  datatype Bot = Bot(workspaceId: WorkspaceId, manifest: Manifest, channelIds: set<ChannelId>, subscribedEvents: set<EventType>)

  datatype Payload =
    | MessagePayload(message: Message)
    | CommandPayload(user: UserId, command: string, args: string)

  datatype BotEvent = BotEvent(eventType: EventType, workspaceId: WorkspaceId, channelId: ChannelId, payload: Payload, createdAt: nat)

  datatype BotState = BotState(bots: JsMap<BotId, Bot>, queues: map<BotId, seq<BotEvent>>)

  // ---------------------------------------------------------------- everything

  datatype State = State(ws: WorkspaceState, msg: MessageState, bot: BotState)

  const InitialState: State := State(
    WorkspaceState(map[], map[], JsMap([], map[]), {}),
    MessageState(JsMap([], map[]), map[], map[], JsMap([], map[]), JsMap([], map[]), {}, [], []),
    BotState(JsMap([], map[]), map[]))

  /** The process-wide store: one mutable field per table. */
  class InMemoryStore {
    var workspaces: map<WorkspaceId, string>
    var workspaceMembers: map<(WorkspaceId, UserId), Role>
    var channels: JsMap<ChannelId, Channel>
    var channelMembers: set<(ChannelId, UserId)>
    var messages: JsMap<MessageId, Message>
    var messagesByClientId: map<(UserId, ClientMsgId), MessageId>
    var messageAttachments: map<MessageId, set<FileId>>
    var messageReactions: JsMap<ReactionKey, nat>
    var savedMessages: JsMap<(UserId, MessageId), nat>
    var readReceipts: set<Receipt>
    var pendingReadReceipts: seq<Receipt>
    var messageEvents: seq<MessageEvent>
    var bots: JsMap<BotId, Bot>
    var pendingEvents: map<BotId, seq<BotEvent>>

    constructor ()
      ensures Valid() && View() == InitialState
    {
      workspaces, workspaceMembers, channels, channelMembers := map[], map[], JsMap([], map[]), {};
      messages, messagesByClientId, messageAttachments := JsMap([], map[]), map[], map[];
      messageReactions, savedMessages := JsMap([], map[]), JsMap([], map[]);
      readReceipts, pendingReadReceipts, messageEvents := {}, [], [];
      bots, pendingEvents := JsMap([], map[]), map[];
    }

    /** Every insertion-ordered table is well formed. */
    ghost predicate Valid()
      reads this
    {
      channels.Valid() && messages.Valid() && messageReactions.Valid() && savedMessages.Valid() && bots.Valid()
    }

    function WorkspaceView(): WorkspaceState
      reads this
    {
      WorkspaceState(workspaces, workspaceMembers, channels, channelMembers)
    }

    function MessageView(): MessageState
      reads this
    {
      MessageState(messages, messagesByClientId, messageAttachments, messageReactions, savedMessages,
                   readReceipts, pendingReadReceipts, messageEvents)
    }

    function BotView(): BotState
      reads this
    {
      BotState(bots, pendingEvents)
    }

    function View(): State
      reads this
    {
      State(WorkspaceView(), MessageView(), BotView())
    }
  }
}
