/**
 The in-memory message persistence, updating the store in place; each method is proved to do exactly what
 `MessageStore` says.
 */
module MessagePersistence {
  import opened Ids
  import opened Domain
  import MessageStore

  /** Insert-or-get on (sender, client id): three tables change together, or none does. */
  method Create(store: InMemoryStore, m: Message, files: seq<FileId>) returns (created: Message)
    requires store.Valid()
    modifies store`messages, store`messagesByClientId, store`messageAttachments
    ensures store.Valid()
    ensures (store.MessageView(), created) == MessageStore.Create(old(store.MessageView()), m, set f | f in files)
  {
    var existing := MessageStore.FindByClient(store.MessageView(), m.senderId, m.clientMsgId);
    if existing.Some? {
      return existing.value;
    }
    store.messages := store.messages.Set(m.id, m);
    store.messagesByClientId := store.messagesByClientId[(m.senderId, m.clientMsgId) := m.id];
    store.messageAttachments := store.messageAttachments[m.id := set f | f in files];
    created := m;
  }

  method Update(store: InMemoryStore, m: Message)
    requires store.Valid()
    modifies store`messages
    ensures store.Valid()
    ensures store.MessageView() == MessageStore.Update(old(store.MessageView()), m)
  {
    store.messages := store.messages.Set(m.id, m);
  }

  /** Saving again keeps the first time. */
  method Save(store: InMemoryStore, user: UserId, id: MessageId, now: nat) returns (savedAt: nat)
    requires store.Valid()
    modifies store`savedMessages
    ensures store.Valid()
    ensures savedAt == if (user, id) in old(store.savedMessages.vals) then old(store.savedMessages.vals[(user, id)]) else now
    ensures store.savedMessages ==
      if (user, id) in old(store.savedMessages.vals) then old(store.savedMessages) else old(store.savedMessages).Set((user, id), now)
  {
    if (user, id) in store.savedMessages.vals {
      return store.savedMessages.vals[(user, id)];
    }
    store.savedMessages := store.savedMessages.Set((user, id), now);
    savedAt := now;
  }

  method React(store: InMemoryStore, id: MessageId, user: UserId, emoji: Emoji, add: bool, now: nat) returns (count: nat)
    requires store.Valid()
    modifies store`messageReactions
    ensures store.Valid()
    ensures store.messageReactions == MessageStore.WithReaction(old(store.messageReactions), ReactionKey(id, user, emoji), add, now)
    ensures count == MessageStore.CountReactions(store.messageReactions, id, emoji)
  {
    var key := ReactionKey(id, user, emoji);
    if add {
      store.messageReactions := store.messageReactions.Set(key, now);
    } else {
      store.messageReactions := store.messageReactions.Delete(key);
    }
    count := MessageStore.CountReactions(store.messageReactions, id, emoji);
  }

  /** True the first time a receipt is recorded, false ever after. */
  method RecordReceipt(store: InMemoryStore, receipt: Receipt) returns (first: bool)
    modifies store`readReceipts
    ensures first == (receipt !in old(store.readReceipts))
    ensures store.readReceipts == old(store.readReceipts) + {receipt}
  {
    if receipt in store.readReceipts {
      return false;
    }
    store.readReceipts := store.readReceipts + {receipt};
    first := true;
  }
}
