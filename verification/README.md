# Verification of the Nexus chat core

A Dafny model of the chat server's in-memory domain, the delivery path between web clients, and the small
concurrent machines beside them, with proofs of what they promise over whole runs.

- `JsCollections`, `Domain`: insertion-ordered maps, the array helpers, the entities, and the process-wide store as a class.
- `Workspaces`, `MessageStore`, `Bots`, `Messages`: what each operation does, as functions on the state.
- `WorkspaceService`, `MessagePersistence`, `BotService`, `MessageService`, `Gateway`: the same operations as methods that
  update the store in place, loops included, each proved to do exactly what the functions say.
- `Runs`: any sequence of whole calls, and the invariant every call keeps. `Interleaving`: the same with the awaits inside sends,
  edits, deletions, acknowledgements, expiries, forwards and workspace calls. `InMemoryCreate`, `InMemoryEvents`: all of that with
  the await inside the in-memory `create` as well, over `Rows`, what calls keep of the rows without relying on the client-id index.
- `Effects`, `Authority`: what each message, workspace and bot call answers and changes, in plain terms, and where roles and
  memberships can come from.
- `Guarantees`, `Access`, `Paging`, `Receipts`, `BotEvents`, `DirectMessages`: what follows for users over every interleaving, and
  exactly when a promise fails; `Reactions`: the aggregate of any one state. `Scenarios`, `Races`: runs from the empty store in
  which promises that can fail do.
- `Transport`, `ClientStore`, `Composer`, `Delivery`: peer-to-peer or relay, the client's store, and the end-to-end protocol.
- `RateLimiter`, `RefreshTokens`, `PreKeys`, `DmNames`: machines and formats of their own.

Verify with `dafny verify dfyconfig.toml`.

## How the system is modelled

- In `Interleaving` a send is two steps, its checks up to the attachments and then create and publish; an edit, deletion,
  acknowledgement, expiry or origin update finds a message in one step and writes its changed copy in a later one; a workspace call
  makes its checks, and finds its channel, in one step and goes to the store in a later one; bot, save, reaction and flush calls are
  one step. In `RefreshTokens` a step is what runs between two awaits.
- `create` is atomic, as `apps/server/src/domain/messages/persistence.ts:70-75` and the unique index at
  `apps/server/src/db/schema.ts:111` require, except in `InMemoryCreate` and `InMemoryEvents`, where its look and its insert are separate steps.
- Message ids are integers that stand for ranks in the collation order both adapters sort by; ids that a call draws are fresh.
  Composite string keys are tuples or records. Times are natural numbers, and the clock of a run never goes back.
- Randomness, clocks and calls out of the domain are parameters: new ids, `now`, the attachment service's answer
  (`attachmentError`), the browser's and the relay's behaviour during a send (`Transport.Environment`).
- A token's hash is some function of the token; bot tokens and event ids do not affect any modelled decision.
- The three origin fields of a forwarded message are one optional record, since the code sets them together.
- `store.Valid()` only says that the insertion-ordered tables are well formed, which every method keeps. The loops that write back
  listed rows also need each row to be stored under its own id, which every run keeps (`Runs.RunKeeps`).
- The client id that `/help` derives from its reply's fresh id is taken to differ from every client id a client or bot has chosen.
- A stored pre-key bundle carries no one-time key of its own; `takeBundle` adds the one it hands out.
- `revokedAt` is a flag, since the code only tests whether it is set.

## Where the code differs from what is said about it

- The gateway's header speaks of a sliding window; the code has fixed windows. `RateLimiter.WindowBound`,
  `WindowBoundIsTight` and `SlidingWindowIff` say how far apart the two are.
- The state `deleted` looks final but an acknowledgement can replace it by `read` (`Guarantees.AckLeavesDeletedIff`); only the
  tombstone content is final.
- With a cursor that is not in the channel the in-memory list starts over while the PostgreSQL list does not
  (`Paging.IndexFormIsRangeFormIff`).
- The in-memory `create` awaits between its look and its insert and so does not always meet the contract: `InMemoryCreate.OneRowPerKeyIff`
  says exactly when it does, and `Races.TwoRowsForOneClientId` is a run in which it does not.
- A send publishes whatever row `create` answers. When its client id was taken since its check, that is another send's message, and it
  may be the ciphertext of an E2E channel: `BotEvents.CreatedEventsAreNewMessages` and `Guarantees.E2eIsolation` say exactly when
  (`InMemoryEvents` for the in-memory `create`), `Races.RacingSendPublishesCiphertext` is such a run.
- A tombstone is permanent except against copies found before it: `Guarantees.PermanentIff`, `Races.StaleEditRevives`.
- A deleted channel stays closed except against copies found before the deletion (`Access.DeletedIff`, `Races.StaleUpdateReopens`); a
  removed member stays out except for a room or direct message granted before the removal (`Access.ShutOutIff`,
  `Races.GrantedRoomReadmits`).
- No one but an owner removes that owner, yet an admin's `addMember` with a lesser role takes the role away
  (`Authority.OwnersLoseItBy`).
- An optimistic entry that a broadcast replaces keeps the status `sending` (`ClientStore.MergedStatus`).
- `createOrGetDm` answers with any channel of the pair's name, deleted or not: `DirectMessages.DmAnswerFitsIff`, `DmAnswerOpensIff`,
  `RoomUnderDmName`, `DeletedDmIsAnswered`. Its interface says that both users are members afterwards; the in-memory adapter, modelled
  here, leaves the members of a channel it finds as they are.

## Model

| member | source | states |
|---|---|---|
| `Paging.ChannelAscending` | `apps/server/src/domain/messages/persistence.ts:127-133` | In any reachable table a channel's list is strictly ascending in id, so no id occurs twice. |
| `Paging.IndexFormIsRangeFormIff` | `apps/server/src/domain/messages/persistence.ts:127-133` | The in-memory `list` (index of the cursor, then a slice) returns what the PostgreSQL `list` (first `limit` ids above the cursor) returns if and only if there is no cursor, the limit is zero, the cursor is a message of the channel, or nothing in the channel is at or below it; any other cursor starts over. |
| `Scenarios.ForeignCursorRestarts` | `apps/server/src/domain/messages/persistence.ts:127-133` | A run in which they differ: with the cursor of another channel's message the in-memory page starts over and the PostgreSQL page is empty. |
| `Paging.PageOfWalk` | `apps/server/src/domain/messages/service.ts:151-164` | One page read from nothing or from a message of the channel: ascending, beyond its cursor, next cursor = its last id, and no message between the two cursors (or up to the end, when there is no next cursor) is missing. |
| `Paging.WalkIsComplete` | `apps/server/src/domain/messages/service.ts:151-164` | Following `nextCursor` with any limit of at least one while messages are added and changed: the collected ids strictly increase, and once a page brings no cursor every message present when the walk began has been collected. |
| `Paging.ReadsDuringRunsAreAWalk` | `apps/server/src/domain/messages/service.ts:151-164` | Reading page after page while any calls, or halves of calls, happen in between is such a walk. |
| `Paging.UnchangedWalkIsExact` | `apps/server/src/domain/messages/service.ts:151-164` | On an unchanged channel of n messages the walk ends after exactly floor(n / limit) + 1 pages and has collected exactly the channel's ids in order. |
| `Runs.StepKeepsBots` | `apps/server/src/domain/bots/service.ts:72-214` | No whole call puts a bot or a bot event into an E2E channel, or ciphertext into a queue. |
| `Runs.StepKeeps` | `apps/server/src/domain/messages/service.ts:80-369` | Every call (workspace, message, bot) keeps the whole invariant: index bijection, deleted implies tombstone, receipts well formed, E2E channels free of text, bots isolated; and messages only evolve (id, sender, channel, client id, attachments of text and deletion time fixed; tombstones and ciphertext never change back). |
| `Runs.RunKeeps` | `apps/server/src/domain/messages/service.ts:80-369` | The same over every run of calls with fresh ids and a clock that never goes back; nothing stored is ever lost. |
| `Runs.SendStores` | `apps/server/src/domain/messages/service.ts:107-137` | A send answers with the stored row for (actor, client id): the one already there, leaving the state alone, or exactly the one message it stores; what that holds is `Effects.SendStoresTheInput`. |
| `Effects.SendStoresTheInput` | `apps/server/src/domain/messages/service.ts:80-147` | A send is answered with a message if and only if its channel is in the named workspace, the sender may access it, the content fits its mode, and the client id is known or the reply is an undeleted message of the channel and the attachments are good. A known client id is answered with its row; on a free one exactly one row is added, with the input's content, channel, workspace, client id and reply, the actor as sender, status sent, the present time and nothing else set, with its files recorded, and it is announced to bots of a normal channel; every other row stays. A refusal changes nothing and says which check failed. |
| `Effects.FinishStoresTheInput` | `apps/server/src/domain/messages/service.ts:118-147` | The second half on a free client id stores that row, answers it and announces it. |
| `Effects.EditChangesTheText` | `apps/server/src/domain/messages/service.ts:165-187` | Only the sender of a text edits it; its text and edit time change, nothing else of it and no other row, and one event says so; the two refusals change nothing. |
| `Effects.SoftDeleteEntombs` | `apps/server/src/domain/messages/service.ts:188-201` | Only the sender deletes; the row becomes a tombstone that keeps its first deletion time, no other row changes, and one event says so. |
| `Effects.ForwardIsAcceptedIff` | `apps/server/src/domain/messages/service.ts:202-222` | When a forward is answered with a message: source and target exist, the actor may access both channels, the content fits the target's mode, and the client id is known or the attachments are good; a refusal changes nothing. |
| `Effects.ForwardKeepsTheFirstOrigin` | `apps/server/src/domain/messages/service.ts:202-228` | The forwarded row's origin is the source's own origin if it has one, else the source; on a free client id the rest is exactly what a send of the source's content stores and announces; on a known one its row gets the origin and nothing else changes. |
| `Effects.ForwardedTwice` | `apps/server/src/domain/messages/service.ts:223-228` | A forward of a forward, by anyone, whatever happened in between, names the first message. |
| `Effects.SaveKeepsTheFirstTime` | `apps/server/src/domain/messages/service.ts:229-242` | Only a readable message is saved; the first time is kept and answered; no other saved entry changes. |
| `Effects.AckMarksRead` | `apps/server/src/domain/messages/service.ts:298-316` | Whoever may read a message acknowledges it: it turns read, or, if it is read-once ciphertext, into a consumed tombstone; no other row changes; the receipt is recorded and pending exactly when it is the first and not the sender's. |
| `Effects.CleanUpEntombsTheExpired` | `apps/server/src/domain/messages/service.ts:361-369` | A cleanup turns every undeleted ciphertext whose expiry is at or before the given time into an `expired` tombstone, leaves every other row as it is, and leaves no such ciphertext. |
| `Effects.ExpiredListIsTheDue` | `apps/server/src/domain/messages/persistence.ts:151-159` | What is listed, and returned, is exactly those messages, each once, in the table's order. |
| `Effects.ShownAs` | `apps/server/src/domain/messages/service.ts:56-77` | A deleted message is shown as a tombstone with its own reason, expired ciphertext as an `expired` one, anything else as stored. |
| `Access.PagesAreForMembers` | `apps/server/src/domain/messages/service.ts:151-164` | A non-empty page is of a channel that exists and is not deleted, and goes to a member: of its workspace if it is the room `general`, of the channel otherwise. Anyone else gets the empty page; a member gets the list as visible now, with a cursor exactly when it is full. |
| `MessageStore.CreateKeeps` | `apps/server/src/domain/messages/persistence.ts:70-75` | `create` is insert-or-get: it returns the one row for its (sender, client id), changes nothing when there is one, and keeps the table invariant. |
| `Guarantees.E2eIsolation` | `apps/server/src/domain/messages/service.ts:96-105` | Over every interleaving from the empty store: E2E channels hold only ciphertext and tombstones, no bot's channel set contains one, no queued bot event names one, and through anything further no channel changes mode; and no queued event carries ciphertext at any point if and only if no second half of a send publishes a ciphertext row that took its client id to a listening bot. |
| `Guarantees.FinishIsPlainIff` | `apps/server/src/domain/messages/service.ts:130-146` | One second half keeps ciphertext out of the bots' queues if and only if its channel is not normal, its client id is not taken by a ciphertext row, or no bot of the channel listens. |
| `Guarantees.PlainThroughoutIff` | `apps/server/src/domain/messages/service.ts:130-146` | The same over every interleaving, from any world that meets the invariant. |
| `Guarantees.ClientIndexIsBijection` | `apps/server/src/domain/messages/persistence.ts:252-291` | Over every interleaving, with `create` atomic as this adapter makes it, the client-id index maps (sender, client id) to an id if and only if the message with that id has that sender and client id. |
| `InMemoryCreate.InsertKeepsIndexIff` | `apps/server/src/domain/messages/persistence.ts:119-126` | The in-memory insert, which does not look again after its await, keeps index and messages an exact bijection if and only if its client id is not indexed by then. |
| `InMemoryCreate.OneRowPerKeyIff` | `apps/server/src/domain/messages/persistence.ts:119-126` | Over every run in which sends, bot messages and help replies look and insert in separate steps, among all other halves and whole calls, the store ends with one row per (sender, client id) if and only if no insert ran on a key indexed since its look. |
| `InMemoryCreate.SplitAfterKeeps` | `apps/server/src/domain/messages/persistence.ts:119-126` | Over every such run, clash or not: no row goes or changes its key, each row fits its channel's mode, no channel changes mode, and bots and their events stay outside E2E channels. |
| `InMemoryCreate.LookAndInsertMakeWhole` | `apps/server/src/domain/messages/persistence.ts:119-126` | With nothing in between, the look and the insert are the second half of the send. |
| `InMemoryEvents.InMemoryEventsAreNewMessages` | `apps/server/src/domain/messages/service.ts:130-146` | Over every such run, clash or not, the `message.created` events of sends and forwards are the new messages they stored in normal channels, in order, each once, if and only if no look of a send to a normal channel finds a row; each that does adds exactly one event. |
| `InMemoryEvents.InMemoryE2eIsolation` | `apps/server/src/domain/messages/service.ts:96-146` | Over every such run from the empty store, clash or not: E2E channels hold only ciphertext and tombstones, and no bot or queued event is in one; and no queued event carries ciphertext at any point if and only if no look of a send to a normal channel with a listening bot finds a ciphertext row. |
| `Rows.StepRows` | `apps/server/src/domain/messages/service.ts:80-369` | No whole call removes a row, changes its key or makes it unfit for its channel, even when two rows share a key. |
| `Races.TwoRowsForOneClientId` | `apps/server/src/domain/messages/persistence.ts:119-126` | A reachable run of two sends of one client id that ends with two rows: both look before either inserts. |
| `Guarantees.SendIsIdempotent` | `apps/server/src/domain/messages/service.ts:107-109` | However much happens in between, halves of other calls included, a second send with the same (sender, client id) that is accepted answers with the first one's id, stores nothing and publishes nothing. |
| `Guarantees.RacingCreatesShareOneRow` | `apps/server/src/domain/messages/persistence.ts:252-291` | Two sends of one client id that both passed the pre-check: the later second half, after anything in between, answers with the earlier one's row and stores nothing. |
| `Guarantees.ObservedTombstonesArePermanent` | `apps/server/src/domain/messages/service.ts:56-77` | Once `listPage` or `listSaved` shows anyone a message as a tombstone, every later read of it by anyone, after any interleaving with a nondecreasing clock, shows a tombstone, unless a copy some call had found before was written back. |
| `Guarantees.PermanentIff` | `apps/server/src/domain/messages/service.ts:165-228` | A message that readers see as a tombstone stays one at every point of an interleaving if and only if no step writes back a copy that a call in flight had found before and that readers would not see as a tombstone. |
| `Guarantees.StaleWriteEvolvesIff` | `apps/server/src/domain/messages/service.ts:165-228` | A stale copy written back keeps the row's content evolving if and only if it does not replace a tombstone by a message. |
| `Guarantees.StaleEditEvolvesIff` | `apps/server/src/domain/messages/service.ts:165-187` | For an edit that holds a text: if and only if the row is no tombstone by then. |
| `Guarantees.StaleAckEvolvesIff` | `apps/server/src/domain/messages/service.ts:298-316` | For an acknowledgement: if and only if the row is no tombstone by then, or its copy is one or is read-once. |
| `Guarantees.StaleForwardEvolvesIff` | `apps/server/src/domain/messages/service.ts:202-228` | For a forward recording the origin: if and only if the row is no tombstone by then, or its copy is one. |
| `Races.StaleEditRevives` | `apps/server/src/domain/messages/service.ts:165-201` | A reachable run in which readers see the tombstone and then the text again: an edit finds the message, its sender deletes it, the edit writes its copy. |
| `Interleaving.AfterKeeps` | `apps/server/src/domain/messages/service.ts:80-369` | Over every interleaving of first halves, second halves and whole calls: tables consistent, the client-id index an exact bijection, bots and their events outside E2E channels, E2E channels free of text; no row is lost or changes its identity. |
| `Interleaving.WriteHalvesMakeWhole` | `apps/server/src/domain/messages/service.ts:165-201` | With nothing in between, the two halves of an edit, a deletion or an acknowledgement are the whole call. |
| `Interleaving.ExpireHalvesCleanUp` | `apps/server/src/domain/messages/service.ts:361-369` | The two halves of an expiry do to their message what the whole cleanup does, and nothing to any other. |
| `Interleaving.SendHalvesMakeWhole` | `apps/server/src/domain/messages/service.ts:80-147` | Likewise the two halves of a send. |
| `Interleaving.ForwardPartsMakeWhole` | `apps/server/src/domain/messages/service.ts:202-228` | Likewise the parts of a forward: the send's halves and the origin. |
| `Guarantees.ShownIsVisible` | `apps/server/src/domain/messages/service.ts:148-164` | Whatever a page or a saved list shows is the stored message under its id, as visible at that time. |
| `Guarantees.SavedListIsExact` | `apps/server/src/domain/messages/service.ts:243-257` | The saved list shows, as visible now, a message if and only if the user has saved it and may still access its channel. |
| `Guarantees.AckLeavesDeletedIff` | `apps/server/src/domain/messages/service.ts:298-316` | The `deleted` state is not as durable as the content: an acknowledgement leaves it `deleted` if and only if the message was still read-once ciphertext; a deleted one turns `read`, with its tombstone intact. |
| `Scenarios.AckUndeletesStatus` | `apps/server/src/domain/messages/service.ts:298-316` | A run that does so: send, delete, acknowledge. |
| `Guarantees.VisibleIsIdempotent` | `apps/server/src/domain/messages/service.ts:65-77` | Showing a shown message again at the same time changes nothing. |
| `Guarantees.CleanUpIsInvisible` | `apps/server/src/domain/messages/service.ts:361-369` | Cleaning up messages expired by some time no later than `now` leaves every page at `now` the same but for `deletedAt`, and identical when the cleanup ran at `now`. |
| `Access.RemovedMemberStaysOut` | `apps/server/src/domain/workspaces/persistence-service.ts:130-147` | Once `removeMember` has removed a user, whole or by its second half, the user stays without role and channels in the workspace at every point of an interleaving if and only if no granted `addMember` or `addChannelMember` for the user goes to the store, and no room or direct message with the user that was granted before the removal is stored under a name still free; and then the user lists no channel of the workspace, opens only empty pages of them, and is refused every send to them. |
| `Access.ShutOutIff` | `apps/server/src/domain/workspaces/persistence-service.ts:115-372` | The same from any world in which the user has no role and no channel in the workspace. |
| `Races.GrantedRoomReadmits` | `apps/server/src/domain/workspaces/persistence-service.ts:170-195` | A reachable run: a member is granted a new room and is removed before it is stored; with no role in the workspace the user is then in a channel of it. |
| `Access.DeletedChannelStaysClosed` | `apps/server/src/domain/workspaces/persistence-service.ts:325-341` | Once `deleteChannel` has marked a channel, whole or by its second half, it stays marked at every point of an interleaving if and only if no step writes back an undeleted copy that an update or archiving had found before; and then no one can access it: every page of it is empty, and every send or forward to it that begins is refused. |
| `Access.DeletedIff` | `apps/server/src/domain/workspaces/persistence-service.ts:239-257` | The same from any world in which the channel is deleted. |
| `Races.StaleUpdateReopens` | `apps/server/src/domain/workspaces/persistence-service.ts:239-257` | A reachable run: an update finds the channel, the channel is deleted, the update writes its copy back, and the channel is open again. |
| `Receipts.EveryReaderReportedOnce` | `apps/server/src/domain/messages/service.ts:298-360` | From the empty store, over every interleaving and any mix of global and per-channel flushes: the readers of a message in all batches, in order, followed by those still pending, are exactly the non-sender users who acknowledged it, each once, in order of first acknowledgement. |
| `Receipts.ReceiptsConserved` | `apps/server/src/domain/messages/service.ts:298-360` | The same from any reachable state: pending readers, then the new first acknowledgements, equal the reported readers, then the pending ones. |
| `Receipts.FlushReportsReaders` | `apps/server/src/domain/messages/service.ts:335-359` | For every message, one flush reports exactly the drained readers, in order: the lookup by message id never drops a batch. |
| `Receipts.FlushCounts` | `apps/server/src/domain/messages/service.ts:325-359` | The `readCount`s of a flush add up to the receipts it drained, and with those left pending to all there were. |
| `Receipts.FlushBatches` | `apps/server/src/domain/messages/service.ts:342-359` | A flush has one batch per message, under that message's own channel (the requested one, if any), never empty, and stamped with the time of the flush. |
| `Receipts.FlushSplits` | `apps/server/src/domain/messages/service.ts:325-334` | A flush reports all of a message's pending readers or none of them; reported and left together are what was pending. |
| `Receipts.AckReceipts` | `apps/server/src/domain/messages/service.ts:298-316` | An acknowledgement adds the reader to the pending ones exactly when it succeeds, is not the sender's, and is the first on record. |
| `Reactions.Aggregate` | `apps/server/src/domain/messages/persistence.ts:174-189` | The aggregation loop equals set semantics: it lists exactly the channel's messages that have a reaction; per message each used emoji once, with the number of distinct users (never zero) and whether the caller is one; all counts add up to the channel's reactions. |
| `Reactions.CountedIs` | `apps/server/src/domain/messages/persistence.ts:180-187` | One turn of the loop keeps a message's tallies exact when one more reaction is counted in. |
| `Reactions.ReactAnswersTheAggregate` | `apps/server/src/domain/messages/persistence.ts:160-173` | The count `react` answers, and whether the caller reacted, are what the aggregate then reports for that emoji; a zero count means it is not reported. |
| `Reactions.ReactChangesOneReaction` | `apps/server/src/domain/messages/persistence.ts:160-173` | Whoever may read a message reacts to it: the actor's own reaction is added or removed, every other key keeps its value and place, the users of the emoji gain or lose the actor only, and their number is the answer. |
| `BotEvents.QueuesConserveEvents` | `apps/server/src/domain/bots/service.ts:160-177` | For every bot, any interleaving of publishes and polls with any limits (negative ones too), racing sends included: events waiting, then enqueued, equal events polled, then still waiting, in order. |
| `BotEvents.CreatedEventsAreNewMessages` | `apps/server/src/domain/messages/service.ts:130-146` | Over every interleaving of halves and whole calls the `message.created` events that sends and forwards publish are the new messages they stored in normal channels, in order, each once, if and only if no second half of a send repeats a row; each that does adds exactly one event. |
| `Races.RacingSendPublishesCiphertext` | `apps/server/src/domain/messages/service.ts:107-146` | A reachable run in which it does both: between the halves of a send to a normal channel the same client id goes to an E2E channel, and the second half publishes that ciphertext to the normal channel's bot, storing nothing. |
| `BotEvents.FinishPublishesOwnIff` | `apps/server/src/domain/messages/service.ts:130-146` | The second half of a send to a normal channel publishes its own new message if and only if its client id is not indexed by then; otherwise it publishes the row that took it. |
| `Bots.PublishQueue` | `apps/server/src/domain/bots/persistence.ts:119-131` | An event enters a bot's queue, at its end, if and only if the bot is in the channel and subscribed at that moment. |
| `Bots.PollQueue` | `apps/server/src/domain/bots/service.ts:172-177` | Polling returns the front of the bot's queue and leaves the rest: at most `limit` returned, or, for a negative limit, at most that many left; other queues stay. |
| `Bots.ApplyBotOpKeeps` | `apps/server/src/domain/bots/service.ts:72-107` | No installation, membership or subscription call or poll puts a bot into an E2E channel or an E2E event into a queue. |
| `Authority.SendBotMessageIff` | `apps/server/src/domain/bots/service.ts:185-214` | A bot's message is accepted if and only if bot and channel exist, the channel is normal, and the bot has the write scope and is in it; on a free client id exactly the input is stored, as a message of the bot without reply or files; each refusal is told apart and changes nothing. |
| `Authority.InvokeCommandIs` | `apps/server/src/domain/bots/service.ts:111-159` | A command is refused in a missing or E2E channel; elsewhere exactly it is published, and a help reply is stored if and only if it asks for help and some bot of the workspace offers it. |
| `Authority.BotMembershipIff` | `apps/server/src/domain/bots/service.ts:72-93` | A bot joins if and only if bot and channel exist and the channel is normal, and leaves if and only if it is in it; nothing else changes. |
| `Authority.SubscriptionIff` | `apps/server/src/domain/bots/service.ts:94-107` | Subscribing and unsubscribing succeed if and only if the bot is known, and change exactly that subscription. |
| `Authority.InstalledIs` | `apps/server/src/domain/bots/service.ts:58-68` | An installed bot starts in no channel and with no subscription; no other bot and no queue changes. |
| `Authority.HelpLinesJoin` | `apps/server/src/domain/bots/service.ts:138-140` | The help text has exactly one line per command, its name and description, in the manifest's order. |
| `Workspaces.ApplyKeeps` | `apps/server/src/domain/workspaces/persistence-service.ts:46-372` | Every operation keeps roles, channels and memberships consistent, keeps every channel with its mode, kind, workspace, privacy and creator, and keeps deleted channels deleted. |
| `Authority.OwnersComeFromOwners` | `apps/server/src/domain/workspaces/persistence-service.ts:115-169` | A user becomes an owner only by creating the workspace or through a call of an owner of it. |
| `Authority.OwnersLoseItBy` | `apps/server/src/domain/workspaces/persistence-service.ts:115-169` | An owner stops being one if and only if the call is the owner's own leaving or transfer to a member, or an owner's or admin's `addMember` naming a lesser role. |
| `Authority.RolesNeedAuthority` | `apps/server/src/domain/workspaces/persistence-service.ts:115-169` | Any change of a role is made by an owner or admin of that workspace, or creates it. |
| `Authority.MembersAreLetIn` | `apps/server/src/domain/workspaces/persistence-service.ts:170-278` | A user gets into a channel only by creating it, as one of its pair, or when someone who manages it and is in its workspace adds the user. |
| `Authority.RemoveMemberIff` | `apps/server/src/domain/workspaces/persistence-service.ts:130-147` | A removal is refused unless an owner or admin makes it, of an owner only by that owner, and never of an admin by an admin; it answers whether there was a member. |
| `Authority.AddMemberIff` | `apps/server/src/domain/workspaces/persistence-service.ts:115-129` | A member is added if and only if an owner or admin does it, and an owner only by an owner; exactly that role is set. |
| `Authority.TransferOwnershipIff` | `apps/server/src/domain/workspaces/persistence-service.ts:151-169` | A transfer succeeds if and only if an owner makes it to a member; then the actor is admin and the target, if another, owner, and no other role changes; the two refusals are told apart. |
| `Authority.CreateWorkspaceIs` | `apps/server/src/domain/workspaces/persistence-service.ts:46-66` | A new workspace has its name, its creator as owner, and the public room `general` with the creator in it; nothing else changes. |
| `Authority.ArchiveAndDeleteIff` | `apps/server/src/domain/workspaces/persistence-service.ts:308-341` | A channel is archived or deleted if and only if the actor manages it; the time is set and nothing else changes. |
| `Authority.CreateChannelIff` | `apps/server/src/domain/workspaces/persistence-service.ts:170-195` | A room is created if and only if its creator has a role in the workspace and no channel there has the name; exactly that channel is added, with its creator in it; the two refusals are told apart. |
| `Authority.DmIsCreatedOnce` | `apps/server/src/domain/workspaces/persistence-service.ts:342-372` | Two members get whatever channel bears their name, untouched, or exactly one new private direct message with both; asked again, by either of them, the same channel is answered and nothing changes. |
| `Authority.UpdateChannelIff` | `apps/server/src/domain/workspaces/persistence-service.ts:239-257` | Updated if and only if the actor manages the channel; an absent name or description is kept, a present one is set; no other channel changes. |
| `Authority.AddChannelMemberIff` | `apps/server/src/domain/workspaces/persistence-service.ts:258-278` | A member is added if and only if the actor manages the channel, still has a role in its workspace, and the channel is neither archived nor deleted. |
| `Authority.RemoveChannelMemberIff` | `apps/server/src/domain/workspaces/persistence-service.ts:279-304` | A member is removed if and only if the actor has a role in the workspace and is that member or manages the channel. |
| `Authority.ListedIff` | `apps/server/src/domain/workspaces/persistence-service.ts:223-238` | A workspace member lists exactly the channels of the workspace that the member may access; anyone else lists none. |
| `Workspaces.RemoveMemberShutsOut` | `apps/server/src/domain/workspaces/persistence-service.ts:130-147` | A successful removal leaves the user without role and without any channel of the workspace, and touches no other user's and no other workspace's memberships; a refused one changes nothing. |
| `Workspaces.ShutOutSeesNothing` | `apps/server/src/domain/workspaces/persistence-service.ts:200-238` | A user without role and channel memberships can access no channel of the workspace, `general` included, and `listChannels` is empty. |
| `Workspaces.ApplyShutOutIff` | `apps/server/src/domain/workspaces/persistence-service.ts:115-278` | Of whole calls exactly a granted `addMember` or `addChannelMember` for the user ends that state. |
| `Workspaces.SettleShutOutIff` | `apps/server/src/domain/workspaces/persistence-service.ts:115-372` | Of second halves exactly those of an `addMember` or `addChannelMember` for the user, and those that store a new room or direct message with the user. |
| `Workspaces.SettleKeeps` | `apps/server/src/domain/workspaces/persistence-service.ts:46-372` | The second half of any workspace call, whatever has happened since its checks, keeps the tables consistent and every channel with its mode, kind, workspace, privacy and creator; and it keeps deleted channels deleted if and only if it does not write back an undeleted copy of one. |
| `Workspaces.SettleReopensIff` | `apps/server/src/domain/workspaces/persistence-service.ts:239-341` | It reopens a given deleted channel if and only if it writes back a copy of that channel that was not deleted. |
| `Workspaces.HalvesMakeWhole` | `apps/server/src/domain/workspaces/persistence-service.ts:46-372` | With nothing in between, the checks and the store's part of any workspace call are the whole call. |
| `Interleaving.WorkspaceHalvesMakeWhole` | `apps/server/src/domain/workspaces/persistence-service.ts:46-372` | The same of the two moves of an interleaving. |
| `Delivery.ExactlyOnceEffect` | `apps/server/src/domain/messages/persistence.ts:252-291` | Over every interleaving of submissions, resubmissions, pre-checks, creates, broadcasts and frames: at most one row per (sender, client id), every answer names a stored row with the racer's client id and all racers get the same one, and no client holds two entries for a client id. |
| `Delivery.RunKeepsInv` | `apps/web/src/components/ChatRoute.tsx:253-270` | The invariant behind it holds in every run: rows and index match, requests belong to relayed submissions, each client's entries can be traced to their submissions. |
| `Delivery.DeliveryArrives` | `apps/web/src/components/ChatRoute.tsx:234-270` | After a `message.created` event or a peer frame the client holds that message. |
| `Delivery.DeliveredExactlyOnce` | `apps/web/src/components/ChatRoute.tsx:253-270` | From its first delivery on, through every later step, a client shows a message exactly once. |
| `Delivery.ShownAsSubmitted` | `apps/web/src/components/ChatRoute.tsx:234-270` | Over every interleaving: what the server stores and what any client shows under a client id is what was submitted under it: sender, channel and body. |
| `Delivery.EmissionsAre` | `apps/web/src/components/ChatRoute.tsx:441-499` | A submission over the transport emits nothing when it went directly, and twice exactly when the relay answered and the user does not insist on the direct path. |
| `Delivery.SubmissionIsShownIff` | `apps/web/src/components/ChatRoute.tsx:441-499` | A submission shows in its own tab at once if and only if it went directly or is optimistic, as sent or as sending; no other tab changes. |
| `Delivery.AnsweredIff` | `apps/server/src/domain/messages/service.ts:107-147` | A request is answered at its pre-check if and only if its client id has a row, and at its create always; a create adds a row if and only if there was none. |
| `Composer.SubmitEncrypted` | `apps/web/src/components/ChatRoute.tsx:441-499` | Submitting a direct message: one hand-off by the transport, plus the component's own `message.send` on the relay path unless peer-to-peer is insisted on or no reply came; shown at once exactly when it went directly. |
| `Transport.HybridTransport.SendMessage` | `apps/web/src/lib/p2p/transport.ts:53-88` | Exactly one hand-off goes through, on the path reported, directly if and only if a direct send works; the peer is marked failed exactly when an attempt failed. |
| `Transport.HybridTransport.SendViaP2p` | `apps/web/src/lib/p2p/transport.ts:90-110` | A throwing channel hands nothing off and reports failure. |
| `Transport.HybridTransport.HandleIncoming` | `apps/web/src/lib/p2p/transport.ts:171-206` | One frame moves the remembered ids and the delivered log as the specification says. |
| `Transport.WindowRefinesLog` | `apps/web/src/lib/p2p/transport.ts:171-206` | The set is always the last min(1000, n) delivered ids in order; it never exceeds 1000; any 1001 consecutive deliveries are pairwise distinct. |
| `Transport.DeliveredIff` | `apps/web/src/lib/p2p/transport.ts:171-206` | A frame is delivered if and only if its id is not among the last 1000 delivered. |
| `ClientStore.EveryRunConsistent` | `apps/web/src/stores/domain.ts:195-212` | Over every sequence of upserts, optimistic sends and merges, `order` is duplicate-free and is exactly the map's key set. |
| `ClientStore.MergedEffect` | `apps/web/src/components/ChatRoute.tsx:254-270` | A merge keeps the replaced entry's position and every other entry; with nothing to replace it appends. |
| `ClientStore.MergedKeepsUnique` | `apps/web/src/components/ChatRoute.tsx:254-270` | A merge never makes a second entry for a client id. |
| `ClientStore.UpsertedKeepsUniqueIff` | `apps/web/src/stores/domain.ts:195-203` | A plain upsert keeps one entry per client id if and only if no entry under another id has that client id. |
| `ClientStore.MergedStatus` | `apps/web/src/components/ChatRoute.tsx:253-270` | A broadcast of a shown message changes nothing; one that replaces an entry leaves every status as it was, so an optimistic entry stays `sending`; only a new one is marked `sent`. |
| `ClientStore.UpsertedEffect` | `apps/web/src/stores/domain.ts:195-203` | An upsert stores the entry under its id, at the end if new, with its status; every other entry and status stays. |
| `ClientStore.SelectChannelExact` | `apps/web/src/stores/domain.ts:109-113` | `selectChannelMessages` lists each entry of the channel exactly once, in order. |
| `ClientStore.MessageStore.Upsert` | `apps/web/src/stores/domain.ts:195-203` | Sets the entry, appends its id if new, and records the send status; see `ClientStore.UpsertedKeepsUniqueIff`. |
| `ClientStore.MessageStore.SendOptimistic` | `apps/web/src/stores/domain.ts:204-212` | An upsert with status sending. |
| `ClientStore.MessageStore.OnMessageCreated` | `apps/web/src/components/ChatRoute.tsx:253-270` | The handler's new map, order and statuses are those of the merge; see `ClientStore.MergedEffect`. |
| `RateLimiter.WsRateLimiter.Check` | `apps/server/src/ws/gateway.ts:52-60` | Counts the event in the running bucket, or a new one, rejected events included; accepts while the count is within the limit. |
| `RateLimiter.WindowBound` | `apps/server/src/ws/gateway.ts:49-65` | Over every trace with nondecreasing times, any half-open interval of length windowMs holds at most 2 * maxEvents - 1 accepted events of a user (maxEvents if the window is 1 ms, none if either setting is 0). |
| `RateLimiter.WindowBoundIsTight` | `apps/server/src/ws/gateway.ts:49-65` | That bound is attained, for every setting. |
| `RateLimiter.SlidingWindowIff` | `apps/server/src/ws/gateway.ts:17` | The limiter is the sliding window its header promises if and only if the limit is at most one event or the window at most 1 ms; the shipped 50 per 10 s is not. |
| `RateLimiter.UsersAreIndependent` | `apps/server/src/ws/gateway.ts:49-65` | A user's bucket, decisions and accepted counts depend on that user's events only. |
| `RateLimiter.RejectedNeverPostpone` | `apps/server/src/ws/gateway.ts:49-65` | No further events of anyone, rejected or not, move a running bucket's reset; the first event at or after it is accepted. |
| `RateLimiter.RefusedOnlyWhenFull` | `apps/server/src/ws/gateway.ts:49-65` | With a limit of at least one, an event is refused only when a window of the configured length that it falls into already holds that many of the user's accepted events. |
| `RefreshTokens.EveryRunIsSafe` | `apps/server/src/domain/auth/service.ts:107-118` | Over every interleaving at the awaits: no token is exchanged twice, and unrevoked sessions plus rotations under way never outnumber registrations plus logins. |
| `RefreshTokens.RevokedNeverSucceeds` | `apps/server/src/domain/auth/service.ts:107-121` | A revoked token is never exchanged again, not even by calls that had fetched its session before. |
| `RefreshTokens.RotationSafety` | `apps/server/src/domain/auth/service.ts:107-118` | Every step of every call keeps those bounds, from any state that meets them. |
| `RefreshTokens.AuthService.Decide` | `apps/server/src/domain/auth/service.ts:107-115` | Rotates exactly when a session was found, is not revoked and has not expired, and revokes whatever session was found; what that means over runs is `RefreshTokens.LiveTokenIsExchangedIff`. |
| `RefreshTokens.LiveTokenIsExchangedIff` | `apps/server/src/domain/auth/service.ts:107-118` | Over every run: a token issued at t by a login, registration or rotation is exchanged by a refresh that has found it if and only if no logout and no other refresh has come first and no more than 604800000 ms (seven days) have passed; the call then rotates for the token's own user; no other session changes. |
| `RefreshTokens.RotationIssuesToItsUser` | `apps/server/src/domain/auth/service.ts:114-117` | However calls interleave, a rotation that is not cut short by a missing user ends with an unrevoked session of that user for seven days, and changes no other session. |
| `RefreshTokens.FetchedIsFound` | `apps/server/src/domain/auth/service.ts:107-108` | A refresh of a stored token finds it, and still has it when it decides. |
| `RefreshTokens.AuthService.Revoke` | `apps/server/src/domain/auth/session-store.ts:39-42` | Marks the one session revoked; unknown tokens change nothing; see `RefreshTokens.RevokedNeverSucceeds`. |
| `RefreshTokens.AuthService.CreateSession` | `apps/server/src/domain/auth/service.ts:75-86` | Adds an unrevoked session of seven days and replaces none; see `RefreshTokens.EveryRunIsSafe`. |
| `RefreshTokens.AuthService.Logout` | `apps/server/src/domain/auth/service.ts:119-121` | Revokes the token's session and nothing else; see `RefreshTokens.RevokedNeverSucceeds`. |
| `PreKeys.TakeBundleSpendsOne` | `apps/server/src/domain/signal/persistence.ts:74-85` | `takeBundle` yields a one-time key if and only if the bundle exists and `count` is positive; the key was available, `count` then drops by exactly one, and every other device keeps its count. |
| `PreKeys.HandedOutOncePerUpload` | `apps/server/src/domain/signal/persistence.ts:64-97` | Over every run of uploads, takes and consumes, a key id handed out twice was uploaded again in between. |
| `PreKeys.SpendCounts` | `apps/server/src/domain/signal/persistence.ts:86-97` | Spending one available key lowers that device's count by one and no other's. |
| `PreKeys.TakeBundleGivesTheFirst` | `apps/server/src/domain/signal/persistence.ts:74-85` | A bundle is answered if and only if the device has one, and it is that one; its one-time key is the device's first unconsumed one in the order the key ids were first uploaded; that key is consumed and nothing else changes. |
| `PreKeys.ConsumeIs` | `apps/server/src/domain/signal/persistence.ts:86-92` | Missing, used or consumed, exactly as the key is; only the last changes anything, and only that key. |
| `PreKeys.UploadedIsAvailable` | `apps/server/src/domain/signal/persistence.ts:65-73` | After an upload each key id holds the last key uploaded under it, unconsumed. |
| `PreKeys.SignalPersistence.Upload` | `apps/server/src/domain/signal/persistence.ts:65-73` | Stores the bundle and every uploaded key, unconsumed, later ones over earlier ones; see `PreKeys.HandedOutOncePerUpload`. |
| `PreKeys.SignalPersistence.TakeBundle` | `apps/server/src/domain/signal/persistence.ts:74-85` | Returns the bundle with the first available key, which it marks consumed; see `PreKeys.TakeBundleSpendsOne`. |
| `PreKeys.SignalPersistence.Consume` | `apps/server/src/domain/signal/persistence.ts:86-92` | Answers missing, used or consumed, and marks the key only in the last case; see `PreKeys.SpendCounts`. |
| `DmNames.DmNameIsSymmetric` | `apps/server/src/domain/workspaces/persistence-service.ts:353-366` | Either participant derives the same name. |
| `DmNames.ParseFindsPeerIff` | `apps/web/src/components/signal-helpers.ts:45-50` | The client's parser applied to the server's name gives each participant the other if and only if both ids are non-empty and colon-free. |
| `DmNames.DmNameIsInjective` | `apps/server/src/domain/workspaces/persistence-service.ts:353-366` | For colon-free ids, equal names come from the same pair and the same mode. |
| `DmNames.ColonsCollide` | `apps/server/src/domain/workspaces/persistence-service.ts:353-366` | With a colon in an id two different pairs can share a name. |
| `DmNames.ColonsDoCollide` | `apps/server/src/domain/workspaces/persistence-service.ts:353-366` | Two such pairs. |
| `DirectMessages.DmAnswerFitsIff` | `apps/server/src/domain/workspaces/persistence-service.ts:342-372` | The channel the store answers is a direct message of the requested mode with both users as members if and only if no channel of the workspace bears the pair's name, or the first that does is one. |
| `DirectMessages.DmAnswerOpensIff` | `apps/server/src/domain/workspaces/persistence-service.ts:342-372` | Both users can access the answered channel if and only if no channel bears the name, or the first that does is not deleted and has both as members. |
| `DirectMessages.DmAnswerFits` | `apps/server/src/domain/workspaces/persistence-service.ts:342-372` | Over every interleaving from the empty store in which no granted call puts something else under the pair's name or takes either user out, the store's answer, to a call granted now or earlier, has the requested kind and mode and both members. |
| `DirectMessages.DmAnswerOpens` | `apps/server/src/domain/workspaces/persistence-service.ts:342-372` | If moreover no deletion of a channel of that name is granted, both users can access it. |
| `DirectMessages.ColonFreeDmAnswerFits` | `apps/server/src/domain/workspaces/persistence-service.ts:342-372` | Between users whose ids have no colon, the same without any assumption on other pairs' direct messages. |
| `DirectMessages.DeletedDmIsAnswered` | `apps/server/src/domain/workspaces/persistence-service.ts:325-372` | A reachable run: a pair's direct message is deleted, and the pair is answered with it still, though neither can open it. |
| `DirectMessages.RoomUnderDmName` | `apps/server/src/domain/workspaces/persistence-service.ts:239-257` | A run in which it does not: a normal room renamed to the pair's name is what they get. |
| `MessageService.Send` | `apps/server/src/domain/messages/service.ts:80-147` | Same refusals in the same order, then the second half, as specified; when it is accepted and what it stores is `Effects.SendStoresTheInput`. |
| `MessageService.Finish` | `apps/server/src/domain/messages/service.ts:117-147` | Creates, and in a normal channel publishes whatever row `create` answered; what that is: `Runs.FinishStores` and `Effects.FinishStoresTheInput`. |
| `Runs.FinishStores` | `apps/server/src/domain/messages/service.ts:130-146` | The second half answers with the one row for its key, stores it only when the key is free, and publishes it in a normal channel either way; what it holds is `Effects.FinishStoresTheInput`. |
| `MessageService.ListPage` | `apps/server/src/domain/messages/service.ts:151-164` | Returns the specified page, with a cursor exactly when it is full; see `Access.PagesAreForMembers`. |
| `MessageService.GetReactions` | `apps/server/src/domain/messages/service.ts:288-297` | The exact aggregate for those with access, nothing for others. |
| `MessageService.Edit` | `apps/server/src/domain/messages/service.ts:165-187` | Only the sender edits, only text; the new text, the edit time and one event, nothing else changes; see `Guarantees.StaleEditEvolvesIff` and `Runs.StepKeeps` and `Effects.EditChangesTheText`. |
| `MessageService.SoftDelete` | `apps/server/src/domain/messages/service.ts:188-201` | Only the sender deletes; the message becomes a tombstone and one event is recorded; see `Guarantees.PermanentIff` and `Effects.SoftDeleteEntombs`. |
| `MessageService.Forward` | `apps/server/src/domain/messages/service.ts:202-228` | A send of the source's content to the target, then the origin recorded; a forward of a forward keeps the first origin; see `Interleaving.ForwardPartsMakeWhole` and `Effects.ForwardKeepsTheFirstOrigin`. |
| `MessageService.Save` | `apps/server/src/domain/messages/service.ts:229-242` | Saving again keeps the first time; see `Guarantees.SavedListIsExact` and `Effects.SaveKeepsTheFirstTime`. |
| `MessageService.React` | `apps/server/src/domain/messages/service.ts:258-284` | Sets or removes exactly one reaction and records the resulting count as an event; see `Reactions.ReactAnswersTheAggregate` and `Reactions.ReactChangesOneReaction`. |
| `MessageService.AckRead` | `apps/server/src/domain/messages/service.ts:298-316` | Records a first receipt of a non-sender and marks the message read, or consumed when it is read-once; see `Receipts.AckReceipts`, `Guarantees.AckLeavesDeletedIff` and `Effects.AckMarksRead`. |
| `MessageService.FlushReadReceipts` | `apps/server/src/domain/messages/service.ts:317-360` | The two filters, the grouping loop and the lookups return the specified batches and leave the rest pending. |
| `MessageService.GroupByMessage` | `apps/server/src/domain/messages/service.ts:336-341` | The grouping loop builds the specified groups. |
| `MessageService.CleanUpExpiredMessages` | `apps/server/src/domain/messages/service.ts:361-369` | Replacing the listed copies one at a time turns exactly the expired messages into tombstones, in place, and returns those tombstones, in order, as they are now stored: the ids are exactly those of `Effects.ExpiredListIsTheDue`, the rows those of `Effects.CleanUpEntombsTheExpired`. |
| `MessagePersistence.Create` | `apps/server/src/domain/messages/persistence.ts:119-126` | Message, index and attachments change together, or the existing row is returned and nothing changes. |
| `MessageStore.UpdateKeeps` | `apps/server/src/domain/messages/persistence.ts:134-137` | Overwriting a row by any copy with its identity keeps every table's invariant and the row's place, whatever the row holds by then; an evolved copy also loses nothing. |
| `MessagePersistence.Save` | `apps/server/src/domain/messages/persistence.ts:138-145` | Returns and keeps the first time. |
| `MessagePersistence.React` | `apps/server/src/domain/messages/persistence.ts:160-173` | Sets or deletes the key and counts what is left for the message and emoji; see `Reactions.ReactAnswersTheAggregate` and `Reactions.ReactChangesOneReaction`. |
| `MessagePersistence.RecordReceipt` | `apps/server/src/domain/messages/persistence.ts:190-199` | True the first time, false ever after; see `Receipts.AckReceipts`. |
| `BotService.PublishEvent` | `apps/server/src/domain/bots/service.ts:160-171` | The loop over the matching bots appends the event to each of their queues, once, and to no other. |
| `BotService.PollEvents` | `apps/server/src/domain/bots/service.ts:172-177` | Returns the slice and keeps the rest; see `Bots.PollQueue`. |
| `BotService.AddToChannel` | `apps/server/src/domain/bots/service.ts:72-82` | Refuses unknown bots and channels, and every E2E channel; see `Bots.ApplyBotOpKeeps` and `Authority.BotMembershipIff`. |
| `BotService.RemoveFromChannel` | `apps/server/src/domain/bots/service.ts:83-93` | Removes the membership; not found if there was none; see `Bots.ApplyBotOpKeeps` and `Authority.BotMembershipIff`. |
| `BotService.Subscribe` | `apps/server/src/domain/bots/service.ts:94-100` | Adds the subscription of a known bot; see `Bots.ApplyBotOpKeeps` and `Authority.SubscriptionIff`. |
| `BotService.Unsubscribe` | `apps/server/src/domain/bots/service.ts:101-107` | Drops the subscription of a known bot; see `Bots.ApplyBotOpKeeps` and `Authority.SubscriptionIff`. |
| `BotService.InvokeCommand` | `apps/server/src/domain/bots/service.ts:111-159` | Refuses E2E channels, publishes the event, and for help stores the first help bot's reply; see `Runs.StepKeepsBots` and `Authority.InvokeCommandIs`. |
| `BotService.SendBotMessage` | `apps/server/src/domain/bots/service.ts:185-214` | Needs a known bot with the write scope in a normal channel it has joined; then insert-or-get; see `MessageStore.CreateKeeps` and `Authority.SendBotMessageIff`. |
| `WorkspaceService.RemoveMember` | `apps/server/src/domain/workspaces/persistence-service.ts:130-147` | The three refusals, then the deletion, as specified; see `Workspaces.RemoveMemberShutsOut` and `Authority.RemoveMemberIff`. |
| `WorkspaceService.DeleteMemberAndChannelMemberships` | `apps/server/src/domain/workspaces/persistence.ts:84` | The delete-while-iterating loop removes exactly the user's memberships in the workspace's channels, then the role. |
| `WorkspaceService.CanAccessChannel` | `apps/server/src/domain/workspaces/persistence-service.ts:200-210` | Never a missing or deleted channel; `general` for workspace members; any other channel for its members. |
| `WorkspaceService.CanManageChannel` | `apps/server/src/domain/workspaces/persistence-service.ts:211-222` | The creator, and the workspace's owners and admins. |
| `WorkspaceService.ListChannels` | `apps/server/src/domain/workspaces/persistence-service.ts:223-238` | Filtering out deleted channels first and inaccessible ones second lists exactly the accessible channels, in creation order; see `Authority.ListedIff`. |
| `WorkspaceService.CreateWorkspace` | `apps/server/src/domain/workspaces/persistence-service.ts:46-66` | Workspace, owner, `general` channel and its membership; see `Workspaces.ApplyKeeps` and `Authority.CreateWorkspaceIs`. |
| `WorkspaceService.AddMember` | `apps/server/src/domain/workspaces/persistence-service.ts:115-129` | Owners and admins add; only owners add owners; see `Workspaces.ApplyKeeps` and `Authority.AddMemberIff`. |
| `WorkspaceService.TransferOwnership` | `apps/server/src/domain/workspaces/persistence-service.ts:151-169` | The target becomes owner and the actor admin, in that order, also when they are the same user; see `Workspaces.ApplyKeeps` and `Authority.TransferOwnershipIff`. |
| `WorkspaceService.UpdateMemberRole` | `apps/server/src/domain/workspaces/persistence.ts:86` | Changes the role of an existing member only. |
| `WorkspaceService.FindByName` | `apps/server/src/domain/workspaces/persistence.ts:89-90` | The scan finds the first channel of that name in that workspace, in creation order. |
| `WorkspaceService.CreateChannel` | `apps/server/src/domain/workspaces/persistence-service.ts:170-195` | Refuses non-members and taken names; see `Workspaces.ApplyKeeps` and `Authority.CreateChannelIff`. |
| `WorkspaceService.StoreChannel` | `apps/server/src/domain/workspaces/persistence.ts:89` | Stores the channel and, in the loop, every initial member. |
| `WorkspaceService.CreateOrGetDm` | `apps/server/src/domain/workspaces/persistence-service.ts:342-372` | Both users must be members; the existing channel of that name, or a new one with both; see `DirectMessages.DmAnswerFits` and `Authority.DmIsCreatedOnce`. |
| `WorkspaceService.UpdateChannel` | `apps/server/src/domain/workspaces/persistence-service.ts:239-257` | Changes name and description only; see `Workspaces.ApplyKeeps` and `DirectMessages.RoomUnderDmName` and `Authority.UpdateChannelIff`. |
| `WorkspaceService.ArchiveChannel` | `apps/server/src/domain/workspaces/persistence-service.ts:308-324` | Managers archive; nothing else changes; see `Workspaces.ApplyKeeps` and `Authority.ArchiveAndDeleteIff`. |
| `WorkspaceService.DeleteChannel` | `apps/server/src/domain/workspaces/persistence-service.ts:325-341` | Managers mark deleted; nothing else changes; see `Access.DeletedChannelStaysClosed`. |
| `WorkspaceService.AddChannelMember` | `apps/server/src/domain/workspaces/persistence-service.ts:258-278` | Managers with workspace access add; not to archived or deleted channels; see `Workspaces.ApplyShutOutIff` and `Authority.AddChannelMemberIff`. |
| `WorkspaceService.RemoveChannelMember` | `apps/server/src/domain/workspaces/persistence-service.ts:279-304` | Managers remove anyone, members themselves; see `Workspaces.ApplyShutOutIff` and `Authority.RemoveChannelMemberIff`. |
| `Gateway.HandleSend` | `apps/server/src/ws/gateway.ts:69-84` | A limited event touches nothing; a refused send broadcasts nothing; an accepted one, a retry included, broadcasts the stored row once. |
| `Gateway.HandleAck` | `apps/server/src/ws/gateway.ts:124-131` | A successful acknowledgement is followed at once by a global flush, and each batch is broadcast to its channel. |
| `Gateway.AckLeavesNothingPending` | `apps/server/src/ws/gateway.ts:124-131` | After it nothing is pending, and what was broadcast for each message is what was pending for it, then this reader if new. |
| `Domain.InMemoryStore.constructor` | `apps/server/src/domain/store.ts:43-73` | Starts with every table empty: the state that runs begin from. |

## Left out

- React and Ink components, hooks, Electron, the CLI, HTTP routing and socket setup: plumbing without protocol state.
- The PostgreSQL and Redis adapters, but for `create` and `list` as specifications: SQL semantics and object copies are not modelled.
- WebRTC and the connection pool: a nondeterministic environment of the transport.
- Cryptography, password hashing, access tokens and schema parsing: library calls.
- Interleavings finer than the two halves: the checks of one first half are one step, and so are a receipt and the update that
  follows it, an update and its event, an insert and the publishing after it, the two role changes of a transfer, and every bot,
  save, reaction and flush call.
- The PostgreSQL `createOrGetDm`, which also adds both users to a channel it finds.
- Unread counters, pins, mutes, presence, typing, profile and workspace renames, the login limiter, reconnect backoff, byte codecs and
  formatting: they keep no protocol state.
- The optimistic entries of slash commands: their client ids never reach the message store. `Delivery` lets any socket submission have one.
- Peer acknowledgement frames: the receiver ignores them. The message handler of the transport is taken not to throw.
- A direct message to oneself: a peer frame reaches any tab but the one that submitted it.
- Two clients minting the same client id: ids are taken to be unique per submission, as the random suffix intends.
- Ownership counts, unique channel names after a rename and cumulative read counts: the code does not keep them.
- Receipt timestamps: a batch carries its flush time only, so they are not stored.
