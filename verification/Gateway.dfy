/**
 The two gateway branches that change messages: `message.send` and `message.ack`, behind the rate limiter.
 */
module Gateway {
  import opened JsCollections
  import opened Ids
  import opened Domain
  import RateLimiter
  import MessageStore
  import Messages
  import MessageService
  import Receipts
  import Runs

  datatype Response<T> = Accepted(value: T) | RateLimited | Rejected(error: Error)

  /** What goes out to the members of a channel. */
  datatype Broadcast =
    | Created(channelId: ChannelId, message: Message)
    | Read(channelId: ChannelId, batch: Messages.Batch)

  /** A limited event leaves the store alone; a failed send broadcasts nothing; a successful one, a retry included,
      broadcasts the stored message once. */
  method HandleSend(
      store: InMemoryStore, limiter: RateLimiter.WsRateLimiter, user: UserId, input: SendInput,
      attachmentError: Option<Error>, id: MessageId, now: nat)
    returns (response: Response<Message>, broadcasts: seq<Broadcast>)
    requires store.Valid()
    modifies store, limiter
    ensures store.Valid()
    ensures limiter.buckets == old(limiter.buckets)[user := RateLimiter.Bump(limiter.cfg, old(limiter.buckets), user, now)]
    ensures response.RateLimited? <==> limiter.buckets[user].count > limiter.cfg.maxEvents
    ensures response.RateLimited? ==> store.View() == old(store.View()) && broadcasts == []
    ensures !response.RateLimited? ==>
      var r := Messages.Send(old(store.View()), user, input, attachmentError, id, now);
      && store.View() == r.state
      && match r.outcome
         case Fail(error) => response == Rejected(error) && broadcasts == []
         case Ok(m) => response == Accepted(m) && broadcasts == [Created(m.channelId, m)]
  {
    broadcasts := [];
    var allowed := limiter.Check(user, now);
    if !allowed {
      return RateLimited, [];
    }
    var outcome := MessageService.Send(store, user, input, attachmentError, id, now);
    if outcome.Fail? {
      return Rejected(outcome.error), [];
    }
    response := Accepted(outcome.value);
    broadcasts := [Created(outcome.value.channelId, outcome.value)];
  }

  function ReadBroadcasts(batches: seq<Messages.Batch>): seq<Broadcast> {
    seq(|batches|, i requires 0 <= i < |batches| => Read(batches[i].channelId, batches[i]))
  }

  /** A successful acknowledgement is followed at once by a flush of everything pending. */
  method HandleAck(store: InMemoryStore, limiter: RateLimiter.WsRateLimiter, user: UserId, id: MessageId, now: nat)
    returns (response: Response<()>, broadcasts: seq<Broadcast>)
    requires store.Valid()
    modifies store, limiter
    ensures store.Valid()
    ensures limiter.buckets == old(limiter.buckets)[user := RateLimiter.Bump(limiter.cfg, old(limiter.buckets), user, now)]
    ensures response.RateLimited? <==> limiter.buckets[user].count > limiter.cfg.maxEvents
    ensures response.RateLimited? ==> store.View() == old(store.View()) && broadcasts == []
    ensures !response.RateLimited? ==>
      var (acked, outcome) := Messages.AckRead(old(store.View()), user, id, now);
      match outcome
      case Fail(error) => response == Rejected(error) && broadcasts == [] && store.View() == old(store.View())
      case Ok(_) =>
        var (flushed, batches) := Messages.FlushReceipts(acked, None, now);
        && response == Accepted(()) && store.View() == old(store.View()).(msg := flushed) && |broadcasts| == |batches|
        && forall i :: 0 <= i < |batches| ==> broadcasts[i] == Read(batches[i].channelId, batches[i])
  {
    hide Messages.FlushReceipts;
    broadcasts := [];
    var allowed := limiter.Check(user, now);
    if !allowed {
      return RateLimited, [];
    }
    var outcome := MessageService.AckRead(store, user, id, now);
    if outcome.Fail? {
      return Rejected(outcome.error), [];
    }
    var batches := MessageService.FlushReadReceipts(store, None, now);
    for i := 0 to |batches|
      invariant broadcasts == ReadBroadcasts(batches[..i])
    {
      assert batches[..i + 1][..i] == batches[..i];
      broadcasts := broadcasts + [Read(batches[i].channelId, batches[i])];
    }
    assert batches[..|batches|] == batches;
    response := Accepted(());
  }

  /** After an acknowledgement through the gateway nothing is pending, and what was broadcast for each message is exactly
      what was pending for it, followed by this reader if the acknowledgement was the first. */
  lemma {:induction false} AckLeavesNothingPending(s: State, user: UserId, id: MessageId, now: nat, m: MessageId)
    requires Runs.Inv(s) && Messages.AckRead(s, user, id, now).1.Ok?
    ensures var acked := Messages.AckRead(s, user, id, now).0;
      var (flushed, batches) := Messages.FlushReceipts(acked, None, now);
      var first := m == id && s.msg.messages.vals[id].senderId != user && Receipt(id, user) !in s.msg.receipts;
      && flushed.pendingReceipts == []
      && Receipts.ReportedIn(batches, m) == Receipts.ReadersIn(s.msg.pendingReceipts, m) + if first then [user] else []
  {
    hide Messages.FlushReceipts, MessageStore.MessageInv, Receipts.ReportedIn, Receipts.ReadersIn;
    hide Messages.Acked;
    var acked := Messages.AckRead(s, user, id, now).0;
    Runs.FoundIs(s.msg, id);
    Runs.AckReadKept(s, user, id, now);
    Receipts.ReadersOne(s.msg.pendingReceipts, Receipt(id, user), m);
    FlushTakesAll(acked, now, m);
  }

  lemma FlushTakesAll(msg: MessageState, now: nat, m: MessageId)
    requires MessageStore.MessageInv(msg)
    ensures var (flushed, batches) := Messages.FlushReceipts(msg, None, now);
      flushed.pendingReceipts == [] && Receipts.ReportedIn(batches, m) == Receipts.ReadersIn(msg.pendingReceipts, m)
  {
    Receipts.FlushReportsReaders(msg, None, now, m);
    Receipts.ReadersFiltered(msg.pendingReceipts, Messages.Drained(msg, None), m, true);
    FilterEmpty(msg.pendingReceipts, Messages.Undrained(msg, None));
  }
}
