/**
 Read receipts over every interleaving: every first acknowledgement is reported exactly once, in order, whatever
 mix of global and per-channel flushes carries it.
 */
module Receipts {
  import opened JsCollections
  import opened Ids
  import opened Domain
  import opened Workspaces
  import opened MessageStore
  import opened Bots
  import opened Messages
  import opened Runs
  import opened Interleaving
  import opened Guarantees

  // ---------------------------------------------------------------- readers of one message

  /** Who read message `m`, in the order of the receipts. */
  function ReadersIn(receipts: seq<Receipt>, m: MessageId): seq<UserId> {
    if receipts == [] then []
    else (if receipts[0].messageId == m then [receipts[0].user] else []) + ReadersIn(receipts[1..], m)
  }

  lemma {:induction false} ReadersAppend(a: seq<Receipt>, b: seq<Receipt>, m: MessageId)
    ensures ReadersIn(a + b, m) == ReadersIn(a, m) + ReadersIn(b, m)
  {
    if a == [] {
      assert a + b == b;
    } else {
      assert (a + b)[1..] == a[1..] + b;
      ReadersAppend(a[1..], b, m);
    }
  }

  lemma ReadersOne(a: seq<Receipt>, r: Receipt, m: MessageId)
    ensures ReadersIn(a + [r], m) == ReadersIn(a, m) + if r.messageId == m then [r.user] else []
  {
    ReadersAppend(a, [r], m);
    assert ReadersIn([r][1..], m) == [];
  }

  /** A filter that takes all of a message's receipts, or none of them. */
  lemma {:induction false} ReadersFiltered(receipts: seq<Receipt>, p: Receipt -> bool, m: MessageId, takes: bool)
    requires forall r :: r in receipts && r.messageId == m ==> p(r) == takes
    ensures ReadersIn(Filter(receipts, p), m) == if takes then ReadersIn(receipts, m) else []
  {
    if receipts != [] {
      assert receipts[0] in receipts;
      ReadersFiltered(receipts[1..], p, m, takes);
      ReadersAppend(if p(receipts[0]) then [receipts[0]] else [], Filter(receipts[1..], p), m);
      assert ReadersIn([receipts[0]][1..], m) == [];
    }
  }

  /** Grouping sorts the readers by message and loses none. */
  lemma {:induction false} GroupsAreReaders(receipts: seq<Receipt>, m: MessageId)
    ensures var g := GroupReaders(receipts);
      && (m in g.vals <==> ReadersIn(receipts, m) != [])
      && (m in g.vals ==> g.vals[m] == ReadersIn(receipts, m))
  {
    if receipts != [] {
      var n := |receipts| - 1;
      GroupsAreReaders(receipts[..n], m);
      ReadersOne(receipts[..n], receipts[n], m);
      assert receipts[..n] + [receipts[n]] == receipts;
    }
  }

  lemma {:induction false} ReadersExist(receipts: seq<Receipt>, m: MessageId)
    ensures ReadersIn(receipts, m) != [] <==> exists r :: r in receipts && r.messageId == m
  {
    if receipts != [] {
      assert receipts == [receipts[0]] + receipts[1..];
      ReadersExist(receipts[1..], m);
    }
  }

  // ---------------------------------------------------------------- what one flush reports

  /** The readers a sequence of batches reports for message `m`. */
  function ReportedIn(batches: seq<Batch>, m: MessageId): seq<UserId> {
    if batches == [] then []
    else ReportedIn(batches[..|batches| - 1], m)
         + if batches[|batches| - 1].messageId == m then batches[|batches| - 1].readers else []
  }

  /** The sum of the `readCount`s of a sequence of batches. */
  function ReadCounts(batches: seq<Batch>): nat {
    if batches == [] then 0 else ReadCounts(batches[..|batches| - 1]) + |batches[|batches| - 1].readers|
  }

  /** One batch per group, in the order of the groups. */
  ghost predicate BatchPerGroup(
      msg: MessageState, batches: seq<Batch>, ids: seq<MessageId>, groups: map<MessageId, seq<UserId>>)
  {
    && |batches| == |ids|
    && (forall i :: 0 <= i < |ids| ==> IsBatch(msg, batches[i], ids[i], groups))
  }

  ghost predicate IsBatch(msg: MessageState, b: Batch, id: MessageId, groups: map<MessageId, seq<UserId>>) {
    && id in msg.messages.vals && id in groups
    && b.messageId == id && b.channelId == msg.messages.vals[id].channelId && b.readers == groups[id]
  }

  lemma {:induction false} BatchesAre(msg: MessageState, ids: seq<MessageId>, groups: map<MessageId, seq<UserId>>, now: nat)
    requires forall id :: id in ids ==> id in groups && id in msg.messages.vals
    ensures BatchPerGroup(msg, BatchesFor(msg, ids, groups, now), ids, groups)
  {
    if ids != [] {
      BatchesAre(msg, ids[..|ids| - 1], groups, now);
      assert ids[|ids| - 1] in ids;
    }
  }

  lemma {:induction false} ReportedAre(
      msg: MessageState, batches: seq<Batch>, ids: seq<MessageId>, groups: map<MessageId, seq<UserId>>,
      m: MessageId)
    requires BatchPerGroup(msg, batches, ids, groups) && Distinct(ids) && (forall id :: id in ids ==> id in groups)
    ensures ReportedIn(batches, m) == if m in ids then groups[m] else []
    ensures ReadCounts(batches) == SumRows(ids, groups, (readers: seq<UserId>) => |readers|)
  {
    if ids != [] {
      var n := |ids| - 1;
      assert ids == ids[..n] + [ids[n]];
      assert IsBatch(msg, batches[n], ids[n], groups);
      ReportedAre(msg, batches[..n], ids[..n], groups, m);
    }
  }

  /** The group sizes add up to the number of receipts grouped. */
  lemma {:induction false} GroupSizes(receipts: seq<Receipt>)
    ensures var g := GroupReaders(receipts);
      (forall k :: k in g.keys ==> k in g.vals) && SumRows(g.keys, g.vals, (readers: seq<UserId>) => |readers|) == |receipts|
  {
    if receipts != [] {
      var n := |receipts| - 1;
      var r := receipts[n];
      var g := GroupReaders(receipts[..n]);
      GroupSizes(receipts[..n]);
      var readers := (if r.messageId in g.vals then g.vals[r.messageId] else []) + [r.user];
      SumRowsSet(g, r.messageId, readers, (readers: seq<UserId>) => |readers|);
    }
  }

  /** Every pending receipt is for a stored message, so is every group. */
  lemma GroupsAreStored(msg: MessageState, channel: Option<ChannelId>, id: MessageId)
    requires ReceiptInv(msg.messages, msg.receipts, msg.pendingReceipts)
    requires id in GroupReaders(Filter(msg.pendingReceipts, Drained(msg, channel))).vals
    ensures id in msg.messages.vals && (channel.Some? ==> msg.messages.vals[id].channelId == channel.value)
  {
    var drained := Filter(msg.pendingReceipts, Drained(msg, channel));
    GroupsAreReaders(drained, id);
    ReadersExist(drained, id);
    var r :| r in drained && r.messageId == id;
    assert Selected(msg, channel, r);
  }

  lemma FlushGroups(msg: MessageState, channel: Option<ChannelId>, now: nat)
    requires ReceiptInv(msg.messages, msg.receipts, msg.pendingReceipts)
    ensures var g := GroupReaders(Filter(msg.pendingReceipts, Drained(msg, channel)));
      BatchPerGroup(msg, FlushReceipts(msg, channel, now).1, g.keys, g.vals)
  {
    var g := GroupReaders(Filter(msg.pendingReceipts, Drained(msg, channel)));
    forall id | id in g.keys
      ensures id in g.vals && id in msg.messages.vals
    {
      GroupsAreStored(msg, channel, id);
    }
    BatchesAre(msg, g.keys, g.vals, now);
  }

  /** For every message, a flush reports exactly the drained readers, in order. */
  lemma {:induction false} FlushReportsReaders(msg: MessageState, channel: Option<ChannelId>, now: nat, m: MessageId)
    requires ReceiptInv(msg.messages, msg.receipts, msg.pendingReceipts)
    ensures ReportedIn(FlushReceipts(msg, channel, now).1, m) == ReadersIn(Filter(msg.pendingReceipts, Drained(msg, channel)), m)
  {
    hide ReceiptInv, FlushReceipts, BatchPerGroup;
    var drained := Filter(msg.pendingReceipts, Drained(msg, channel));
    var g := GroupReaders(drained);
    FlushGroups(msg, channel, now);
    ReportedAre(msg, FlushReceipts(msg, channel, now).1, g.keys, g.vals, m);
    GroupsAreReaders(drained, m);
  }

  /** The read counts of a flush add up to the receipts it drains. */
  lemma FlushCounts(msg: MessageState, channel: Option<ChannelId>, now: nat)
    requires ReceiptInv(msg.messages, msg.receipts, msg.pendingReceipts)
    ensures var (msg', batches) := FlushReceipts(msg, channel, now);
      && ReadCounts(batches) == |Filter(msg.pendingReceipts, Drained(msg, channel))|
      && ReadCounts(batches) + |msg'.pendingReceipts| == |msg.pendingReceipts|
  {
    var drained := Filter(msg.pendingReceipts, Drained(msg, channel));
    var g := GroupReaders(drained);
    FlushGroups(msg, channel, now);
    ReportedAre(msg, FlushReceipts(msg, channel, now).1, g.keys, g.vals, 0);
    GroupSizes(drained);
    FilterComplement(msg.pendingReceipts, Drained(msg, channel), Undrained(msg, channel));
  }

  /** One batch per message, under the message's own channel, with at least one reader and the time of the flush. */
  lemma FlushBatches(msg: MessageState, channel: Option<ChannelId>, now: nat)
    requires ReceiptInv(msg.messages, msg.receipts, msg.pendingReceipts)
    ensures var batches := FlushReceipts(msg, channel, now).1;
      && (forall i, j :: 0 <= i < j < |batches| ==> batches[i].messageId != batches[j].messageId)
      && (forall b :: b in batches ==> BatchFits(msg, channel, b) && b.flushedAt == now)
  {
    hide ReceiptInv, FlushReceipts;
    FlushedNow(msg, channel, now);
    var drained := Filter(msg.pendingReceipts, Drained(msg, channel));
    var g := GroupReaders(drained);
    var batches := FlushReceipts(msg, channel, now).1;
    FlushGroups(msg, channel, now);
    forall i, j | 0 <= i < j < |batches|
      ensures batches[i].messageId != batches[j].messageId
    {
      assert IsBatch(msg, batches[i], g.keys[i], g.vals) && IsBatch(msg, batches[j], g.keys[j], g.vals);
    }
    forall b | b in batches
      ensures BatchFits(msg, channel, b)
    {
      var i :| 0 <= i < |batches| && batches[i] == b;
      assert IsBatch(msg, b, g.keys[i], g.vals);
      GroupsAreStored(msg, channel, b.messageId);
      GroupsAreReaders(drained, b.messageId);
    }
  }

  lemma FlushedNow(msg: MessageState, channel: Option<ChannelId>, now: nat)
    ensures forall b :: b in FlushReceipts(msg, channel, now).1 ==> b.flushedAt == now
  {
    var groups := GroupReaders(Filter(msg.pendingReceipts, Drained(msg, channel)));
    StampedNow(msg, groups.keys, groups.vals, now);
  }

  lemma {:induction false} StampedNow(msg: MessageState, ids: seq<MessageId>, groups: map<MessageId, seq<UserId>>, now: nat)
    requires forall id :: id in ids ==> id in groups
    ensures forall b :: b in BatchesFor(msg, ids, groups, now) ==> b.flushedAt == now
  {
    if ids != [] {
      StampedNow(msg, ids[..|ids| - 1], groups, now);
    }
  }

  ghost predicate BatchFits(msg: MessageState, channel: Option<ChannelId>, b: Batch) {
    && b.messageId in msg.messages.vals && b.channelId == msg.messages.vals[b.messageId].channelId
    && (channel.Some? ==> b.channelId == channel.value)
    && b.readers != []
  }

  /** A flush takes all of a message's pending receipts or none: what it reports, then what stays, is what was pending. */
  lemma FlushSplits(msg: MessageState, channel: Option<ChannelId>, now: nat, m: MessageId)
    requires ReceiptInv(msg.messages, msg.receipts, msg.pendingReceipts)
    ensures var (msg', batches) := FlushReceipts(msg, channel, now);
      && ReadersIn(msg.pendingReceipts, m) == ReportedIn(batches, m) + ReadersIn(msg'.pendingReceipts, m)
      && (ReportedIn(batches, m) == [] || ReadersIn(msg'.pendingReceipts, m) == [])
  {
    FlushReportsReaders(msg, channel, now, m);
    var takes := Selected(msg, channel, Receipt(m, ""));
    ReadersFiltered(msg.pendingReceipts, Drained(msg, channel), m, takes);
    ReadersFiltered(msg.pendingReceipts, Undrained(msg, channel), m, !takes);
  }

  // ---------------------------------------------------------------- conservation over runs

  /** The successful acknowledgement of message `m` by someone other than its sender, if this step is one. */
  function AckOf(s: State, step: Step, m: MessageId): seq<UserId> {
    if step.op.AckReadCall? && step.op.id == m && AckRead(s, step.op.actor, m, step.now).1.Ok?
       && Find(s.msg, m).value.senderId != step.op.actor
    then [step.op.actor] else []
  }

  function Reported(s: State, step: Step, m: MessageId): seq<UserId> {
    if step.op.FlushCall? then ReportedIn(FlushReceipts(s.msg, step.op.channel, step.now).1, m) else []
  }

  /** The same for a move: a whole acknowledgement, or the second half of one. */
  function AckBy(w: World, step: TimedMove, m: MessageId): seq<UserId> {
    if !Enabled(w, step.move) then []
    else
      match step.move
      case Whole(op) => AckOf(w.s, Step(op, step.now), m)
      case FinishWrite(call) =>
        var Writing(copy, change) := w.inFlight[call];
        if change.MarkingRead? && copy.id == m && copy.senderId != change.reader then [change.reader] else []
      case _ => []
  }

  function ReportedBy(w: World, step: TimedMove, m: MessageId): seq<UserId> {
    if step.move.Whole? && Enabled(w, step.move) then Reported(w.s, Step(step.move.op, step.now), m) else []
  }

  /** Everyone who acknowledged `m`, in order, repetitions included. */
  ghost function AckLog(w: World, moves: seq<TimedMove>, m: MessageId): seq<UserId>
    decreases |moves|
  {
    if moves == [] then [] else AckBy(w, moves[0], m) + AckLog(Moved(w, moves[0]), moves[1..], m)
  }

  /** The readers of `m` in all batches that the flushes return, in order. */
  ghost function ReportedAll(w: World, moves: seq<TimedMove>, m: MessageId): seq<UserId>
    decreases |moves|
  {
    if moves == [] then [] else ReportedBy(w, moves[0], m) + ReportedAll(Moved(w, moves[0]), moves[1..], m)
  }

  /** The first occurrence of each user of the log who is not among `seen`. */
  function FirstNew(log: seq<UserId>, seen: set<UserId>): seq<UserId> {
    if log == [] then []
    else if log[0] in seen then FirstNew(log[1..], seen)
    else [log[0]] + FirstNew(log[1..], seen + {log[0]})
  }

  lemma {:induction false} FirstNewIs(log: seq<UserId>, seen: set<UserId>)
    ensures forall u :: u in FirstNew(log, seen) <==> u in log && u !in seen
    ensures Distinct(FirstNew(log, seen))
  {
    if log != [] {
      assert log == [log[0]] + log[1..];
      if log[0] in seen {
        FirstNewIs(log[1..], seen);
      } else {
        FirstNewIs(log[1..], seen + {log[0]});
        var rest := FirstNew(log[1..], seen + {log[0]});
        assert log[0] !in rest;
        assert FirstNew(log, seen) == [log[0]] + rest;
      }
    }
  }

  /** Who has a receipt for `m` on record. */
  function Recorded(receipts: set<Receipt>, m: MessageId): set<UserId> {
    set r | r in receipts && r.messageId == m :: r.user
  }

  lemma RecordedIs(receipts: set<Receipt>, r: Receipt, m: MessageId)
    ensures Recorded(receipts + {r}, m) == Recorded(receipts, m) + if r.messageId == m then {r.user} else {}
    ensures r.user in Recorded(receipts, r.messageId) <==> r in receipts
  {
    forall u | u in Recorded(receipts, m)
      ensures u in Recorded(receipts + {r}, m)
    {
      var x :| x in receipts && x.messageId == m && x.user == u;
      assert x in receipts + {r};
    }
    if r.messageId == m {
      assert r in receipts + {r} && r.user in Recorded(receipts + {r}, m);
    }
  }

  ghost predicate SameReceipts(msg: MessageState, msg': MessageState) {
    msg'.receipts == msg.receipts && msg'.pendingReceipts == msg.pendingReceipts
  }

  lemma SendSameReceipts(s: State, actor: UserId, input: SendInput, error: Option<Error>, id: MessageId, now: nat)
    ensures SameReceipts(s.msg, Send(s, actor, input, error, id, now).state.msg)
  {
  }

  lemma ForwardSameReceipts(
      s: State, actor: UserId, id: MessageId, target: ChannelId, client: ClientMsgId, error: Option<Error>,
      newId: MessageId, now: nat)
    ensures SameReceipts(s.msg, Forward(s, actor, id, target, client, error, newId, now).state.msg)
  {
    hide Send;
    if Find(s.msg, id).Some? && target in s.ws.channels.vals {
      SendSameReceipts(s, actor, ForwardInput(s, Find(s.msg, id).value, target, client), error, newId, now);
    }
  }

  lemma InvokeSameReceipts(
      s: State, w: WorkspaceId, c: ChannelId, user: UserId, command: string, args: string, id: MessageId,
      now: nat)
    ensures SameReceipts(s.msg, InvokeCommand(s, w, c, user, command, args, id, now).state.msg)
  {
    hide Publish, FindHelpBot, HelpText;
  }

  /** Only acknowledgements and flushes touch the receipts. */
  lemma OthersSameReceipts(s: State, step: Step)
    requires !step.op.AckReadCall? && !step.op.FlushCall?
    ensures SameReceipts(s.msg, Next(s, step).msg)
  {
    hide Send, Forward, InvokeCommand, Apply, ApplyBotOp, Entomb, CountReactions, WithReaction;
    match step.op
    case SendCall(actor, input, error, newId) => SendSameReceipts(s, actor, input, error, newId, step.now);
    case ForwardCall(actor, id, target, client, error, newId) => ForwardSameReceipts(s, actor, id, target, client, error, newId, step.now);
    case InvokeCall(w, c, user, command, args, newId) => InvokeSameReceipts(s, w, c, user, command, args, newId, step.now);
    case _ =>
  }

  /** What one acknowledgement of message `id` by `reader` adds to the pending readers and the record of message `m`. */
  lemma RecordedReceipts(msg: MessageState, sender: UserId, id: MessageId, reader: UserId, m: MessageId)
    requires forall r :: r in msg.pendingReceipts ==> r in msg.receipts
    ensures var msg' := RecordReceipt(msg, sender, Receipt(id, reader));
      var seen := Recorded(msg.receipts, m);
      var acked := if id == m && sender != reader then [reader] else [];
      && ReadersIn(msg'.pendingReceipts, m) == ReadersIn(msg.pendingReceipts, m) + FirstNew(acked, seen)
      && Recorded(msg'.receipts, m) == seen + (if acked == [] then {} else {acked[0]})
  {
    hide Recorded, ReadersIn;
    var r := Receipt(id, reader);
    RecordedIs(msg.receipts, r, m);
    assert Recorded(msg.receipts, m) + {} == Recorded(msg.receipts, m);
    ReadersOne(msg.pendingReceipts, r, m);
    assert FirstNew([reader][1..], Recorded(msg.receipts, m) + {reader}) == [];
    assert FirstNew([reader][1..], Recorded(msg.receipts, m)) == [];
  }

  lemma {:induction false} AckReceipts(s: State, actor: UserId, id: MessageId, now: nat, m: MessageId)
    requires MessageInv(s.msg)
    ensures var msg' := AckRead(s, actor, id, now).0;
      var seen := Recorded(s.msg.receipts, m);
      var acked := AckOf(s, Step(AckReadCall(actor, id), now), m);
      && ReadersIn(msg'.pendingReceipts, m) == ReadersIn(s.msg.pendingReceipts, m) + FirstNew(acked, seen)
      && Recorded(msg'.receipts, m) == seen + (if acked == [] then {} else {actor})
  {
    hide CanAccessChannel, Acked, IndexInv, TombstoneInv, Recorded, ReadersIn;
    if AckRead(s, actor, id, now).1.Ok? {
      RecordedReceipts(s.msg, Find(s.msg, id).value.senderId, id, actor, m);
    }
  }

  lemma FlushReceiptsKeeps(s: State, channel: Option<ChannelId>, now: nat, m: MessageId)
    requires MessageInv(s.msg)
    ensures var step := Step(FlushCall(channel), now);
      ReadersIn(s.msg.pendingReceipts, m) == Reported(s, step, m) + ReadersIn(Next(s, step).msg.pendingReceipts, m)
  {
    hide IndexInv, TombstoneInv, ReceiptInv, FlushReceipts, ReportedIn, ReadersIn;
    FlushSplits(s.msg, channel, now, m);
  }

  /** What one step does to the pending readers of a message, and to those on record. */
  lemma StepReceipts(s: State, step: Step, m: MessageId)
    requires MessageInv(s.msg)
    ensures var s' := Next(s, step);
      var seen, acked := Recorded(s.msg.receipts, m), AckOf(s, step, m);
      && ReadersIn(s.msg.pendingReceipts, m) + FirstNew(acked, seen) == Reported(s, step, m) + ReadersIn(s'.msg.pendingReceipts, m)
      && Recorded(s'.msg.receipts, m) == seen + if acked == [] then {} else {acked[0]}
  {
    hide MessageInv, AckRead, FlushReceipts, Send, Forward, InvokeCommand, SendBotMessage, Apply, ApplyBotOp, Edit, SoftDelete, Save, React, CleanUp;
    if step.op.AckReadCall? {
      AckReceipts(s, step.op.actor, step.op.id, step.now, m);
    } else if step.op.FlushCall? {
      FlushReceiptsKeeps(s, step.op.channel, step.now, m);
      FlushKeepsRecord(s.msg, step.op.channel, step.now);
    } else {
      OthersSameReceipts(s, step);
    }
  }

  lemma FlushKeepsRecord(msg: MessageState, channel: Option<ChannelId>, now: nat)
    ensures FlushReceipts(msg, channel, now).0.receipts == msg.receipts
  {
  }

  lemma FinishSameReceipts(s: State, actor: UserId, input: SendInput, id: MessageId, now: nat)
    ensures SameReceipts(s.msg, Finish(s, actor, input, id, now).state.msg)
  {
    hide Publish;
  }

  lemma WriteReceipts(s: State, copy: Message, change: Change, now: nat, m: MessageId)
    requires MessageInv(s.msg)
    ensures var msg' := Wrote(s.msg, copy, change, now);
      var seen := Recorded(s.msg.receipts, m);
      var acked := if change.MarkingRead? && copy.id == m && copy.senderId != change.reader then [change.reader] else [];
      && ReadersIn(msg'.pendingReceipts, m) == ReadersIn(s.msg.pendingReceipts, m) + FirstNew(acked, seen)
      && Recorded(msg'.receipts, m) == seen + (if acked == [] then {} else {acked[0]})
  {
    hide Written, IndexInv, TombstoneInv, Recorded, ReadersIn;
    WroteIs(s.msg, copy, change, now);
    if change.MarkingRead? {
      RecordedReceipts(s.msg, copy.senderId, copy.id, change.reader, m);
    }
  }

  /** What one move does to the pending readers of a message, and to those on record. */
  lemma MoveReceipts(w: World, step: TimedMove, m: MessageId)
    requires MessageInv(w.s.msg) && Enabled(w, step.move)
    ensures var msg' := Moved(w, step).s.msg;
      var seen, acked := Recorded(w.s.msg.receipts, m), AckBy(w, step, m);
      && ReadersIn(w.s.msg.pendingReceipts, m) + FirstNew(acked, seen) == ReportedBy(w, step, m) + ReadersIn(msg'.pendingReceipts, m)
      && Recorded(msg'.receipts, m) == seen + (if acked == [] then {} else {acked[0]})
  {
    hide MessageInv, Next, Fresh, AckOf, Reported, Finish, Wrote, Held, Recorded, Born;
    match step.move
    case Whole(op) => StepReceipts(w.s, Step(op, step.now), m);
    case FinishSend(call, newId) => FinishSameReceipts(w.s, w.inFlight[call].actor, w.inFlight[call].input, newId, step.now);
    case FinishWrite(call) => WriteReceipts(w.s, w.inFlight[call].copy, w.inFlight[call].change, step.now, m);
    case _ =>
  }

  /** For every message and every interleaving: the readers pending at the start, then the first acknowledgement of each user
      not yet on record, are the readers that the flushes report, in order, then those still pending. */
  lemma {:induction false} ReceiptsConserved(w: World, clock: nat, moves: seq<TimedMove>, m: MessageId)
    requires WorldInv(w) && Possible(w, clock, moves)
    ensures ReadersIn(w.s.msg.pendingReceipts, m) + FirstNew(AckLog(w, moves, m), Recorded(w.s.msg.receipts, m))
      == ReportedAll(w, moves, m) + ReadersIn(After(w, moves).s.msg.pendingReceipts, m)
    decreases |moves|
  {
    hide WorldInv, Moved, Enabled, AckBy, ReportedBy, Recorded;
    if moves == [] {
      assert ReadersIn(w.s.msg.pendingReceipts, m) + [] == [] + ReadersIn(w.s.msg.pendingReceipts, m);
    } else {
      var w1, rest := Moved(w, moves[0]), moves[1..];
      WorldMessages(w);
      MoveKeeps(w, moves[0]);
      MoveReceipts(w, moves[0], m);
      ReceiptsConserved(w1, moves[0].now, rest, m);
      var seen, acked := Recorded(w.s.msg.receipts, m), AckBy(w, moves[0], m);
      AckByIsOne(w, moves[0], m);
      FirstNewSplits(acked, AckLog(w1, rest, m), seen);
      Splice(ReadersIn(w.s.msg.pendingReceipts, m), FirstNew(acked, seen), ReportedBy(w, moves[0], m), ReadersIn(w1.s.msg.pendingReceipts, m),
             FirstNew(AckLog(w1, rest, m), Recorded(w1.s.msg.receipts, m)), ReportedAll(w1, rest, m),
             ReadersIn(After(w1, rest).s.msg.pendingReceipts, m));
    }
  }

  lemma AckByIsOne(w: World, step: TimedMove, m: MessageId)
    ensures |AckBy(w, step, m)| <= 1
  {
    hide Enabled;
  }

  lemma FirstNewSplits(first: seq<UserId>, rest: seq<UserId>, seen: set<UserId>)
    requires |first| <= 1
    ensures FirstNew(first + rest, seen) == FirstNew(first, seen) + FirstNew(rest, seen + if first == [] then {} else {first[0]})
  {
    if first == [] {
      assert first + rest == rest && seen + {} == seen;
    } else {
      assert (first + rest)[1..] == rest && first[1..] == [];
      if first[0] in seen {
        assert seen + {first[0]} == seen;
      }
    }
  }

  lemma StartsWithoutReceipts(m: MessageId)
    ensures ReadersIn(Start.s.msg.pendingReceipts, m) == [] && Recorded(Start.s.msg.receipts, m) == {}
  {
  }

  /** From the empty store, over every interleaving: in all batches ever flushed, then those still pending, message `m` has
      exactly the users other than its sender who acknowledged it, each once, in the order of their first acknowledgements. */
  lemma EveryReaderReportedOnce(clock: nat, moves: seq<TimedMove>, m: MessageId)
    requires Possible(Start, clock, moves)
    ensures var log := AckLog(Start, moves, m);
      var readers := ReportedAll(Start, moves, m) + ReadersIn(After(Start, moves).s.msg.pendingReceipts, m);
      readers == FirstNew(log, {}) && Distinct(readers) && forall u :: u in readers <==> u in log
  {
    hide AckLog, ReportedAll, After, Possible, FirstNew, WorldInv, Start;
    StartInv();
    ReceiptsConserved(Start, clock, moves, m);
    var log := AckLog(Start, moves, m);
    StartsWithoutReceipts(m);
    assert [] + FirstNew(log, {}) == FirstNew(log, {});
    FirstNewIs(log, {});
  }
}
