/**
 Bot events with the in-memory `create`, whose look and insert are separate steps: when `message.created` events are
 exactly the new messages of normal channels, and when ciphertext reaches a queue.
 */
module InMemoryEvents {
  import opened JsCollections
  import opened Ids
  import opened Domain
  import opened Workspaces
  import opened MessageStore
  import opened Bots
  import opened Messages
  import opened Runs
  import opened Rows
  import opened Interleaving
  import opened Guarantees
  import opened BotEvents
  import opened InMemoryCreate

  function SecondHalf(move: SplitMove): Move
    requires move.Look? || move.Insert?
  {
    FinishSend(move.call, move.newId)
  }

  // ---------------------------------------------------------------- message.created

  /** The events a move publishes: a look that finds a row publishes that row, an insert its own. */
  ghost function SplitPublished(sw: SplitWorld, step: SplitStep): seq<BotEvent> {
    if !SplitEnabled(sw, step.move) then []
    else
      match step.move
      case Other(m) => PublishedBy(sw.w, TimedMove(m, step.now))
      case Look(call, newId) => if FindsRow(sw.w.s, sw.w.inFlight[call]) then Finished(sw.w, call, newId, step.now).published else []
      case Insert(call, newId) => BlindBy(sw.w, call, newId, step.now).published
      case _ => []
  }

  /** The messages that sends and forwards stored in a normal channel. */
  ghost function SplitNew(sw: SplitWorld, step: SplitStep): seq<MessageId> {
    match step.move
    case Other(m) => NewNormalBy(sw.w, TimedMove(m, step.now))
    case Insert(_, _) => AddedNormal(sw.w.s.ws, sw.w.s.msg.messages, SplitMoved(sw, step).w.s.msg.messages)
    case _ => []
  }

  /** A look, or a second half at once, that finds a row in a normal channel's send and publishes it. */
  predicate SplitRepeats(sw: SplitWorld, move: SplitMove) {
    (move.Other? && Repeats(sw.w, move.move)) || (move.Look? && Repeats(sw.w, SecondHalf(move)))
  }

  ghost function SplitPublishedIds(sw: SplitWorld, moves: seq<SplitStep>): seq<MessageId>
    decreases |moves|
  {
    if moves == [] then [] else CreatedIds(SplitPublished(sw, moves[0])) + SplitPublishedIds(SplitMoved(sw, moves[0]), moves[1..])
  }

  ghost function SplitNewIds(sw: SplitWorld, moves: seq<SplitStep>): seq<MessageId>
    decreases |moves|
  {
    if moves == [] then [] else SplitNew(sw, moves[0]) + SplitNewIds(SplitMoved(sw, moves[0]), moves[1..])
  }

  ghost function SplitRepetitions(sw: SplitWorld, moves: seq<SplitStep>): nat
    decreases |moves|
  {
    if moves == [] then 0
    else (if SplitRepeats(sw, moves[0].move) then 1 else 0) + SplitRepetitions(SplitMoved(sw, moves[0]), moves[1..])
  }

  /** An insert publishes its own new message, whatever the index says. */
  lemma BlindPublishesNew(s: State, actor: UserId, input: SendInput, id: MessageId, now: nat)
    requires id !in s.msg.messages.vals
    ensures var r := Blind(s, actor, input, id, now);
      var added := AddedNormal(s.ws, s.msg.messages, r.state.msg.messages);
      CreatedIds(r.published) == added && |added| <= 1 && forall x :: x in added ==> x == id && id in r.state.msg.messages.vals
  {
    hide Publish;
    var r := Blind(s, actor, input, id, now);
    assert r.published != [] ==> CreatedIds(r.published[1..]) == [];
  }

  /** A second half that finds a row stores nothing and publishes that row. */
  lemma FoundPublishes(s: State, actor: UserId, input: SendInput, id: MessageId, now: nat)
    requires FindByClient(s.msg, actor, input.clientMsgId).Some?
    ensures |CreatedIds(Finish(s, actor, input, id, now).published)| == if IsNormal(s.ws, input.channelId) then 1 else 0
  {
    hide Publish, FindByClient;
    var r := Finish(s, actor, input, id, now);
    assert r.published != [] ==> CreatedIds(r.published[1..]) == [];
  }

  /** What a move publishes are the normal-channel messages it stored, and one row more when it repeats one. */
  lemma SplitMovePublishes(sw: SplitWorld, step: SplitStep)
    requires LooseInv(sw) && SplitEnabled(sw, step.move)
    ensures |CreatedIds(SplitPublished(sw, step))| == |SplitNew(sw, step)| + (if SplitRepeats(sw, step.move) then 1 else 0)
    ensures !SplitRepeats(sw, step.move) ==> CreatedIds(SplitPublished(sw, step)) == SplitNew(sw, step)
    ensures |SplitNew(sw, step)| <= 1
    ensures forall id :: id in SplitNew(sw, step) ==> id !in sw.w.s.msg.messages.vals && id in SplitMoved(sw, step).w.s.msg.messages.vals
  {
    hide WorkspaceInv, RowsOk, BotsPlaced, LooseCalls, LooksFit, Moved, PublishedBy;
    hide NewNormalBy, AddedNormal, Finish, Blind, Born, FindByClient;
    match step.move
    case Other(m) => MovePublishes(sw.w, TimedMove(m, step.now));
    case Look(call, newId) =>
      if FindsRow(sw.w.s, sw.w.inFlight[call]) {
        FoundPublishes(sw.w.s, sw.w.inFlight[call].actor, sw.w.inFlight[call].input, newId, step.now);
      }
    case Insert(call, newId) => BlindPublishesNew(sw.w.s, sw.w.inFlight[call].actor, sw.w.inFlight[call].input, newId, step.now);
    case _ =>
  }

  lemma IdsStayLoosely(s: State, s': State)
    requires Loosely(s, s')
    ensures s.msg.messages.vals.Keys <= s'.msg.messages.vals.Keys
  {
    forall id | id in s.msg.messages.vals.Keys
      ensures id in s'.msg.messages.vals.Keys
    {
      assert id in s.msg.messages.vals;
    }
  }

  /** Over every run of looks, inserts, other halves and whole calls, with two rows for one client id or not: the
      `message.created` events are the new normal-channel messages that sends and forwards made, in order, each once, if
      and only if no look of a send to a normal channel found a row; each that did adds one event. */
  lemma {:induction false} InMemoryEventsAreNewMessages(sw: SplitWorld, clock: nat, moves: seq<SplitStep>)
    requires LooseInv(sw) && SplitPossible(sw, clock, moves)
    ensures SplitPublishedIds(sw, moves) == SplitNewIds(sw, moves) <==> SplitRepetitions(sw, moves) == 0
    ensures |SplitPublishedIds(sw, moves)| == |SplitNewIds(sw, moves)| + SplitRepetitions(sw, moves)
    ensures Distinct(SplitNewIds(sw, moves))
    ensures forall id :: id in SplitNewIds(sw, moves) ==>
      id !in sw.w.s.msg.messages.vals.Keys && id in SplitAfter(sw, moves).w.s.msg.messages.vals.Keys
    decreases |moves|
  {
    hide LooseInv, Loosely, SplitEnabled, SplitMoved, SplitPublished, SplitNew, SplitRepeats;
    if moves != [] {
      var sw1, rest := SplitMoved(sw, moves[0]), moves[1..];
      SplitMoveKeeps(sw, moves[0]);
      SplitMovePublishes(sw, moves[0]);
      InMemoryEventsAreNewMessages(sw1, moves[0].now, rest);
      SplitAfterKeeps(sw1, moves[0].now, rest);
      IdsStayLoosely(sw.w.s, sw1.w.s);
      IdsStayLoosely(sw1.w.s, SplitAfter(sw1, rest).w.s);
      NewIdsAppend(SplitNew(sw, moves[0]), SplitNewIds(sw1, rest),
                   sw.w.s.msg.messages.vals.Keys, sw1.w.s.msg.messages.vals.Keys, SplitAfter(sw1, rest).w.s.msg.messages.vals.Keys);
    }
  }

  // ---------------------------------------------------------------- E2E isolation

  /** A look, or a second half at once, that finds a ciphertext row for a normal channel in which some bot listens. */
  ghost predicate SplitLeaks(sw: SplitWorld, move: SplitMove) {
    (move.Other? && Leaks(sw.w, move.move)) || (move.Look? && Leaks(sw.w, SecondHalf(move)))
  }

  lemma BlindIsPlain(s: State, actor: UserId, input: SendInput, id: MessageId, now: nat)
    requires EventsPlain(s.bot) && InputFits(s.ws, input)
    ensures EventsPlain(Blind(s, actor, input, id, now).state.bot)
  {
    hide EventsPlain, Publish;
    var r := Blind(s, actor, input, id, now);
    if r.published != [] {
      PublishPlainIff(s.bot, r.published[0]);
    }
  }

  lemma LooseMoveIsPlainIff(w: World, step: TimedMove)
    requires LooseState(w.s) && LooseCalls(w) && EventsPlain(w.s.bot) && Enabled(w, step.move)
    ensures EventsPlain(Moved(w, step).s.bot) <==> !Leaks(w, step.move)
  {
    hide EventsPlain, WorkspaceInv, BotsPlaced, RowsOk, Next, Fresh, FreshIds;
    hide Finish, PublishesCiphertext, InputFits, CopyIsLoose, Held, Born;
    match step.move
    case Whole(op) => StepKeepsBots(w.s, Step(op, step.now));
    case FinishSend(call, newId) =>
      assert LooseCall(w.s, w.inFlight[call]);
      FinishIsPlainIff(w.s, w.inFlight[call].actor, w.inFlight[call].input, newId, step.now);
    case _ =>
  }

  lemma LookLeaksOnlyFound(w: World, call: CallId, newId: MessageId)
    requires Holds(w, call) && Leaks(w, FinishSend(call, newId))
    ensures FindsRow(w.s, w.inFlight[call])
  {
  }

  lemma SplitMoveIsPlainIff(sw: SplitWorld, step: SplitStep)
    requires LooseInv(sw) && EventsPlain(sw.w.s.bot) && SplitEnabled(sw, step.move)
    ensures EventsPlain(SplitMoved(sw, step).w.s.bot) <==> !SplitLeaks(sw, step.move)
  {
    hide EventsPlain, LooseState, LooksFit, Moved, Blind, Leaks, InputFits, FindsRow, Born, Inserted;
    match step.move
    case Other(m) => LooseMoveIsPlainIff(sw.w, TimedMove(m, step.now));
    case Look(call, newId) =>
      LooseMoveIsPlainIff(sw.w, TimedMove(FinishSend(call, newId), step.now));
      if Leaks(sw.w, FinishSend(call, newId)) {
        LookLeaksOnlyFound(sw.w, call, newId);
      }
    case Insert(call, newId) =>
      assert LooseCall(sw.w.s, sw.w.inFlight[call]);
      BlindIsPlain(sw.w.s, sw.w.inFlight[call].actor, sw.w.inFlight[call].input, newId, step.now);
    case _ =>
  }

  ghost predicate SplitPlainThroughout(sw: SplitWorld, moves: seq<SplitStep>)
    decreases |moves|
  {
    EventsPlain(sw.w.s.bot) && (moves == [] || SplitPlainThroughout(SplitMoved(sw, moves[0]), moves[1..]))
  }

  ghost predicate SplitLeaksIn(sw: SplitWorld, moves: seq<SplitStep>)
    decreases |moves|
  {
    moves != [] && (SplitLeaks(sw, moves[0].move) || SplitLeaksIn(SplitMoved(sw, moves[0]), moves[1..]))
  }

  lemma {:induction false} SplitPlainIff(sw: SplitWorld, clock: nat, moves: seq<SplitStep>)
    requires LooseInv(sw) && EventsPlain(sw.w.s.bot) && SplitPossible(sw, clock, moves)
    ensures SplitPlainThroughout(sw, moves) <==> !SplitLeaksIn(sw, moves)
    decreases |moves|
  {
    hide LooseInv, EventsPlain, SplitMoved, SplitEnabled, SplitLeaks, Loosely;
    if moves != [] {
      SplitMoveIsPlainIff(sw, moves[0]);
      if !SplitLeaks(sw, moves[0].move) {
        SplitMoveKeeps(sw, moves[0]);
        SplitPlainIff(SplitMoved(sw, moves[0]), moves[0].now, moves[1..]);
      }
    }
  }

  lemma LooseIsIsolated(s: State)
    requires LooseState(s)
    ensures E2eIsolated(s)
  {
    hide WorkspaceInv;
    forall id | id in s.msg.messages.vals
      ensures ContentFits(s.ws, s.msg.messages.vals[id])
    {
    }
  }

  /** Over every such run from the empty store: E2E channels hold only ciphertext and tombstones, no bot is in one and no queued
      bot event names one, also after two rows have got the same client id; and at no point does a queued bot event carry
      ciphertext, if and only if no look of a send to a normal channel with a listening bot finds a ciphertext row. */
  lemma {:induction false} InMemoryE2eIsolation(clock: nat, moves: seq<SplitStep>)
    requires SplitPossible(SplitStart, clock, moves)
    ensures E2eIsolated(SplitAfter(SplitStart, moves).w.s)
    ensures SplitPlainThroughout(SplitStart, moves) <==> !SplitLeaksIn(SplitStart, moves)
  {
    hide SplitPossible, SplitAfter, LooseState, LooseCalls, LooksFit;
    hide EventsPlain, SplitPlainThroughout, SplitLeaksIn, E2eIsolated, SplitInv;
    SplitStartInv();
    InvIsLoose(SplitStart);
    SplitAfterKeeps(SplitStart, clock, moves);
    LooseIsIsolated(SplitAfter(SplitStart, moves).w.s);
    SplitPlainIff(SplitStart, clock, moves);
  }
}
