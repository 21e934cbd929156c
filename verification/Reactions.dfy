/**
 The reaction aggregate: the loop over all stored reactions, and the sets it computes.
 */
module Reactions {
  import opened JsCollections
  import opened Ids
  import opened Domain
  import opened Workspaces
  import opened MessageStore
  import opened Messages

  datatype Tally = Tally(emoji: Emoji, count: nat, reacted: bool)

  type Summary = JsMap<MessageId, seq<Tally>>

  // ---------------------------------------------------------------- what the aggregate means

  /** The users who reacted to message `m` with `emoji`. */
  function Users(keys: seq<ReactionKey>, m: MessageId, emoji: Emoji): set<UserId> {
    set k | k in keys && k.messageId == m && k.emoji == emoji :: k.user
  }

  predicate OnChannel(messages: MessageTable, c: ChannelId, m: MessageId) {
    m in messages.vals && messages.vals[m].channelId == c
  }

  /** Each emoji that has users appears once, with how many users and whether `user` is one of them; no other emoji appears. */
  ghost predicate TalliesAre(tallies: seq<Tally>, keys: seq<ReactionKey>, m: MessageId, user: UserId) {
    && (forall i, j :: 0 <= i < j < |tallies| ==> tallies[i].emoji != tallies[j].emoji)
    && (forall t :: t in tallies ==> TallyIs(t, keys, m, user))
    && (forall k :: k in keys && k.messageId == m ==> exists t :: t in tallies && t.emoji == k.emoji)
  }

  ghost predicate TallyIs(t: Tally, keys: seq<ReactionKey>, m: MessageId, user: UserId) {
    var users := Users(keys, m, t.emoji);
    t.count == |users| && t.count > 0 && (t.reacted <==> user in users)
  }

  ghost predicate HasAny(keys: seq<ReactionKey>, m: MessageId) {
    exists k :: k in keys && k.messageId == m
  }

  /** The summary lists exactly the channel's messages that have a reaction, each with its tallies. */
  ghost predicate SummaryIs(out: Summary, messages: MessageTable, keys: seq<ReactionKey>, c: ChannelId, user: UserId) {
    && out.Valid()
    && (forall m :: m in out.vals <==> OnChannel(messages, c, m) && HasAny(keys, m))
    && (forall m :: m in out.vals ==> TalliesAre(out.vals[m], keys, m, user))
  }

  function Total(tallies: seq<Tally>): nat {
    if tallies == [] then 0 else Total(tallies[..|tallies| - 1]) + tallies[|tallies| - 1].count
  }

  function ChannelKeys(messages: MessageTable, keys: seq<ReactionKey>, c: ChannelId): nat {
    if keys == [] then 0
    else ChannelKeys(messages, keys[..|keys| - 1], c) + if OnChannel(messages, c, keys[|keys| - 1].messageId) then 1 else 0
  }

  // ---------------------------------------------------------------- one turn of the loop

  function IndexOf(tallies: seq<Tally>, emoji: Emoji): (i: nat)
    ensures i <= |tallies|
    ensures i < |tallies| ==> tallies[i].emoji == emoji
    ensures forall j :: 0 <= j < i ==> tallies[j].emoji != emoji
  {
    if tallies == [] || tallies[0].emoji == emoji then 0 else 1 + IndexOf(tallies[1..], emoji)
  }

  function Counted(tallies: seq<Tally>, k: ReactionKey, user: UserId): seq<Tally> {
    var i := IndexOf(tallies, k.emoji);
    if i < |tallies| then tallies[i := Tally(k.emoji, tallies[i].count + 1, tallies[i].reacted || k.user == user)]
    else tallies + [Tally(k.emoji, 1, k.user == user)]
  }

  lemma UsersGrow(keys: seq<ReactionKey>, k: ReactionKey, m: MessageId, emoji: Emoji)
    requires k !in keys
    ensures Users(keys + [k], m, emoji) == Users(keys, m, emoji) + if k.messageId == m && k.emoji == emoji then {k.user} else {}
    ensures k.messageId == m && k.emoji == emoji ==> k.user !in Users(keys, m, emoji)
  {
    forall u | u in Users(keys, m, emoji)
      ensures u in Users(keys + [k], m, emoji)
    {
      var x :| x in keys && x.messageId == m && x.emoji == emoji && x.user == u;
      assert x in keys + [k];
    }
    if k.messageId == m && k.emoji == emoji {
      assert k in keys + [k] && k.user in Users(keys + [k], m, emoji);
      assert forall x :: x in keys && x.messageId == m && x.emoji == emoji ==> x.user != k.user;
    }
  }

  lemma TallyGrows(t: Tally, keys: seq<ReactionKey>, k: ReactionKey, m: MessageId, user: UserId)
    requires k !in keys && TallyIs(t, keys, m, user) && !(k.messageId == m && k.emoji == t.emoji)
    ensures TallyIs(t, keys + [k], m, user)
  {
    UsersGrow(keys, k, m, t.emoji);
  }

  lemma CountedTally(t: Tally, keys: seq<ReactionKey>, k: ReactionKey, user: UserId)
    requires k !in keys && t.emoji == k.emoji && TallyIs(t, keys, k.messageId, user)
    ensures TallyIs(Tally(k.emoji, t.count + 1, t.reacted || k.user == user), keys + [k], k.messageId, user)
  {
    UsersGrow(keys, k, k.messageId, k.emoji);
  }

  lemma NewTally(keys: seq<ReactionKey>, k: ReactionKey, user: UserId)
    requires k !in keys && forall x :: x in keys && x.messageId == k.messageId ==> x.emoji != k.emoji
    ensures TallyIs(Tally(k.emoji, 1, k.user == user), keys + [k], k.messageId, user)
  {
    UsersGrow(keys, k, k.messageId, k.emoji);
    assert Users(keys, k.messageId, k.emoji) == {};
    assert Users(keys + [k], k.messageId, k.emoji) == {k.user};
  }

  /** Counting one more reaction of this message. */
  lemma CountedIs(tallies: seq<Tally>, keys: seq<ReactionKey>, k: ReactionKey, user: UserId)
    requires k !in keys && TalliesAre(tallies, keys, k.messageId, user)
    ensures TalliesAre(Counted(tallies, k, user), keys + [k], k.messageId, user)
    ensures Total(Counted(tallies, k, user)) == Total(tallies) + 1
  {
    var m := k.messageId;
    hide TallyIs, Total;
    var tallies' := Counted(tallies, k, user);
    var i := IndexOf(tallies, k.emoji);
    forall t | t in tallies'
      ensures TallyIs(t, keys + [k], m, user)
    {
      var j :| 0 <= j < |tallies'| && tallies'[j] == t;
      if j != i {
        assert tallies[j] in tallies;
        TallyGrows(t, keys, k, m, user);
      } else if i < |tallies| {
        assert tallies[i] in tallies;
        CountedTally(tallies[i], keys, k, user);
      } else {
        forall x | x in keys && x.messageId == m
          ensures x.emoji != k.emoji
        {
          var u :| u in tallies && u.emoji == x.emoji;
          var n :| 0 <= n < |tallies| && tallies[n] == u;
        }
        NewTally(keys, k, user);
      }
    }
    StillListed(tallies, keys, k, user);
    CountedTotal(tallies, k, user);
  }

  lemma StillListed(tallies: seq<Tally>, keys: seq<ReactionKey>, k: ReactionKey, user: UserId)
    requires TalliesAre(tallies, keys, k.messageId, user)
    ensures forall x :: x in keys + [k] && x.messageId == k.messageId ==> exists t :: t in Counted(tallies, k, user) && t.emoji == x.emoji
  {
    var tallies' := Counted(tallies, k, user);
    var i := IndexOf(tallies, k.emoji);
    forall x | x in keys + [k] && x.messageId == k.messageId
      ensures exists t :: t in tallies' && t.emoji == x.emoji
    {
      if x.emoji == k.emoji {
        assert tallies'[i] in tallies' && tallies'[i].emoji == x.emoji;
      } else {
        var t :| t in tallies && t.emoji == x.emoji;
        var j :| 0 <= j < |tallies| && tallies[j] == t;
        assert tallies'[j] == t;
      }
    }
  }

  lemma {:induction false} TotalAt(tallies: seq<Tally>, i: nat, t: Tally)
    requires i < |tallies|
    ensures Total(tallies[i := t]) + tallies[i].count == Total(tallies) + t.count
  {
    var n := |tallies| - 1;
    if i == n {
      assert tallies[i := t][..n] == tallies[..n];
    } else {
      TotalAt(tallies[..n], i, t);
      assert tallies[i := t][..n] == tallies[..n][i := t];
    }
  }

  lemma TotalOneMore(tallies: seq<Tally>, t: Tally)
    ensures Total(tallies + [t]) == Total(tallies) + t.count
  {
    assert (tallies + [t])[..|tallies|] == tallies;
  }

  lemma CountedTotal(tallies: seq<Tally>, k: ReactionKey, user: UserId)
    ensures Total(Counted(tallies, k, user)) == Total(tallies) + 1
  {
    hide Total;
    hide IndexOf;
    var i := IndexOf(tallies, k.emoji);
    if i < |tallies| {
      TotalAt(tallies, i, Tally(k.emoji, tallies[i].count + 1, tallies[i].reacted || k.user == user));
    } else {
      TotalOneMore(tallies, Tally(k.emoji, 1, k.user == user));
    }
  }

  lemma TalliesOfOther(tallies: seq<Tally>, keys: seq<ReactionKey>, k: ReactionKey, m: MessageId, user: UserId)
    requires k !in keys && k.messageId != m && TalliesAre(tallies, keys, m, user)
    ensures TalliesAre(tallies, keys + [k], m, user)
  {
    forall t | t in tallies
      ensures TallyIs(t, keys + [k], m, user)
    {
      TallyGrows(t, keys, k, m, user);
    }
  }

  lemma NoTallies(keys: seq<ReactionKey>, m: MessageId, user: UserId)
    requires !HasAny(keys, m)
    ensures TalliesAre([], keys, m, user)
  {
  }

  lemma HasOneMore(keys: seq<ReactionKey>, k: ReactionKey, m: MessageId)
    ensures HasAny(keys + [k], m) <==> m == k.messageId || HasAny(keys, m)
  {
    assert k in keys + [k];
    if HasAny(keys, m) {
      var x :| x in keys && x.messageId == m;
      assert x in keys + [k];
    }
  }

  /** One turn of the loop, on a reaction of the channel. */
  lemma TurnCounts(
      out: Summary, messages: MessageTable, keys: seq<ReactionKey>, k: ReactionKey, c: ChannelId, user: UserId,
      tallies: seq<Tally>)
    requires SummaryIs(out, messages, keys, c, user) && k !in keys && OnChannel(messages, c, k.messageId)
    requires tallies == if k.messageId in out.vals then out.vals[k.messageId] else []
    ensures SummaryIs(out.Set(k.messageId, Counted(tallies, k, user)), messages, keys + [k], c, user)
  {
    hide TalliesAre, OnChannel, HasAny, Counted;
    var out' := out.Set(k.messageId, Counted(tallies, k, user));
    if k.messageId !in out.vals {
      NoTallies(keys, k.messageId, user);
    }
    CountedIs(tallies, keys, k, user);
    forall m
      ensures m in out'.vals <==> OnChannel(messages, c, m) && HasAny(keys + [k], m)
      ensures m in out'.vals ==> TalliesAre(out'.vals[m], keys + [k], m, user)
    {
      HasOneMore(keys, k, m);
      if m != k.messageId && m in out.vals {
        TalliesOfOther(out.vals[m], keys, k, m, user);
      }
    }
  }

  /** One turn of the loop, on a reaction of another channel. */
  lemma TurnSkips(out: Summary, messages: MessageTable, keys: seq<ReactionKey>, k: ReactionKey, c: ChannelId, user: UserId)
    requires SummaryIs(out, messages, keys, c, user) && k !in keys && !OnChannel(messages, c, k.messageId)
    ensures SummaryIs(out, messages, keys + [k], c, user)
  {
    hide TalliesAre, OnChannel, HasAny;
    forall m
      ensures m in out.vals <==> OnChannel(messages, c, m) && HasAny(keys + [k], m)
      ensures m in out.vals ==> TalliesAre(out.vals[m], keys + [k], m, user)
    {
      HasOneMore(keys, k, m);
      if m in out.vals {
        TalliesOfOther(out.vals[m], keys, k, m, user);
      }
    }
  }

  function Totals(out: Summary): nat
    requires out.Valid()
  {
    SumRows(out.keys, out.vals, Total)
  }

  lemma StartsEmpty(messages: MessageTable, c: ChannelId, user: UserId)
    ensures SummaryIs(Empty(), messages, [], c, user) && Totals(Empty()) == ChannelKeys(messages, [], c)
  {
  }

  lemma KeysGrow(messages: MessageTable, keys: seq<ReactionKey>, i: nat, c: ChannelId)
    requires i < |keys|
    ensures ChannelKeys(messages, keys[..i + 1], c) == ChannelKeys(messages, keys[..i], c) + if OnChannel(messages, c, keys[i].messageId) then 1 else 0
  {
    assert keys[..i + 1][..i] == keys[..i];
  }

  lemma TurnTotals(out: Summary, k: ReactionKey, user: UserId, tallies: seq<Tally>)
    requires out.Valid() && tallies == if k.messageId in out.vals then out.vals[k.messageId] else []
    ensures Totals(out.Set(k.messageId, Counted(tallies, k, user))) == Totals(out) + 1
  {
    CountedTotal(tallies, k, user);
    SumRowsSet(out, k.messageId, Counted(tallies, k, user), Total);
  }

  // ---------------------------------------------------------------- the loop

  /** The body of the loop for one message: find the emoji's entry and count it up, or add one. */
  method CountOne(tallies: seq<Tally>, k: ReactionKey, user: UserId) returns (counted: seq<Tally>)
    ensures counted == Counted(tallies, k, user)
  {
    var found := 0;
    while found < |tallies| && tallies[found].emoji != k.emoji
      invariant 0 <= found <= IndexOf(tallies, k.emoji)
    {
      found := found + 1;
    }
    if found < |tallies| {
      var t := tallies[found].(count := tallies[found].count + 1);
      if k.user == user {
        t := t.(reacted := true);
      }
      counted := tallies[found := t];
    } else {
      counted := tallies + [Tally(k.emoji, 1, k.user == user)];
    }
  }

  /** The in-memory `reactions`: one pass over the reactions, in the order they were first made. */
  method Aggregate(
      messages: MessageTable, reactions: JsMap<ReactionKey, nat>, c: ChannelId, user: UserId) returns (out: Summary)
    requires reactions.Valid()
    ensures SummaryIs(out, messages, reactions.keys, c, user)
    ensures Totals(out) == ChannelKeys(messages, reactions.keys, c)
  {
    hide SummaryIs, Counted, ChannelKeys, Totals;
    out := Empty();
    StartsEmpty(messages, c, user);
    var keys := reactions.keys;
    var i := 0;
    while i < |keys|
      invariant 0 <= i <= |keys|
      invariant out.Valid() && SummaryIs(out, messages, keys[..i], c, user)
      invariant Totals(out) == ChannelKeys(messages, keys[..i], c)
    {
      var k := keys[i];
      assert keys[..i + 1] == keys[..i] + [k] && k !in keys[..i];
      KeysGrow(messages, keys, i, c);
      if OnChannel(messages, c, k.messageId) {
        var tallies := if k.messageId in out.vals then out.vals[k.messageId] else [];
        var counted := CountOne(tallies, k, user);
        TurnCounts(out, messages, keys[..i], k, c, user, tallies);
        TurnTotals(out, k, user, tallies);
        out := out.Set(k.messageId, counted);
      } else {
        TurnSkips(out, messages, keys[..i], k, c, user);
      }
      i := i + 1;
    }
    assert keys[..|keys|] == keys;
  }

  // ---------------------------------------------------------------- the count that `react` answers

  lemma {:induction false} CountIsUsers(keys: seq<ReactionKey>, m: MessageId, emoji: Emoji)
    requires Distinct(keys)
    ensures |Filter(keys, (k: ReactionKey) => k.messageId == m && k.emoji == emoji)| == |Users(keys, m, emoji)|
  {
    var p := (k: ReactionKey) => k.messageId == m && k.emoji == emoji;
    if keys == [] {
      assert Users(keys, m, emoji) == {};
    } else {
      var n := |keys| - 1;
      assert keys == keys[..n] + [keys[n]];
      CountIsUsers(keys[..n], m, emoji);
      FilterConcat(keys[..n], [keys[n]], p);
      assert Filter([keys[n]][1..], p) == [];
      UsersGrow(keys[..n], keys[n], m, emoji);
    }
  }

  /** What `react` leaves stored, and the count it answers. */
  lemma ReactCounts(s: State, actor: UserId, id: MessageId, emoji: Emoji, add: bool, now: nat)
    requires s.msg.reactions.Valid() && React(s, actor, id, emoji, add, now).1.Ok?
    ensures var (msg', outcome) := React(s, actor, id, emoji, add, now);
      var users := Users(msg'.reactions.keys, id, emoji);
      && msg'.messages == s.msg.messages && id in s.msg.messages.vals
      && outcome.value == |users|
      && (actor in users <==> add)
  {
    hide Users;
    var reactions := React(s, actor, id, emoji, add, now).0.reactions;
    var key := ReactionKey(id, actor, emoji);
    assert key in reactions.keys <==> add;
    CountIsUsers(reactions.keys, id, emoji);
    UsersAre(reactions.keys, key);
  }

  function Except(key: ReactionKey): ReactionKey -> bool {
    (k: ReactionKey) => k != key
  }

  lemma {:induction false} WithoutIsFilter(keys: seq<ReactionKey>, key: ReactionKey)
    ensures Without(keys, key) == Filter(keys, Except(key))
  {
    if keys != [] {
      WithoutIsFilter(keys[1..], key);
    }
  }

  /** One reaction is added or removed: every other key keeps its value and its place. */
  ghost predicate OnlyOneChanges(before: JsMap<ReactionKey, nat>, after: JsMap<ReactionKey, nat>, key: ReactionKey, add: bool, now: nat) {
    && (forall k :: k != key ==> after.Get(k) == before.Get(k))
    && after.Get(key) == (if add then Some(now) else None) && after.Valid()
    && after.keys == (if !add then Filter(before.keys, Except(key))
                      else before.keys + if key in before.keys then [] else [key])
  }

  /** Whoever may read a message may react to it.  The actor's reaction is added or removed and no other changes, the users of the
      emoji gain or lose the actor only, and their number is the answer. */
  lemma {:induction false} ReactChangesOneReaction(
      s: State, actor: UserId, id: MessageId, emoji: Emoji, add: bool, now: nat)
    requires s.msg.reactions.Valid()
    ensures var (msg', outcome) := React(s, actor, id, emoji, add, now);
      var before, after := Users(s.msg.reactions.keys, id, emoji), Users(msg'.reactions.keys, id, emoji);
      && (outcome.Ok? <==> id in s.msg.messages.vals && CanAccessChannel(s.ws, actor, s.msg.messages.vals[id].channelId))
      && (outcome.Fail? ==> msg' == s.msg && outcome.error == if id in s.msg.messages.vals then Forbidden else NotFound)
      && (outcome.Ok? ==>
            && OnlyOneChanges(s.msg.reactions, msg'.reactions, ReactionKey(id, actor, emoji), add, now)
            && after == (if add then before + {actor} else before - {actor}) && outcome.value == |after|
            && msg' == s.msg.(reactions := msg'.reactions, events := s.msg.events +
                 [MessageReaction(s.msg.messages.vals[id].channelId, id, emoji, outcome.value, add, now)]))
  {
    hide Users, CanAccessChannel, WithReaction, CountReactions, OnlyOneChanges;
    if React(s, actor, id, emoji, add, now).1.Ok? {
      ReactCounts(s, actor, id, emoji, add, now);
      OneChanges(s.msg.reactions, ReactionKey(id, actor, emoji), add, now);
      UsersChange(s.msg.reactions, ReactionKey(id, actor, emoji), add, now);
    }
  }

  lemma OneChanges(before: JsMap<ReactionKey, nat>, key: ReactionKey, add: bool, now: nat)
    requires before.Valid()
    ensures OnlyOneChanges(before, WithReaction(before, key, add, now), key, add, now)
  {
    WithoutIsFilter(before.keys, key);
  }

  lemma UsersChange(before: JsMap<ReactionKey, nat>, key: ReactionKey, add: bool, now: nat)
    requires before.Valid()
    ensures var after := WithReaction(before, key, add, now);
      var users := Users(before.keys, key.messageId, key.emoji);
      Users(after.keys, key.messageId, key.emoji) == if add then users + {key.user} else users - {key.user}
  {
    var after := WithReaction(before, key, add, now);
    assert forall k :: k in after.keys <==> (k in before.keys && k != key) || (add && k == key);
    forall u
      ensures u in Users(after.keys, key.messageId, key.emoji) <==>
        (u in Users(before.keys, key.messageId, key.emoji) && u != key.user) || (add && u == key.user)
    {
      var k := ReactionKey(key.messageId, u, key.emoji);
      UsersAre(after.keys, k);
      UsersAre(before.keys, k);
    }
  }

  lemma UsersAre(keys: seq<ReactionKey>, k: ReactionKey)
    ensures k.user in Users(keys, k.messageId, k.emoji) <==> k in keys
  {
  }

  lemma UsedEmoji(keys: seq<ReactionKey>, m: MessageId, emoji: Emoji)
    requires Users(keys, m, emoji) != {}
    ensures exists k :: k in keys && k.messageId == m && k.emoji == emoji
  {
    var u :| u in Users(keys, m, emoji);
  }

  /** The count `react` answers is the number of distinct users the aggregate then reports for that emoji, and whether the
      actor is among them is whether the reaction was added. */
  lemma ReactAnswersTheAggregate(
      s: State, actor: UserId, id: MessageId, emoji: Emoji, add: bool, now: nat, out: Summary, c: ChannelId)
    requires s.msg.reactions.Valid() && React(s, actor, id, emoji, add, now).1.Ok? && OnChannel(s.msg.messages, c, id)
    requires var msg' := React(s, actor, id, emoji, add, now).0; SummaryIs(out, msg'.messages, msg'.reactions.keys, c, actor)
    ensures var count := React(s, actor, id, emoji, add, now).1.value;
      if count == 0 then id in out.vals ==> forall t :: t in out.vals[id] ==> t.emoji != emoji
      else id in out.vals && Tally(emoji, count, add) in out.vals[id]
  {
    hide React, Users, OnChannel;
    ReactCounts(s, actor, id, emoji, add, now);
    var keys := React(s, actor, id, emoji, add, now).0.reactions.keys;
    if React(s, actor, id, emoji, add, now).1.value != 0 {
      UsedEmoji(keys, id, emoji);
      var t :| t in out.vals[id] && t.emoji == emoji;
      assert TallyIs(t, keys, id, actor);
    }
  }
}
