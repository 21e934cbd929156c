/**
 Cursor paging: what a client collects by following `nextCursor`, while others keep sending.
 */
module Paging {
  import opened JsCollections
  import opened Ids
  import opened Domain
  import opened Workspaces
  import opened MessageStore
  import opened Messages
  import opened Interleaving
  import opened Guarantees

  // ---------------------------------------------------------------- a channel's messages, in order

  ghost predicate Ascending(ms: seq<Message>) {
    forall i, j :: 0 <= i < j < |ms| ==> ms[i].id < ms[j].id
  }

  lemma {:induction false} InsertAscending(x: Message, sorted: seq<Message>)
    requires Ascending(sorted) && forall m :: m in sorted ==> m.id != x.id
    ensures Ascending(Insert(x, sorted))
  {
    if sorted != [] && !(x.id <= sorted[0].id) {
      InsertAscending(x, sorted[1..]);
      var rest := Insert(x, sorted[1..]);
      forall j | 0 <= j < |rest|
        ensures sorted[0].id < rest[j].id
      {
        InsertMembers(x, sorted[1..], rest[j]);
        assert rest[j] in rest;
      }
    }
  }

  lemma {:induction false} SortAscending(ms: seq<Message>)
    requires DistinctIds(ms)
    ensures Ascending(SortById(ms))
  {
    if ms != [] {
      SortAscending(ms[1..]);
      forall m | m in SortById(ms[1..])
        ensures m.id != ms[0].id
      {
        SortKeepsMembers(ms[1..], m);
        var k :| 0 <= k < |ms[1..]| && ms[1..][k] == m;
        assert ms[k + 1] == m;
      }
      InsertAscending(ms[0], SortById(ms[1..]));
    }
  }

  ghost predicate DistinctIds(ms: seq<Message>) {
    forall i, j :: 0 <= i < j < |ms| ==> ms[i].id != ms[j].id
  }

  /** Filtering keeps distinct ids distinct. */
  lemma {:induction false} FilterDistinctIds(ms: seq<Message>, p: Message -> bool)
    requires DistinctIds(ms)
    ensures DistinctIds(Filter(ms, p))
  {
    if ms != [] {
      FilterDistinctIds(ms[1..], p);
      var rest := Filter(ms[1..], p);
      forall j | 0 <= j < |rest|
        ensures rest[j].id != ms[0].id
      {
        assert rest[j] in rest;
        var k :| 0 <= k < |ms[1..]| && ms[1..][k] == rest[j];
        assert ms[k + 1] == rest[j];
      }
      assert Filter(ms, p) == (if p(ms[0]) then [ms[0]] + rest else rest);
    }
  }

  /** The channel's messages are strictly ascending in id. */
  lemma ChannelAscending(msg: MessageState, c: ChannelId)
    requires MessageInv(msg)
    ensures Ascending(ChannelMessages(msg, c))
  {
    var values := msg.messages.Values();
    forall i, j | 0 <= i < j < |values|
      ensures values[i].id != values[j].id
    {
      assert Indexed(msg.byClientId, msg.messages.vals[msg.messages.keys[i]], msg.messages.keys[i]);
      assert Indexed(msg.byClientId, msg.messages.vals[msg.messages.keys[j]], msg.messages.keys[j]);
    }
    FilterDistinctIds(values, InChannel(c));
    SortAscending(Filter(values, InChannel(c)));
  }

  // ---------------------------------------------------------------- one page

  function Above(cursor: Option<MessageId>): Message -> bool {
    (m: Message) => cursor.Some? ==> m.id > cursor.value
  }

  /** In ascending order, the messages above the cursor are a suffix. */
  lemma {:induction false} AboveIsSuffix(all: seq<Message>, cursor: MessageId, start: nat)
    requires Ascending(all) && start <= |all|
    requires forall i :: 0 <= i < |all| ==> (i < start <==> all[i].id <= cursor)
    ensures Filter(all, Above(Some(cursor))) == all[start..]
  {
    if all != [] {
      if start == 0 {
        AboveIsSuffix(all[1..], cursor, 0);
        assert all == [all[0]] + all[1..];
      } else {
        AboveIsSuffix(all[1..], cursor, start - 1);
        assert all[1..][start - 1..] == all[start..];
      }
    }
  }

  lemma {:induction false} FilterAll(all: seq<Message>)
    ensures Filter(all, Above(None)) == all
  {
    if all != [] {
      FilterAll(all[1..]);
      assert all == [all[0]] + all[1..];
    }
  }

  predicate HasId(all: seq<Message>, id: MessageId) {
    exists m | m in all :: m.id == id
  }

  /** A cursor that is in the channel: the slice starts right above it. */
  lemma StartIsAbove(all: seq<Message>, cursor: MessageId)
    requires Ascending(all) && HasId(all, cursor)
    ensures var start := StartAfter(all, cursor);
      forall i :: 0 <= i < |all| ==> (i < start <==> all[i].id <= cursor)
  {
  }

  /** The index form and the range form of `list` agree exactly when there is no cursor, the limit is zero, the cursor is
      a message of the channel, or the channel has no message at or below it; any other cursor makes the index form start over. */
  lemma IndexFormIsRangeFormIff(msg: MessageState, c: ChannelId, cursor: Option<MessageId>, limit: nat)
    requires MessageInv(msg)
    ensures List(msg, c, cursor, limit) == ListRange(msg, c, cursor, limit) <==>
      (cursor.None? || limit == 0 || HasId(ChannelMessages(msg, c), cursor.value)
       || forall m :: m in ChannelMessages(msg, c) ==> m.id > cursor.value)
  {
    var all := ChannelMessages(msg, c);
    ChannelAscending(msg, c);
    RangeIsFilter(msg, c, cursor, limit);
    if cursor.None? {
      FilterAll(all);
    } else {
      CursorForms(all, cursor.value, limit);
    }
  }

  lemma RangeIsFilter(msg: MessageState, c: ChannelId, cursor: Option<MessageId>, limit: nat)
    requires MessageInv(msg)
    ensures ListRange(msg, c, cursor, limit) == Slice(Filter(ChannelMessages(msg, c), Above(cursor)), 0, limit)
  {
    SameFilter(ChannelMessages(msg, c), (m: Message) => cursor.Some? ==> m.id > cursor.value, Above(cursor));
  }

  lemma {:induction false} SameFilter(all: seq<Message>, p: Message -> bool, q: Message -> bool)
    requires forall m :: m in all ==> (p(m) <==> q(m))
    ensures Filter(all, p) == Filter(all, q)
  {
    if all != [] {
      assert all == [all[0]] + all[1..];
      SameFilter(all[1..], p, q);
    }
  }

  /** The index form from a known cursor: everything above it is exactly what follows it. */
  lemma KnownCursor(all: seq<Message>, cursor: MessageId)
    requires Ascending(all) && HasId(all, cursor)
    ensures Filter(all, Above(Some(cursor))) == all[StartAfter(all, cursor)..]
  {
    StartIsAbove(all, cursor);
    AboveIsSuffix(all, cursor, StartAfter(all, cursor));
  }

  /** The index form from an unknown cursor starts over; that is the range form only if nothing is at or below the cursor. */
  lemma UnknownCursor(all: seq<Message>, cursor: MessageId, limit: nat)
    requires Ascending(all) && !HasId(all, cursor) && limit > 0
    ensures SliceAfter(all, Some(cursor), limit) == Slice(Filter(all, Above(Some(cursor))), 0, limit) <==>
      forall m :: m in all ==> m.id > cursor
  {
    assert StartAfter(all, cursor) == 0;
    var above := Filter(all, Above(Some(cursor)));
    if m :| m in all && m.id <= cursor {
      assert all[0].id <= m.id;
      assert SliceAfter(all, Some(cursor), limit)[0] == all[0];
      assert all[0] !in above;
      assert above != [] ==> Slice(above, 0, limit)[0] in above;
    } else {
      AboveIsSuffix(all, cursor, 0);
      assert all[0..] == all;
    }
  }

  lemma CursorForms(all: seq<Message>, cursor: MessageId, limit: nat)
    requires Ascending(all)
    ensures SliceAfter(all, Some(cursor), limit) == Slice(Filter(all, Above(Some(cursor))), 0, limit) <==>
      (limit == 0 || HasId(all, cursor) || forall m :: m in all ==> m.id > cursor)
  {
    if HasId(all, cursor) {
      KnownCursor(all, cursor);
      SliceFrom(all, StartAfter(all, cursor), limit);
    } else if limit > 0 {
      UnknownCursor(all, cursor, limit);
    } else {
      assert SliceAfter(all, Some(cursor), limit) == [] == Slice(Filter(all, Above(Some(cursor))), 0, limit);
    }
  }

  lemma SliceFrom(all: seq<Message>, start: nat, limit: nat)
    requires start <= |all|
    ensures Slice(all, start, limit) == Slice(all[start..], 0, limit)
  {
  }

  // ---------------------------------------------------------------- one page, by its ids

  function IdsOf(ms: seq<Message>): (ids: seq<MessageId>)
    ensures |ids| == |ms| && forall i :: 0 <= i < |ids| ==> ids[i] == ms[i].id
  {
    seq(|ms|, i requires 0 <= i < |ms| => ms[i].id)
  }

  ghost predicate Increasing(ids: seq<MessageId>) {
    forall i, j :: 0 <= i < j < |ids| ==> ids[i] < ids[j]
  }

  predicate Beyond(id: MessageId, cursor: Option<MessageId>) {
    cursor.Some? ==> id > cursor.value
  }

  predicate UpTo(id: MessageId, next: Option<MessageId>) {
    next.Some? ==> id <= next.value
  }

  /** One read: the ids in the channel at that moment, the cursor asked from, the ids shown, the cursor handed back. */
  datatype Read = Read(present: set<MessageId>, cursor: Option<MessageId>, ids: seq<MessageId>, next: Option<MessageId>)

  /** The ids shown increase and lie beyond the cursor; the next cursor is the last of them; and every id present from the
      cursor up to the next cursor, or to the end when there is none, is shown. */
  ghost predicate PageFits(r: Read) {
    && Increasing(r.ids)
    && (forall id :: id in r.ids ==> id in r.present && Beyond(id, r.cursor))
    && (r.next.Some? ==> r.ids != [] && r.next.value == r.ids[|r.ids| - 1])
    && (forall id :: id in r.present && Beyond(id, r.cursor) && UpTo(id, r.next) ==> id in r.ids)
  }

  /** The ids from position `start` on, `limit` of them with the last as the next cursor, or all that are left with none. */
  ghost predicate IsCut(all: seq<MessageId>, start: nat, limit: nat, ids: seq<MessageId>, next: Option<MessageId>) {
    && start <= |all|
    && (if 1 <= limit && start + limit <= |all|
        then ids == all[start..start + limit] && next == Some(all[start + limit - 1])
        else ids == all[start..] && next.None?)
  }

  /** The ids of the channel's messages. */
  ghost function Present(msg: MessageState, c: ChannelId): set<MessageId> {
    set id | id in msg.messages.vals && msg.messages.vals[id].channelId == c
  }

  lemma ChannelHasExactly(msg: MessageState, c: ChannelId)
    requires MessageInv(msg)
    ensures forall id :: id in Present(msg, c) <==> id in IdsOf(ChannelMessages(msg, c))
  {
    var all := ChannelMessages(msg, c);
    var ids := IdsOf(all);
    forall id
      ensures id in Present(msg, c) <==> id in ids
    {
      if id in Present(msg, c) {
        assert Indexed(msg.byClientId, msg.messages.vals[id], id);
        ChannelMembersAreStored(msg, c, msg.messages.vals[id]);
        var i :| 0 <= i < |all| && all[i] == msg.messages.vals[id];
        assert ids[i] == id;
      }
      if id in ids {
        var i :| 0 <= i < |ids| && ids[i] == id;
        ChannelMembersAreStored(msg, c, all[i]);
      }
    }
  }

  function StartOf(all: seq<Message>, cursor: Option<MessageId>): (start: nat)
    ensures start <= |all|
  {
    if cursor.Some? then StartAfter(all, cursor.value) else 0
  }

  /** Where the slice after a cursor of the channel begins. */
  lemma StartSplits(all: seq<Message>, cursor: Option<MessageId>)
    requires Ascending(all) && (cursor.Some? ==> cursor.value in IdsOf(all))
    ensures Increasing(IdsOf(all))
    ensures forall i :: 0 <= i < |all| ==> (i >= StartOf(all, cursor) <==> Beyond(IdsOf(all)[i], cursor))
  {
    if cursor.Some? {
      var i :| 0 <= i < |all| && all[i].id == cursor.value;
      assert all[i] in all;
      StartIsAbove(all, cursor.value);
    }
  }

  /** Cutting an increasing sequence from where the ids beyond the cursor begin. */
  lemma CutFits(all: seq<MessageId>, start: nat, r: Read, limit: nat)
    requires Increasing(all) && IsCut(all, start, limit, r.ids, r.next)
    requires forall i :: 0 <= i < |all| ==> (i >= start <==> Beyond(all[i], r.cursor))
    requires forall id :: id in r.present <==> id in all
    ensures PageFits(r)
  {
    forall id | id in r.present && Beyond(id, r.cursor) && UpTo(id, r.next)
      ensures id in r.ids
    {
      var i :| 0 <= i < |all| && all[i] == id;
      assert i < start + |r.ids|;
      assert r.ids[i - start] == id;
    }
  }

  lemma VisibleKeepsId(m: Message, now: nat)
    ensures Visible(m, now).id == m.id
  {
  }

  lemma VisibleKeepsIds(ms: seq<Message>, now: nat)
    ensures IdsOf(AllVisible(ms, now)) == IdsOf(ms)
  {
    forall i | 0 <= i < |ms|
      ensures IdsOf(AllVisible(ms, now))[i] == IdsOf(ms)[i]
    {
      VisibleKeepsId(ms[i], now);
    }
  }

  // ---------------------------------------------------------------- a walk over a changing channel

  datatype Snapshot = Snapshot(state: State, now: nat)

  function CursorAt(pages: seq<Page>, i: nat): Option<MessageId>
    requires i <= |pages|
  {
    if i == 0 then None else pages[i - 1].nextCursor
  }

  ghost predicate ReadsPage(snap: Snapshot, actor: UserId, c: ChannelId, cursor: Option<MessageId>, limit: nat, page: Page) {
    && snap.state.msg.messages.Valid() && CanAccessChannel(snap.state.ws, actor, c)
    && page == ListPage(snap.state, actor, c, cursor, limit, snap.now)
  }

  /** A client reads page after page, each at its own moment, each from the previous page's cursor; between two reads
      messages may be added and changed in any way, as long as none is lost, and the client keeps its access. */
  ghost predicate IsWalk(snaps: seq<Snapshot>, actor: UserId, c: ChannelId, limit: nat, pages: seq<Page>) {
    && |pages| == |snaps|
    && (forall i :: 0 <= i < |snaps| ==> MessageInv(snaps[i].state.msg))
    && (forall i {:trigger snaps[i]} :: 0 <= i < |snaps| ==> ReadsPage(snaps[i], actor, c, CursorAt(pages, i), limit, pages[i]))
    && (forall i :: 0 <= i < |pages| - 1 ==> pages[i].nextCursor.Some?)
    && (forall i, j :: 0 <= i < |snaps| && j == i + 1 && j < |snaps| ==> RowsPersist(snaps[i].state.msg.messages, snaps[j].state.msg.messages))
  }

  function CollectedIds(pages: seq<Page>): seq<MessageId> {
    if pages == [] then [] else CollectedIds(pages[..|pages| - 1]) + IdsOf(pages[|pages| - 1].items)
  }

  ghost function ReadOf(snap: Snapshot, c: ChannelId, cursor: Option<MessageId>, page: Page): Read {
    Read(Present(snap.state.msg, c), cursor, IdsOf(page.items), page.nextCursor)
  }

  /** A page that starts from nothing or from a message of the channel fits. */
  lemma PageOfWalk(snap: Snapshot, actor: UserId, c: ChannelId, cursor: Option<MessageId>, limit: nat, page: Page)
    requires limit >= 1 && MessageInv(snap.state.msg) && ReadsPage(snap, actor, c, cursor, limit, page)
    requires cursor.Some? ==> cursor.value in Present(snap.state.msg, c)
    ensures PageFits(ReadOf(snap, c, cursor, page))
  {
    hide ReadsPage, MessageInv, ChannelMessages, Present, StartOf, IsCut, PageFits, Increasing, Ascending;
    var all := ReadIsCut(snap, actor, c, cursor, limit, page);
    StartSplits(all, cursor);
    CutFits(IdsOf(all), StartOf(all, cursor), ReadOf(snap, c, cursor, page), limit);
  }

  lemma ReadIsCut(
      snap: Snapshot, actor: UserId, c: ChannelId, cursor: Option<MessageId>, limit: nat, page: Page) returns (all: seq<Message>)
    requires limit >= 1 && MessageInv(snap.state.msg) && ReadsPage(snap, actor, c, cursor, limit, page)
    ensures snap.state.msg.messages.Valid() && all == ChannelMessages(snap.state.msg, c) && Ascending(all)
    ensures forall id :: id in Present(snap.state.msg, c) <==> id in IdsOf(all)
    ensures cursor.Some? && cursor.value in Present(snap.state.msg, c) ==> cursor.value in IdsOf(all)
    ensures IsCut(IdsOf(all), StartOf(all, cursor), limit, IdsOf(page.items), page.nextCursor)
  {
    hide ListPage, CanAccessChannel, ChannelMessages, Present, StartOf, IsCut, Ascending, MessageInv;
    all := ChannelMessages(snap.state.msg, c);
    ChannelAscending(snap.state.msg, c);
    ChannelHasExactly(snap.state.msg, c);
    PageIsCut(snap.state, actor, c, cursor, limit, snap.now);
  }

  lemma PageIsCut(s: State, actor: UserId, c: ChannelId, cursor: Option<MessageId>, limit: nat, now: nat)
    requires limit >= 1 && s.msg.messages.Valid() && CanAccessChannel(s.ws, actor, c)
    ensures var all := ChannelMessages(s.msg, c);
      var page := ListPage(s, actor, c, cursor, limit, now);
      IsCut(IdsOf(all), StartOf(all, cursor), limit, IdsOf(page.items), page.nextCursor)
  {
    hide CanAccessChannel, ChannelMessages, Visible;
    VisibleKeepsIds(List(s.msg, c, cursor, limit), now);
  }

  lemma PersistsPresent(msg: MessageState, msg': MessageState, c: ChannelId)
    requires RowsPersist(msg.messages, msg'.messages)
    ensures Present(msg, c) <= Present(msg', c)
  {
    forall id | id in Present(msg, c)
      ensures id in Present(msg', c)
    {
      assert SameIdentity(msg.messages.vals[id], msg'.messages.vals[id]);
    }
  }

  /** Ids read so far, against the ids `first` present when the walk began: increasing, none beyond the cursor, and every
      first id up to the cursor has been collected. */
  ghost predicate CollectedFits(collected: seq<MessageId>, first: set<MessageId>, next: Option<MessageId>) {
    && Increasing(collected)
    && (forall id :: id in collected ==> UpTo(id, next))
    && (forall id :: id in first && UpTo(id, next) ==> id in collected)
  }

  lemma FirstFits(r: Read)
    requires PageFits(r) && r.cursor.None?
    ensures CollectedFits(r.ids, r.present, r.next)
  {
  }

  lemma AppendFits(collected: seq<MessageId>, first: set<MessageId>, r: Read)
    requires r.cursor.Some? && CollectedFits(collected, first, r.cursor) && PageFits(r) && first <= r.present
    ensures CollectedFits(collected + r.ids, first, r.next)
  {
    forall i, j | 0 <= i < |collected| && 0 <= j < |r.ids|
      ensures collected[i] < r.ids[j]
    {
      assert collected[i] in collected && r.ids[j] in r.ids;
    }
    forall id | id in collected
      ensures UpTo(id, r.next)
    {
      assert r.next.Some? ==> r.next.value in r.ids;
    }
    forall id | id in first && UpTo(id, r.next)
      ensures id in collected + r.ids
    {
      assert id <= r.cursor.value || Beyond(id, r.cursor);
    }
  }

  lemma {:induction false} WalkHolds(snaps: seq<Snapshot>, actor: UserId, c: ChannelId, limit: nat, pages: seq<Page>, k: nat)
    requires limit >= 1 && IsWalk(snaps, actor, c, limit, pages) && k < |pages|
    ensures Present(snaps[0].state.msg, c) <= Present(snaps[k].state.msg, c)
    ensures PageFits(ReadOf(snaps[k], c, CursorAt(pages, k), pages[k]))
    ensures CollectedFits(CollectedIds(pages[..k + 1]), Present(snaps[0].state.msg, c), pages[k].nextCursor)
  {
    hide ReadsPage, MessageInv, PageFits, CollectedFits, RowsPersist, Present;
    var cursor := CursorAt(pages, k);
    if k > 0 {
      WalkHolds(snaps, actor, c, limit, pages, k - 1);
      PersistsPresent(snaps[k - 1].state.msg, snaps[k].state.msg, c);
      NextIsPresent(ReadOf(snaps[k - 1], c, CursorAt(pages, k - 1), pages[k - 1]));
    }
    var r := ReadOf(snaps[k], c, cursor, pages[k]);
    PageOfWalk(snaps[k], actor, c, cursor, limit, pages[k]);
    CollectedStep(pages, k);
    if k == 0 {
      FirstFits(r);
    } else {
      AppendFits(CollectedIds(pages[..k]), Present(snaps[0].state.msg, c), r);
    }
  }

  lemma NextIsPresent(r: Read)
    requires PageFits(r)
    ensures r.next.Some? ==> r.next.value in r.present
  {
    assert r.next.Some? ==> r.next.value in r.ids;
  }

  lemma CollectedStep(pages: seq<Page>, k: nat)
    requires k < |pages|
    ensures CollectedIds(pages[..k + 1]) == CollectedIds(pages[..k]) + IdsOf(pages[k].items)
    ensures k == 0 ==> CollectedIds(pages[..k + 1]) == IdsOf(pages[k].items)
  {
    assert pages[..k + 1][..k] == pages[..k];
  }

  /** Paging while the channel changes: the collected ids strictly increase, so nothing is repeated; and once a page brings
      no cursor, every message that was in the channel when the walk began has been collected. */
  lemma {:induction false} WalkIsComplete(snaps: seq<Snapshot>, actor: UserId, c: ChannelId, limit: nat, pages: seq<Page>)
    requires limit >= 1 && IsWalk(snaps, actor, c, limit, pages) && pages != []
    ensures Increasing(CollectedIds(pages))
    ensures pages[|pages| - 1].nextCursor.None? ==> forall id :: id in Present(snaps[0].state.msg, c) ==> id in CollectedIds(pages)
  {
    hide ReadsPage, MessageInv, RowsPersist;
    WalkHolds(snaps, actor, c, limit, pages, |pages| - 1);
    assert pages[..|pages| - 1 + 1] == pages;
  }

  /** Any whole calls and halves of calls between the reads: each snapshot is an interleaving away from the one before it. */
  ghost predicate Interleaves(snaps: seq<Snapshot>, worlds: seq<World>, between: seq<seq<TimedMove>>) {
    && |snaps| == |worlds| == |between| + 1 && WorldInv(worlds[0])
    && (forall i :: 0 <= i < |snaps| ==> snaps[i].state == worlds[i].s)
    && (forall i, j :: 0 <= i < |between| && j == i + 1 ==> LeadsTo(worlds[i], snaps[i].now, between[i], worlds[j], snaps[j].now))
  }

  ghost predicate LeadsTo(before: World, start: nat, moves: seq<TimedMove>, after: World, now: nat) {
    Possible(before, start, moves) && after == After(before, moves) && ClockAfter(start, moves) <= now
  }

  lemma {:induction false} InterleavedUpTo(snaps: seq<Snapshot>, worlds: seq<World>, between: seq<seq<TimedMove>>, k: nat)
    requires Interleaves(snaps, worlds, between) && k < |snaps|
    ensures WorldInv(worlds[k])
    ensures k > 0 ==> RowsPersist(snaps[k - 1].state.msg.messages, snaps[k].state.msg.messages)
  {
    hide WorldInv, Possible, After, RowsPersist;
    if k > 0 {
      InterleavedUpTo(snaps, worlds, between, k - 1);
      assert LeadsTo(worlds[k - 1], snaps[k - 1].now, between[k - 1], worlds[k], snaps[k].now);
      AfterKeeps(worlds[k - 1], snaps[k - 1].now, between[k - 1]);
    }
  }

  /** Reading page after page while any calls, or halves of calls, happen in between is such a walk. */
  lemma {:induction false} ReadsDuringRunsAreAWalk(
      snaps: seq<Snapshot>, worlds: seq<World>, between: seq<seq<TimedMove>>, actor: UserId, c: ChannelId, limit: nat,
      pages: seq<Page>)
    requires Interleaves(snaps, worlds, between) && |pages| == |snaps|
    requires forall i :: 0 <= i < |pages| - 1 ==> pages[i].nextCursor.Some?
    requires forall i {:trigger snaps[i]} :: 0 <= i < |snaps| ==> ReadsPage(snaps[i], actor, c, CursorAt(pages, i), limit, pages[i])
    ensures IsWalk(snaps, actor, c, limit, pages)
  {
    hide CursorAt, ReadsPage, RowsPersist, WorldInv, MessageInv, LeadsTo;
    forall i | 0 <= i < |snaps|
      ensures MessageInv(snaps[i].state.msg)
    {
      InterleavedUpTo(snaps, worlds, between, i);
      WorldMessages(worlds[i]);
    }
    forall i, j | 0 <= i < |snaps| && j == i + 1 && j < |snaps|
      ensures RowsPersist(snaps[i].state.msg.messages, snaps[j].state.msg.messages)
    {
      InterleavedUpTo(snaps, worlds, between, j);
    }
  }

  // ---------------------------------------------------------------- a walk over an unchanged channel

  ghost predicate Unchanged(snaps: seq<Snapshot>, c: ChannelId, all: seq<Message>) {
    forall i :: 0 <= i < |snaps| ==> snaps[i].state.msg.messages.Valid() && ChannelMessages(snaps[i].state.msg, c) == all
  }

  lemma ReadFrom(
      snap: Snapshot, actor: UserId, c: ChannelId, cursor: Option<MessageId>, limit: nat, page: Page,
      all: seq<Message>, from: nat)
    requires limit >= 1 && MessageInv(snap.state.msg) && ReadsPage(snap, actor, c, cursor, limit, page)
    requires snap.state.msg.messages.Valid() && all == ChannelMessages(snap.state.msg, c)
    requires from <= |all| && (if cursor.Some? then from > 0 && cursor.value == IdsOf(all)[from - 1] else from == 0)
    ensures IsCut(IdsOf(all), from, limit, IdsOf(page.items), page.nextCursor)
  {
    hide ReadsPage, MessageInv, ChannelMessages, IsCut, Present;
    var _ := ReadIsCut(snap, actor, c, cursor, limit, page);
    if cursor.Some? {
      var start := StartAfter(all, cursor.value);
      assert all[from - 1] in all && start > 0 && all[start - 1].id == all[from - 1].id;
    }
  }

  /** How many messages `k` full pages hold: `k * limit`. */
  function FullPages(k: nat, limit: nat): nat {
    if k == 0 then 0 else FullPages(k - 1, limit) + limit
  }

  /** The number of pages `n` messages take: the last one, short or empty, tells the client to stop. */
  function PageCount(n: nat, limit: nat): (count: nat)
    requires limit >= 1
    ensures count >= 1
  {
    n / limit + 1
  }

  lemma {:induction false} FullPagesAre(k: nat, limit: nat)
    ensures FullPages(k, limit) == k * limit
  {
    if k > 0 {
      FullPagesAre(k - 1, limit);
    }
  }

  lemma TimesMonotone(a: nat, b: nat, limit: nat)
    requires a <= b
    ensures a * limit <= b * limit
  {
  }

  lemma FullPagesFit(n: nat, limit: nat, k: nat)
    requires limit >= 1
    ensures FullPages(k, limit) + limit <= n <==> k + 1 < PageCount(n, limit)
  {
    hide FullPages;
    FullPagesAre(k, limit);
    var quotient := n / limit;
    assert quotient * limit <= n < quotient * limit + limit;
    if k < quotient {
      TimesMonotone(k + 1, quotient, limit);
    } else {
      TimesMonotone(quotient, k, limit);
    }
  }

  lemma FullCut(all: seq<MessageId>, from: nat, limit: nat, ids: seq<MessageId>, next: Option<MessageId>)
    requires IsCut(all, from, limit, ids, next) && next.Some?
    ensures limit >= 1 && from + limit <= |all| && next.value == all[from + limit - 1]
  {
  }

  lemma CutExtends(all: seq<MessageId>, from: nat, limit: nat, ids: seq<MessageId>, next: Option<MessageId>)
    requires limit >= 1 && IsCut(all, from, limit, ids, next)
    ensures from <= |all| && all[..from] + ids == all[..Min(from + limit, |all|)]
    ensures from == 0 ==> ids == all[..Min(limit, |all|)]
  {
  }

  lemma WalkAt(snaps: seq<Snapshot>, actor: UserId, c: ChannelId, limit: nat, pages: seq<Page>, k: nat)
    requires IsWalk(snaps, actor, c, limit, pages) && k < |pages|
    ensures |pages| == |snaps| && MessageInv(snaps[k].state.msg)
    ensures ReadsPage(snaps[k], actor, c, CursorAt(pages, k), limit, pages[k])
    ensures k > 0 ==> pages[k - 1].nextCursor.Some?
  {
    hide CursorAt, ReadsPage, MessageInv, RowsPersist;
    assert snaps[k] == snaps[k];
  }

  lemma UnchangedAt(snaps: seq<Snapshot>, c: ChannelId, all: seq<Message>, k: nat)
    requires Unchanged(snaps, c, all) && k < |snaps|
    ensures snaps[k].state.msg.messages.Valid() && ChannelMessages(snaps[k].state.msg, c) == all
  {
    hide ChannelMessages;
  }

  /** Every page before page `k` was full; with page `k`, that many ids and one page more have been collected, in order. */
  lemma {:induction false} UnchangedWalk(
      snaps: seq<Snapshot>, actor: UserId, c: ChannelId, limit: nat, pages: seq<Page>, all: seq<Message>,
      k: nat)
    requires limit >= 1 && IsWalk(snaps, actor, c, limit, pages) && Unchanged(snaps, c, all) && k < |pages|
    ensures IsCut(IdsOf(all), FullPages(k, limit), limit, IdsOf(pages[k].items), pages[k].nextCursor)
    ensures CollectedIds(pages[..k + 1]) == IdsOf(all)[..Min(FullPages(k, limit) + limit, |all|)]
    decreases k
  {
    hide IsWalk, Unchanged, ReadsPage, MessageInv, ChannelMessages, RowsPersist, IsCut, CollectedIds;
    WalkAt(snaps, actor, c, limit, pages, k);
    UnchangedAt(snaps, c, all, k);
    var from := FullPages(k, limit);
    if k > 0 {
      UnchangedWalk(snaps, actor, c, limit, pages, all, k - 1);
      FullCut(IdsOf(all), from - limit, limit, IdsOf(pages[k - 1].items), pages[k - 1].nextCursor);
    }
    ReadFrom(snaps[k], actor, c, CursorAt(pages, k), limit, pages[k], all, from);
    CollectedStep(pages, k);
    CutExtends(IdsOf(all), from, limit, IdsOf(pages[k].items), pages[k].nextCursor);
  }

  /** Paging through an unchanged channel of `n` messages takes at most `floor(n / limit) + 1` pages, ends with exactly that many,
      and has then collected exactly the channel's ids, in order. */
  lemma {:induction false} UnchangedWalkIsExact(
      snaps: seq<Snapshot>, actor: UserId, c: ChannelId, limit: nat, pages: seq<Page>, all: seq<Message>)
    requires limit >= 1 && IsWalk(snaps, actor, c, limit, pages) && Unchanged(snaps, c, all) && pages != []
    ensures |pages| <= PageCount(|all|, limit)
    ensures pages[|pages| - 1].nextCursor.None? <==> |pages| == PageCount(|all|, limit)
    ensures pages[|pages| - 1].nextCursor.None? ==> CollectedIds(pages) == IdsOf(all)
  {
    hide *;
    var k := |pages| - 1;
    UnchangedWalk(snaps, actor, c, limit, pages, all, k);
    assert pages[..k + 1] == pages;
    CutEnds(IdsOf(all), FullPages(k, limit), limit, IdsOf(pages[k].items), pages[k].nextCursor);
    FullPagesFit(|all|, limit, k);
    if k > 0 {
      FullBefore(snaps, actor, c, limit, pages, all, k - 1);
      FullPagesFit(|all|, limit, k - 1);
    }
  }

  lemma CutEnds(all: seq<MessageId>, from: nat, limit: nat, ids: seq<MessageId>, next: Option<MessageId>)
    requires limit >= 1 && IsCut(all, from, limit, ids, next)
    ensures next.None? <==> |all| < from + limit
    ensures next.None? ==> all[..Min(from + limit, |all|)] == all
  {
  }

  lemma FullBefore(
      snaps: seq<Snapshot>, actor: UserId, c: ChannelId, limit: nat, pages: seq<Page>, all: seq<Message>,
      k: nat)
    requires limit >= 1 && IsWalk(snaps, actor, c, limit, pages) && Unchanged(snaps, c, all) && k < |pages| - 1
    ensures FullPages(k, limit) + limit <= |all|
  {
    hide ReadsPage, MessageInv, Unchanged, CollectedIds, FullPages, ChannelMessages, RowsPersist;
    UnchangedWalk(snaps, actor, c, limit, pages, all, k);
  }
}
