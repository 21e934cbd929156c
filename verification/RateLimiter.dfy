/**
 The fixed-window WebSocket rate limiter.  The gateway's header calls it a sliding window; the proofs
 below say how far from one it can get, and for which settings it is one.
 */
module RateLimiter {
  import opened Ids

  datatype Config = Config(windowMs: nat, maxEvents: nat)
  datatype Bucket = Bucket(count: nat, resetAt: nat)
  type Buckets = map<UserId, Bucket>
  datatype Event = Event(user: UserId, time: nat)

  /** The bucket of `user` after an event at `now`: the running one, or a new one when it has run out. */
  function Bump(cfg: Config, buckets: Buckets, user: UserId, now: nat): Bucket {
    if user in buckets && buckets[user].resetAt > now
    then buckets[user].(count := buckets[user].count + 1)
    else Bucket(1, now + cfg.windowMs)
  }

  /** `createWsRateLimiter`. */
  class WsRateLimiter {
    const cfg: Config
    var buckets: Buckets

    constructor (cfg: Config)
      ensures this.cfg == cfg && buckets == map[]
    {
      this.cfg := cfg;
      buckets := map[];
    }

    method Check(user: UserId, now: nat) returns (accepted: bool)
      modifies this
      ensures buckets == old(buckets)[user := Bump(cfg, old(buckets), user, now)]
      ensures accepted <==> buckets[user].count <= cfg.maxEvents
    {
      var bucket := Bucket(0, now + cfg.windowMs);
      if user in buckets && buckets[user].resetAt > now {
        bucket := buckets[user];
      }
      bucket := bucket.(count := bucket.count + 1);
      buckets := buckets[user := bucket];
      accepted := !(bucket.count > cfg.maxEvents);
    }

    method Reset()
      modifies this
      ensures buckets == map[]
    {
      buckets := map[];
    }
  }

  /** The buckets after a whole trace of checks. */
  function After(cfg: Config, trace: seq<Event>): Buckets {
    if trace == [] then map[]
    else
      var before := After(cfg, trace[..|trace| - 1]);
      var e := trace[|trace| - 1];
      before[e.user := Bump(cfg, before, e.user, e.time)]
  }

  /** Whether the last event of a trace was let through. */
  predicate LastAccepted(cfg: Config, trace: seq<Event>)
    requires trace != []
  {
    After(cfg, trace)[trace[|trace| - 1].user].count <= cfg.maxEvents
  }

  /** The number of `user`'s events with `from <= time < to` that were let through. */
  function Accepted(cfg: Config, trace: seq<Event>, user: UserId, from: nat, to: nat): nat {
    if trace == [] then 0
    else
      var e := trace[|trace| - 1];
      Accepted(cfg, trace[..|trace| - 1], user, from, to)
      + if e.user == user && from <= e.time < to && LastAccepted(cfg, trace) then 1 else 0
  }

  /** The user's accepted events in the window of length `windowMs` that starts at `from`. */
  function InWindow(cfg: Config, trace: seq<Event>, user: UserId, from: nat): nat {
    Accepted(cfg, trace, user, from, from + cfg.windowMs)
  }

  ghost predicate Nondecreasing(trace: seq<Event>) {
    forall i, j :: 0 <= i < j < |trace| ==> trace[i].time <= trace[j].time
  }

  /** The largest number of accepted events that any window of length `windowMs` can hold. */
  function Worst(cfg: Config): nat {
    if cfg.maxEvents == 0 || cfg.windowMs == 0 then 0
    else if cfg.windowMs == 1 then cfg.maxEvents
    else 2 * cfg.maxEvents - 1
  }

  /** The part of a bucket's count that was let through. */
  function Passed(cfg: Config, b: Bucket): nat {
    if b.count <= cfg.maxEvents then b.count else cfg.maxEvents
  }

  /** What the current bucket says about the acceptances in the window that starts at `from`. */
  ghost predicate WindowInv(cfg: Config, trace: seq<Event>, user: UserId, from: nat) {
    var n := Accepted(cfg, trace, user, from, from + cfg.windowMs);
    var b := After(cfg, trace);
    && (trace != [] && trace[|trace| - 1].time < from ==> n == 0)
    && (user !in b ==> n == 0)
    && (user in b ==>
          && b[user].count >= 1
          && b[user].resetAt >= cfg.windowMs
          && trace != []
          && b[user].resetAt <= trace[|trace| - 1].time + cfg.windowMs
          && (b[user].resetAt <= from ==> n == 0)
          && (b[user].resetAt - cfg.windowMs < from ==> n == 0 || n + 1 <= Passed(cfg, b[user]))
          && (b[user].resetAt - cfg.windowMs >= from && cfg.windowMs > 1 ==>
                n <= Passed(cfg, b[user]) + if cfg.maxEvents == 0 then 0 else cfg.maxEvents - 1)
          && (b[user].resetAt - cfg.windowMs >= from && cfg.windowMs <= 1 ==> n <= Passed(cfg, b[user])))
  }

  lemma {:induction false} WindowInvHolds(cfg: Config, trace: seq<Event>, user: UserId, from: nat)
    requires Nondecreasing(trace) && cfg.windowMs > 0
    requires trace != [] ==> trace[|trace| - 1].time < from + cfg.windowMs
    ensures WindowInv(cfg, trace, user, from)
  {
    if trace != [] {
      var n := |trace| - 1;
      var prefix := trace[..n];
      assert forall i :: 0 <= i < n ==> prefix[i] == trace[i];
      if n > 0 {
        assert trace[n - 1].time <= trace[n].time;
        assert prefix[|prefix| - 1] == trace[n - 1];
      }
      WindowInvHolds(cfg, prefix, user, from);
    }
  }

  /** Events after the window's end add nothing to it. */
  lemma {:induction false} AcceptedBeyond(cfg: Config, trace: seq<Event>, user: UserId, from: nat) returns (k: nat)
    requires Nondecreasing(trace)
    ensures k <= |trace| && (k > 0 ==> trace[k - 1].time < from + cfg.windowMs)
    ensures InWindow(cfg, trace, user, from) == InWindow(cfg, trace[..k], user, from)
  {
    if trace == [] || trace[|trace| - 1].time < from + cfg.windowMs {
      k := |trace|;
      assert trace[..k] == trace;
    } else {
      var prefix := trace[..|trace| - 1];
      assert forall i :: 0 <= i < |prefix| ==> prefix[i] == trace[i];
      k := AcceptedBeyond(cfg, prefix, user, from);
      assert prefix[..k] == trace[..k];
    }
  }

  /** Over every trace with a clock that never goes back, no window of length `windowMs` holds more
      than `Worst(cfg)` of a user's accepted events: at most 2 * maxEvents - 1. */
  lemma WindowBound(cfg: Config, trace: seq<Event>, user: UserId, from: nat)
    requires Nondecreasing(trace)
    ensures InWindow(cfg, trace, user, from) <= Worst(cfg)
  {
    var k := AcceptedBeyond(cfg, trace, user, from);
    if cfg.windowMs == 0 {
      EmptyWindow(cfg, trace, user, from);
    } else {
      WindowInvHolds(cfg, trace[..k], user, from);
    }
  }

  lemma {:induction false} EmptyWindow(cfg: Config, trace: seq<Event>, user: UserId, from: nat)
    ensures Accepted(cfg, trace, user, from, from) == 0
  {
    if trace != [] {
      EmptyWindow(cfg, trace[..|trace| - 1], user, from);
    }
  }

  function Repeat(e: Event, n: nat): (r: seq<Event>)
    ensures |r| == n && forall i :: 0 <= i < n ==> r[i] == e
  {
    if n == 0 then [] else Repeat(e, n - 1) + [e]
  }

  lemma AppendEvent(cfg: Config, trace: seq<Event>, e: Event, user: UserId, from: nat, to: nat)
    ensures After(cfg, trace + [e]) == After(cfg, trace)[e.user := Bump(cfg, After(cfg, trace), e.user, e.time)]
    ensures Accepted(cfg, trace + [e], user, from, to) == Accepted(cfg, trace, user, from, to)
      + if e.user == user && from <= e.time < to && Bump(cfg, After(cfg, trace), user, e.time).count <= cfg.maxEvents then 1 else 0
  {
    var t := trace + [e];
    assert t[..|t| - 1] == trace && t[|t| - 1] == e;
  }

  /** `n` more events at one instant inside a running bucket: each is counted, and let through up to the limit. */
  lemma {:induction false} RepeatInBucket(cfg: Config, trace: seq<Event>, e: Event, b: Bucket, n: nat, from: nat, to: nat)
    requires e.user in After(cfg, trace) && After(cfg, trace)[e.user] == b
    requires from <= e.time < to && b.resetAt > e.time && b.count + n <= cfg.maxEvents
    ensures e.user in After(cfg, trace + Repeat(e, n))
    ensures After(cfg, trace + Repeat(e, n))[e.user] == Bucket(b.count + n, b.resetAt)
    ensures Accepted(cfg, trace + Repeat(e, n), e.user, from, to) == Accepted(cfg, trace, e.user, from, to) + n
  {
    if n == 0 {
      assert trace + Repeat(e, 0) == trace;
    } else {
      RepeatInBucket(cfg, trace, e, b, n - 1, from, to);
      AppendEvent(cfg, trace + Repeat(e, n - 1), e, e.user, from, to);
      assert trace + Repeat(e, n) == trace + Repeat(e, n - 1) + [e];
    }
  }

  /** A trace that puts `Worst(cfg)` acceptances into the window that starts at time 1. */
  function Burst(cfg: Config, user: UserId): seq<Event>
    requires cfg.maxEvents >= 1 && cfg.windowMs >= 1
  {
    if cfg.windowMs == 1 then [Event(user, 1)] + Repeat(Event(user, 1), cfg.maxEvents - 1)
    else
      [Event(user, 0)] + Repeat(Event(user, cfg.windowMs - 1), cfg.maxEvents - 1)
      + ([Event(user, cfg.windowMs)] + Repeat(Event(user, cfg.windowMs), cfg.maxEvents - 1))
  }

  lemma OpeningEvent(cfg: Config, trace: seq<Event>, e: Event, from: nat, to: nat)
    requires e.user in After(cfg, trace) ==> After(cfg, trace)[e.user].resetAt <= e.time
    ensures After(cfg, trace + [e]) == After(cfg, trace)[e.user := Bucket(1, e.time + cfg.windowMs)]
    ensures Accepted(cfg, trace + [e], e.user, from, to) ==
      Accepted(cfg, trace, e.user, from, to) + if from <= e.time < to && cfg.maxEvents >= 1 then 1 else 0
  {
    AppendEvent(cfg, trace, e, e.user, from, to);
  }

  /** A bucket that opens at `e` and takes `n` further events at `e2.time`. */
  lemma OpenAndFill(cfg: Config, trace: seq<Event>, e: Event, e2: Event, n: nat, from: nat, to: nat)
    requires e.user in After(cfg, trace) ==> After(cfg, trace)[e.user].resetAt <= e.time
    requires e2.user == e.user && e2.time < e.time + cfg.windowMs && n + 1 <= cfg.maxEvents
    requires from <= e2.time < to
    ensures var t := trace + [e] + Repeat(e2, n);
      && e.user in After(cfg, t)
      && After(cfg, t)[e.user].resetAt == e.time + cfg.windowMs
      && Accepted(cfg, t, e.user, from, to) == Accepted(cfg, trace, e.user, from, to) + n + if from <= e.time < to then 1 else 0
  {
    OpeningEvent(cfg, trace, e, from, to);
    RepeatInBucket(cfg, trace + [e], e2, Bucket(1, e.time + cfg.windowMs), n, from, to);
  }

  lemma BurstIsOrdered(cfg: Config, user: UserId)
    requires cfg.maxEvents >= 1 && cfg.windowMs >= 1
    ensures Nondecreasing(Burst(cfg, user))
  {
    if cfg.windowMs > 1 {
      var early := [Event(user, 0)] + Repeat(Event(user, cfg.windowMs - 1), cfg.maxEvents - 1);
      var late := [Event(user, cfg.windowMs)] + Repeat(Event(user, cfg.windowMs), cfg.maxEvents - 1);
      assert forall i :: 0 <= i < |early| ==> early[i].time <= cfg.windowMs - 1;
      assert forall i :: 0 <= i < |late| ==> late[i].time == cfg.windowMs;
    }
  }

  /** Two buckets back to back: the first opens before the window and fills late, the second fills at once. */
  lemma TwoBuckets(cfg: Config, user: UserId, t1: seq<Event>)
    requires cfg.maxEvents >= 1 && cfg.windowMs > 1
    requires t1 == [Event(user, 0)] + Repeat(Event(user, cfg.windowMs - 1), cfg.maxEvents - 1)
    ensures user in After(cfg, t1) && After(cfg, t1)[user].resetAt == cfg.windowMs
    ensures Accepted(cfg, t1, user, 1, 1 + cfg.windowMs) == cfg.maxEvents - 1
  {
    var first, late := Event(user, 0), Event(user, cfg.windowMs - 1);
    OpenAndFill(cfg, [], first, late, cfg.maxEvents - 1, 1, 1 + cfg.windowMs);
    assert [] + [first] + Repeat(late, cfg.maxEvents - 1) == t1;
  }

  lemma NothingYet(cfg: Config, user: UserId)
    ensures After(cfg, []) == map[] && forall from: nat, to: nat :: Accepted(cfg, [], user, from, to) == 0
  {
  }

  /** The bound is attained, so it is the best one. */
  lemma WindowBoundIsTight(cfg: Config, user: UserId)
    requires cfg.maxEvents >= 1 && cfg.windowMs >= 1
    ensures Nondecreasing(Burst(cfg, user))
    ensures InWindow(cfg, Burst(cfg, user), user, 1) == Worst(cfg)
  {
    hide Accepted, After, Nondecreasing;
    var m := cfg.maxEvents - 1;
    NothingYet(cfg, user);
    BurstIsOrdered(cfg, user);
    if cfg.windowMs == 1 {
      var e := Event(user, 1);
      OpenAndFill(cfg, [], e, e, m, 1, 1 + cfg.windowMs);
      assert [] + [e] + Repeat(e, m) == Burst(cfg, user);
    } else {
      var t1 := [Event(user, 0)] + Repeat(Event(user, cfg.windowMs - 1), m);
      var next := Event(user, cfg.windowMs);
      TwoBuckets(cfg, user, t1);
      OpenAndFill(cfg, t1, next, next, m, 1, 1 + cfg.windowMs);
      assert t1 + [next] + Repeat(next, m) == Burst(cfg, user);
    }
  }

  ghost predicate SlidingWindow(cfg: Config) {
    forall trace: seq<Event>, user: UserId, from: nat ::
      Nondecreasing(trace) ==> InWindow(cfg, trace, user, from) <= cfg.maxEvents
  }

  /** The limiter is a sliding window exactly when the limit is at most one event or the window is at
      most one millisecond; the shipped setting (50 events, 10 seconds) is not. */
  lemma SlidingWindowIff(cfg: Config)
    ensures SlidingWindow(cfg) <==> cfg.windowMs <= 1 || cfg.maxEvents <= 1
  {
    if cfg.windowMs <= 1 || cfg.maxEvents <= 1 {
      forall trace: seq<Event>, user: UserId, from: nat | Nondecreasing(trace)
        ensures InWindow(cfg, trace, user, from) <= cfg.maxEvents
      {
        WindowBound(cfg, trace, user, from);
      }
    } else {
      WindowBoundIsTight(cfg, "u");
      assert InWindow(cfg, Burst(cfg, "u"), "u", 1) > cfg.maxEvents;
    }
  }

  function OnlyOf(trace: seq<Event>, user: UserId): seq<Event> {
    if trace == [] then []
    else
      OnlyOf(trace[..|trace| - 1], user)
      + if trace[|trace| - 1].user == user then [trace[|trace| - 1]] else []
  }

  /** A user's bucket, and so every decision about the user, is what it would be if no one else had sent anything. */
  lemma {:induction false} UsersAreIndependent(cfg: Config, trace: seq<Event>, user: UserId)
    ensures user in After(cfg, trace) <==> user in After(cfg, OnlyOf(trace, user))
    ensures user in After(cfg, trace) ==> After(cfg, trace)[user] == After(cfg, OnlyOf(trace, user))[user]
    ensures trace != [] && trace[|trace| - 1].user == user ==>
      OnlyOf(trace, user) != [] && (LastAccepted(cfg, trace) <==> LastAccepted(cfg, OnlyOf(trace, user)))
    ensures forall from: nat, to: nat :: Accepted(cfg, trace, user, from, to) == Accepted(cfg, OnlyOf(trace, user), user, from, to)
  {
    if trace != [] {
      var prefix := trace[..|trace| - 1];
      UsersAreIndependent(cfg, prefix, user);
      if trace[|trace| - 1].user == user {
        var mine := OnlyOf(trace, user);
        assert mine[..|mine| - 1] == OnlyOf(prefix, user);
        assert mine[|mine| - 1] == trace[|trace| - 1];
      } else {
        assert OnlyOf(trace, user) == OnlyOf(prefix, user);
      }
    }
  }

  /** Events before the end of a running bucket do not move that end. */
  lemma {:induction false} ResetStays(cfg: Config, trace: seq<Event>, more: seq<Event>, user: UserId)
    requires user in After(cfg, trace)
    requires forall e :: e in more ==> e.time < After(cfg, trace)[user].resetAt
    ensures user in After(cfg, trace + more)
    ensures After(cfg, trace + more)[user].resetAt == After(cfg, trace)[user].resetAt
  {
    if more == [] {
      assert trace + more == trace;
    } else {
      var n := |more| - 1;
      assert more == more[..n] + [more[n]];
      ResetStays(cfg, trace, more[..n], user);
      AppendEvent(cfg, trace + more[..n], more[n], user, 0, 0);
      assert trace + more == trace + more[..n] + [more[n]];
    }
  }

  /** Once a bucket runs, no number of further events before its end, rejected or not, moves its end; the
      next event at or after that end is let through. */
  lemma {:induction false} RejectedNeverPostpone(cfg: Config, trace: seq<Event>, more: seq<Event>, user: UserId)
    requires user in After(cfg, trace) && cfg.maxEvents >= 1
    requires forall e :: e in more ==> e.time < After(cfg, trace)[user].resetAt
    ensures user in After(cfg, trace + more)
    ensures After(cfg, trace + more)[user].resetAt == After(cfg, trace)[user].resetAt
    ensures forall t: nat :: t >= After(cfg, trace)[user].resetAt ==> LastAccepted(cfg, trace + more + [Event(user, t)])
  {
    hide After;
    ResetStays(cfg, trace, more, user);
    forall t: nat | t >= After(cfg, trace)[user].resetAt
      ensures LastAccepted(cfg, trace + more + [Event(user, t)])
    {
      OpeningEvent(cfg, trace + more, Event(user, t), 0, 0);
    }
  }

  // ---------------------------------------------------------------- no one is refused early

  /** A running bucket's window holds at least what the bucket has let through. */
  lemma {:induction false} BucketIsFilled(cfg: Config, trace: seq<Event>, user: UserId)
    requires Nondecreasing(trace) && user in After(cfg, trace)
    ensures var b := After(cfg, trace)[user];
      && b.resetAt >= cfg.windowMs && trace != [] && b.resetAt <= trace[|trace| - 1].time + cfg.windowMs
      && (cfg.windowMs > 0 ==> InWindow(cfg, trace, user, b.resetAt - cfg.windowMs) >= Passed(cfg, b))
  {
    var n := |trace| - 1;
    var prefix, e := trace[..n], trace[n];
    assert trace == prefix + [e];
    if user in After(cfg, prefix) {
      BucketIsFilled(cfg, prefix, user);
      assert trace[n - 1].time <= trace[n].time;
    }
    var b := After(cfg, trace)[user];
    if b.resetAt >= cfg.windowMs {
      AppendEvent(cfg, prefix, e, user, b.resetAt - cfg.windowMs, b.resetAt);
    }
  }

  /** With a limit of at least one, a user's event is refused only when the limiter has let through `maxEvents` of the user's
      events in a window of length `windowMs` that the event falls into. */
  lemma {:induction false} RefusedOnlyWhenFull(cfg: Config, trace: seq<Event>) returns (from: nat)
    requires Nondecreasing(trace) && trace != [] && !LastAccepted(cfg, trace)
    ensures var e := trace[|trace| - 1];
      cfg.maxEvents == 0 || (from <= e.time < from + cfg.windowMs && InWindow(cfg, trace, e.user, from) >= cfg.maxEvents)
  {
    var prefix, e := trace[..|trace| - 1], trace[|trace| - 1];
    BucketIsFilled(cfg, trace, e.user);
    if cfg.windowMs == 0 && e.user in After(cfg, prefix) {
      assert forall i :: 0 <= i < |prefix| ==> prefix[i] == trace[i];
      BucketIsFilled(cfg, prefix, e.user);
    }
    from := After(cfg, trace)[e.user].resetAt - cfg.windowMs;
  }
}
