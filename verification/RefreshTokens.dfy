/**
 Refresh-token rotation over the in-memory session store.

 The code between two `await`s runs without interruption, so a call to `refresh` is four atomic
 segments: fetch the session object, decide and revoke, look the user up, issue the new session.
 Segments of different calls interleave freely.
 */
module RefreshTokens {
  import opened Ids

  type Token = int
  type CallId = nat

  /** Seven days, in milliseconds. */
  const LIFETIME: nat := 7 * 24 * 60 * 60 * 1000

  /** Stands for SHA-256; only that it is a function of the token is used. */
  function TokenHash(token: Token): int {
    token
  }

  // ---------------------------------------------------------------- the store and the service

  class RefreshSession {
    const userId: UserId
    const tokenHash: int
    const expiresAt: nat
    var revoked: bool

    constructor (userId: UserId, tokenHash: int, expiresAt: nat)
      ensures this.userId == userId && this.tokenHash == tokenHash && this.expiresAt == expiresAt && !revoked
    {
      this.userId := userId;
      this.tokenHash := tokenHash;
      this.expiresAt := expiresAt;
      revoked := false;
    }
  }

  datatype Verdict = Rotate(user: UserId) | Replay

  /** `refreshSessionStore` (in memory) with the segments of `authService` that touch it. */
  class AuthService {
    var sessions: map<Token, RefreshSession>

    ghost predicate Valid()
      reads this, sessions.Values
    {
      && (forall t, u :: t in sessions && u in sessions && t != u ==> sessions[t] != sessions[u])
      && (forall t :: t in sessions ==> sessions[t].tokenHash == TokenHash(t))
    }

    ghost function View(): map<Token, Session>
      reads this, sessions.Values
    {
      map t | t in sessions :: Session(sessions[t].userId, sessions[t].expiresAt, sessions[t].revoked)
    }

    constructor ()
      ensures Valid() && View() == map[]
    {
      sessions := map[];
    }

    /** The first segment of `refresh`: the caller keeps the object itself, not a copy. */
    method Fetch(token: Token) returns (session: RefreshSession?)
      ensures session == if token in sessions then sessions[token] else null
    {
      session := if token in sessions then sessions[token] else null;
    }

    method Revoke(token: Token)
      requires Valid()
      modifies if token in sessions then {sessions[token]} else {}
      ensures Valid()
      ensures View() == Revoked(old(View()), token)
    {
      if token in sessions {
        sessions[token].revoked := true;
        assert forall t :: t in sessions && t != token ==> sessions[t].revoked == old(sessions[t].revoked);
      }
      assert View().Keys == old(View()).Keys;
    }

    /** The second segment of `refresh`, on the object fetched earlier. */
    method Decide(token: Token, session: RefreshSession?, now: nat) returns (verdict: Verdict)
      requires Valid()
      requires session != null ==> token in sessions && sessions[token] == session
      modifies if token in sessions then {sessions[token]} else {}
      ensures Valid()
      ensures View() == if session == null then old(View()) else Revoked(old(View()), token)
      ensures verdict == if session != null && Redeemable(old(View()), token, now) then Rotate(session.userId) else Replay
      ensures verdict.Rotate? <==> session != null && !old(session.revoked) && now <= session.expiresAt
    {
      if session == null || session.revoked || session.expiresAt < now || session.tokenHash != TokenHash(token) {
        if session != null {
          Revoke(token);
        }
        return Replay;
      }
      Revoke(token);
      return Rotate(session.userId);
    }

    /** `createSession`, for a fresh token: no stored object is ever replaced. */
    method CreateSession(token: Token, user: UserId, now: nat)
      requires Valid() && token !in sessions
      modifies this
      ensures Valid()
      ensures View() == old(View())[token := Session(user, now + LIFETIME, false)]
      ensures forall t :: t in old(sessions) ==> t in sessions && sessions[t] == old(sessions)[t]
    {
      var session := new RefreshSession(user, TokenHash(token), now + LIFETIME);
      sessions := sessions[token := session];
    }

    method Logout(token: Token)
      requires Valid()
      modifies if token in sessions then {sessions[token]} else {}
      ensures Valid()
      ensures View() == Revoked(old(View()), token)
    {
      Revoke(token);
    }
  }

  // ---------------------------------------------------------------- the interleaved protocol

  datatype Session = Session(user: UserId, expiresAt: nat, revoked: bool)

  function Revoked(sessions: map<Token, Session>, token: Token): map<Token, Session> {
    if token in sessions then sessions[token := sessions[token].(revoked := true)] else sessions
  }

  predicate Redeemable(sessions: map<Token, Session>, token: Token, now: nat) {
    token in sessions && !sessions[token].revoked && now <= sessions[token].expiresAt
  }

  /** Where a `refresh` call is waiting. */
  datatype Phase =
    | Fetched(token: Token, found: bool)
    | Rotating(user: UserId)
    | Issuing(user: UserId)

  /** `redeemed` and `logins` record, in order, the tokens that were exchanged and the number of
      sessions created by registrations and logins. */
  datatype State = State(
    sessions: map<Token, Session>,
    calls: map<CallId, Phase>,
    redeemed: seq<Token>,
    logins: nat)

  datatype Step =
    | StartRefresh(call: CallId, token: Token)
    | DecideRefresh(call: CallId, now: nat)
    | FindUser(call: CallId, exists_: bool)
    | Issue(call: CallId, newToken: Token, now: nat)
    | LoginOrRegister(newToken: Token, user: UserId, now: nat)
    | LogoutStep(token: Token)

  predicate Enabled(s: State, step: Step) {
    match step
    case StartRefresh(call, _) => call !in s.calls
    case DecideRefresh(call, _) => call in s.calls && s.calls[call].Fetched?
    case FindUser(call, _) => call in s.calls && s.calls[call].Rotating?
    case Issue(call, newToken, _) => call in s.calls && s.calls[call].Issuing? && newToken !in s.sessions
    case LoginOrRegister(newToken, _, _) => newToken !in s.sessions
    case LogoutStep(_) => true
  }

  function Next(s: State, step: Step): State
    requires Enabled(s, step)
  {
    match step
    case StartRefresh(call, token) =>
      s.(calls := s.calls[call := Fetched(token, token in s.sessions)])
    case DecideRefresh(call, now) =>
      var Fetched(token, found) := s.calls[call];
      if found && Redeemable(s.sessions, token, now) then
        s.(sessions := Revoked(s.sessions, token),
           calls := s.calls[call := Rotating(s.sessions[token].user)],
           redeemed := s.redeemed + [token])
      else
        s.(sessions := if found then Revoked(s.sessions, token) else s.sessions, calls := s.calls - {call})
    case FindUser(call, exists_) =>
      if exists_ then s.(calls := s.calls[call := Issuing(s.calls[call].user)]) else s.(calls := s.calls - {call})
    case Issue(call, newToken, now) =>
      s.(sessions := s.sessions[newToken := Session(s.calls[call].user, now + LIFETIME, false)], calls := s.calls - {call})
    case LoginOrRegister(newToken, user, now) =>
      s.(sessions := s.sessions[newToken := Session(user, now + LIFETIME, false)], logins := s.logins + 1)
    case LogoutStep(token) =>
      s.(sessions := Revoked(s.sessions, token))
  }

  ghost predicate Legal(s: State, run: seq<Step>)
    decreases |run|
  {
    run == [] || (Enabled(s, run[0]) && Legal(Next(s, run[0]), run[1..]))
  }

  ghost function Run(s: State, run: seq<Step>): State
    requires Legal(s, run)
    decreases |run|
  {
    if run == [] then s else Run(Next(s, run[0]), run[1..])
  }

  const Init := State(map[], map[], [], 0)

  ghost function Live(s: State): set<Token> {
    set t | t in s.sessions && !s.sessions[t].revoked
  }

  ghost function InFlight(s: State): set<CallId> {
    set c | c in s.calls && !s.calls[c].Fetched?
  }

  ghost predicate Inv(s: State) {
    && (forall i, j :: 0 <= i < j < |s.redeemed| ==> s.redeemed[i] != s.redeemed[j])
    && (forall t :: t in s.redeemed ==> t in s.sessions && s.sessions[t].revoked)
    && (forall c :: c in s.calls && s.calls[c].Fetched? && s.calls[c].found ==> s.calls[c].token in s.sessions)
    && |Live(s)| + |InFlight(s)| <= s.logins
  }

  lemma LiveRevoked(s: State, s': State, token: Token)
    requires s'.sessions == Revoked(s.sessions, token)
    ensures Live(s') == Live(s) - {token}
  {
  }

  /** How one step moves the two populations: nothing ever adds to their sum but a login. */
  lemma StepCounts(s: State, step: Step)
    requires Enabled(s, step)
    ensures var s' := Next(s, step);
      |Live(s')| + |InFlight(s')| + s.logins <= |Live(s)| + |InFlight(s)| + s'.logins
  {
    hide Next;
    match step
    case StartRefresh(call, token) => StartCounts(s, call, token);
    case DecideRefresh(call, now) => DecideCounts(s, call, now);
    case FindUser(call, exists_) => FindUserCounts(s, call, exists_);
    case Issue(call, newToken, now) => IssueCounts(s, call, newToken, now);
    case LoginOrRegister(newToken, user, now) => LoginCounts(s, newToken, user, now);
    case LogoutStep(token) => LogoutCounts(s, token);
  }

  lemma LiveAdded(s: State, s': State, token: Token)
    requires token !in s.sessions && token in s'.sessions && !s'.sessions[token].revoked
    requires s'.sessions == s.sessions[token := s'.sessions[token]]
    ensures Live(s') == Live(s) + {token} && |Live(s')| == |Live(s)| + 1
  {
    assert Live(s') == Live(s) + {token} && token !in Live(s);
  }

  lemma SameCalls(s: State, s': State)
    requires s'.calls == s.calls
    ensures InFlight(s') == InFlight(s)
  {
  }

  lemma StartCounts(s: State, call: CallId, token: Token)
    requires Enabled(s, StartRefresh(call, token))
    ensures var s' := Next(s, StartRefresh(call, token));
      Live(s') == Live(s) && InFlight(s') == InFlight(s) && s'.logins == s.logins
  {
  }

  lemma FindUserCounts(s: State, call: CallId, exists_: bool)
    requires Enabled(s, FindUser(call, exists_))
    ensures var s' := Next(s, FindUser(call, exists_));
      |Live(s')| + |InFlight(s')| <= |Live(s)| + |InFlight(s)| && s'.logins == s.logins
  {
    var s' := Next(s, FindUser(call, exists_));
    assert Live(s') == Live(s);
    assert InFlight(s') == if exists_ then InFlight(s) else InFlight(s) - {call};
  }

  lemma LoginCounts(s: State, newToken: Token, user: UserId, now: nat)
    requires Enabled(s, LoginOrRegister(newToken, user, now))
    ensures var s' := Next(s, LoginOrRegister(newToken, user, now));
      |Live(s')| + |InFlight(s')| == |Live(s)| + |InFlight(s)| + 1 && s'.logins == s.logins + 1
  {
    hide Live, InFlight;
    var s' := Next(s, LoginOrRegister(newToken, user, now));
    LiveAdded(s, s', newToken);
    SameCalls(s, s');
  }

  lemma LogoutCounts(s: State, token: Token)
    ensures var s' := Next(s, LogoutStep(token));
      |Live(s')| + |InFlight(s')| <= |Live(s)| + |InFlight(s)| && s'.logins == s.logins
  {
    hide Live, InFlight, Revoked;
    var s' := Next(s, LogoutStep(token));
    LiveRevoked(s, s', token);
    SameCalls(s, s');
  }

  lemma RedeemableIsLive(s: State, token: Token, now: nat)
    requires Redeemable(s.sessions, token, now)
    ensures token in Live(s)
  {
  }

  lemma SameSessions(s: State, s': State)
    requires s'.sessions == s.sessions
    ensures Live(s') == Live(s)
  {
  }

  lemma DecideCounts(s: State, call: CallId, now: nat)
    requires Enabled(s, DecideRefresh(call, now))
    ensures var s' := Next(s, DecideRefresh(call, now));
      |Live(s')| + |InFlight(s')| <= |Live(s)| + |InFlight(s)| && s'.logins == s.logins
  {
    hide Revoked, Live;
    var s' := Next(s, DecideRefresh(call, now));
    var Fetched(token, found) := s.calls[call];
    if found && Redeemable(s.sessions, token, now) {
      LiveRevoked(s, s', token);
      RedeemableIsLive(s, token, now);
      assert InFlight(s') == InFlight(s) + {call};
    } else {
      if found {
        LiveRevoked(s, s', token);
      } else {
        SameSessions(s, s');
      }
      assert InFlight(s') == InFlight(s);
    }
  }

  lemma IssueCounts(s: State, call: CallId, newToken: Token, now: nat)
    requires Enabled(s, Issue(call, newToken, now))
    ensures var s' := Next(s, Issue(call, newToken, now));
      |Live(s')| + |InFlight(s')| == |Live(s)| + |InFlight(s)| && s'.logins == s.logins
  {
    hide Live;
    var s' := Next(s, Issue(call, newToken, now));
    LiveAdded(s, s', newToken);
    assert InFlight(s') == InFlight(s) - {call} && call in InFlight(s);
  }

  lemma StepKeepsInv(s: State, step: Step)
    requires Inv(s) && Enabled(s, step)
    ensures Inv(Next(s, step))
  {
    StepCounts(s, step);
  }

  /** Over every interleaving: no token is ever exchanged twice, exchanged tokens stay revoked, and
      unrevoked sessions plus rotations under way never outnumber the registrations and logins. */
  lemma {:induction false} RotationSafety(s: State, run: seq<Step>)
    requires Inv(s) && Legal(s, run)
    ensures Inv(Run(s, run))
    decreases |run|
  {
    if run != [] {
      StepKeepsInv(s, run[0]);
      RotationSafety(Next(s, run[0]), run[1..]);
    }
  }

  lemma EveryRunIsSafe(run: seq<Step>)
    requires Legal(Init, run)
    ensures var s := Run(Init, run);
      && (forall i, j :: 0 <= i < j < |s.redeemed| ==> s.redeemed[i] != s.redeemed[j])
      && |Live(s)| + |InFlight(s)| <= s.logins
  {
    RotationSafety(Init, run);
  }

  /** A revoked token, whether it was exchanged, logged out or replayed, is never exchanged again: not even
      by calls that had fetched its session before the revocation. */
  lemma {:induction false} RevokedNeverSucceeds(s: State, run: seq<Step>, token: Token)
    requires Legal(s, run) && token in s.sessions && s.sessions[token].revoked
    ensures var s' := Run(s, run);
      && token in s'.sessions && s'.sessions[token].revoked
      && |s'.redeemed| >= |s.redeemed|
      && token !in s'.redeemed[|s.redeemed|..]
    decreases |run|
  {
    if run != [] {
      var s1 := Next(s, run[0]);
      RevokedNeverSucceeds(s1, run[1..], token);
      var s' := Run(s1, run[1..]);
      assert s1.redeemed[|s.redeemed|..] == [] || (|s1.redeemed| == |s.redeemed| + 1 && s1.redeemed[|s.redeemed|] != token);
      RedeemedGrows(s1, run[1..]);
      assert forall i :: |s.redeemed| <= i < |s'.redeemed| ==>
        s'.redeemed[i] == if i < |s1.redeemed| then s1.redeemed[i] else s'.redeemed[|s1.redeemed|..][i - |s1.redeemed|];
    }
  }

  lemma {:induction false} RedeemedGrows(s: State, run: seq<Step>)
    requires Legal(s, run)
    ensures |s.redeemed| <= |Run(s, run).redeemed| && Run(s, run).redeemed[..|s.redeemed|] == s.redeemed
    decreases |run|
  {
    if run != [] {
      var s1 := Next(s, run[0]);
      RedeemedGrows(s1, run[1..]);
      assert s1.redeemed[..|s.redeemed|] == s.redeemed;
    }
  }

  // ---------------------------------------------------------------- live tokens are exchanged

  /** The step issues the token to the user at time `t`. */
  predicate Issues(s: State, step: Step, token: Token, user: UserId, t: nat) {
    || step == LoginOrRegister(token, user, t)
    || (step.Issue? && step.newToken == token && step.now == t && step.call in s.calls && s.calls[step.call] == Issuing(user))
  }

  /** A logout of the token, or a decision on it by a refresh that had found it. */
  predicate Spends(s: State, step: Step, token: Token) {
    || step == LogoutStep(token)
    || (step.DecideRefresh? && step.call in s.calls && s.calls[step.call] == Fetched(token, true))
  }

  ghost predicate NeverSpent(s: State, run: seq<Step>, token: Token)
    requires Legal(s, run)
    decreases |run|
  {
    run == [] || (!Spends(s, run[0], token) && NeverSpent(Next(s, run[0]), run[1..], token))
  }

  /** A session keeps its user and its expiry, and is revoked by the end exactly when some step has spent its token. */
  lemma {:induction false} RevokedIffSpent(s: State, run: seq<Step>, token: Token)
    requires Legal(s, run) && token in s.sessions && !s.sessions[token].revoked
    ensures token in Run(s, run).sessions
    ensures Run(s, run).sessions[token] == s.sessions[token].(revoked := !NeverSpent(s, run, token))
    decreases |run|
  {
    if run != [] {
      var s1 := Next(s, run[0]);
      if Spends(s, run[0], token) {
        RevokedStays(s1, run[1..], token);
      } else {
        RevokedIffSpent(s1, run[1..], token);
      }
    }
  }

  lemma {:induction false} RevokedStays(s: State, run: seq<Step>, token: Token)
    requires Legal(s, run) && token in s.sessions && s.sessions[token].revoked
    ensures token in Run(s, run).sessions && Run(s, run).sessions[token] == s.sessions[token]
    decreases |run|
  {
    if run != [] {
      RevokedStays(Next(s, run[0]), run[1..], token);
    }
  }

  /** Over every run: a token issued at `t` is exchanged by a refresh that has found it if and only if no logout and no other
      refresh has come first and no more than seven days have passed.  The call then waits as rotating for the token's user, and
      the token is recorded; otherwise the call is over and nothing is recorded.  The token is revoked either way. */
  lemma {:induction false} LiveTokenIsExchangedIff(
      s: State, issue: Step, token: Token, user: UserId, t: nat, run: seq<Step>, s': State, call: CallId, now: nat)
    requires Enabled(s, issue) && Issues(s, issue, token, user, t)
    requires Legal(Next(s, issue), run) && s' == Run(Next(s, issue), run)
    requires call in s'.calls && s'.calls[call] == Fetched(token, true)
    ensures var after := Next(s', DecideRefresh(call, now));
      var live := NeverSpent(Next(s, issue), run, token) && now <= t + 604_800_000;
      && (call in after.calls && after.calls[call] == Rotating(user) <==> live)
      && (call in after.calls <==> live)
      && after.redeemed == s'.redeemed + (if live then [token] else [])
      && token in after.sessions && after.sessions[token].revoked
      && (forall x :: x != token ==> (x in after.sessions <==> x in s'.sessions))
      && (forall x :: x != token && x in s'.sessions ==> after.sessions[x] == s'.sessions[x])
  {
    RevokedIffSpent(Next(s, issue), run, token);
  }

  /** A token that a refresh fetches while it is stored is found. */
  lemma {:induction false} FetchedIsFound(s: State, run: seq<Step>, call: CallId, token: Token)
    requires token in s.sessions && call !in s.calls
    requires Legal(s, [StartRefresh(call, token)] + run)
    requires forall step :: step in run ==> !(step.DecideRefresh? && step.call == call)
    ensures call in Run(s, [StartRefresh(call, token)] + run).calls
    ensures Run(s, [StartRefresh(call, token)] + run).calls[call] == Fetched(token, true)
  {
    var whole := [StartRefresh(call, token)] + run;
    assert whole[1..] == run;
    FetchedStays(Next(s, whole[0]), run, call, Fetched(token, true));
  }

  lemma {:induction false} FetchedStays(s: State, run: seq<Step>, call: CallId, phase: Phase)
    requires call in s.calls && s.calls[call] == phase && phase.Fetched? && Legal(s, run)
    requires forall step :: step in run ==> !(step.DecideRefresh? && step.call == call)
    ensures call in Run(s, run).calls && Run(s, run).calls[call] == phase
    decreases |run|
  {
    if run != [] {
      assert run[0] in run && forall step :: step in run[1..] ==> step in run;
      FetchedStays(Next(s, run[0]), run[1..], call, phase);
    }
  }

  /** The step ends the rotation: the user is gone, or the new session is issued. */
  predicate Ends(step: Step, call: CallId) {
    (step.FindUser? && step.call == call && !step.exists_) || (step.Issue? && step.call == call)
  }

  /** A rotation under way stays the same user's until it ends. */
  lemma {:induction false} RotationStays(s: State, run: seq<Step>, call: CallId, user: UserId)
    requires Legal(s, run) && call in s.calls && s.calls[call] in {Rotating(user), Issuing(user)}
    requires forall step :: step in run ==> !Ends(step, call)
    ensures call in Run(s, run).calls && Run(s, run).calls[call] in {Rotating(user), Issuing(user)}
    decreases |run|
  {
    if run != [] {
      assert run[0] in run && forall step :: step in run[1..] ==> step in run;
      RotationStays(Next(s, run[0]), run[1..], call, user);
    }
  }

  /** Whatever happens in between, the rotation ends with an unrevoked session of that user for seven days, under a token that
      had none, unless the user is gone; every other session stays, and the call is over. */
  lemma {:induction false} RotationIssuesToItsUser(
      s: State, run: seq<Step>, call: CallId, user: UserId, newToken: Token, now: nat, s': State)
    requires Legal(s, run) && call in s.calls && s.calls[call] == Rotating(user) && s' == Run(s, run)
    requires forall step :: step in run ==> !Ends(step, call)
    requires Enabled(s', Issue(call, newToken, now))
    ensures var after := Next(s', Issue(call, newToken, now));
      && newToken !in s'.sessions && call !in after.calls
      && after.sessions == s'.sessions[newToken := Session(user, now + 604_800_000, false)]
  {
    RotationStays(s, run, call, user);
  }
}
