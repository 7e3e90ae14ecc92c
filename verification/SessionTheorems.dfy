// Sessions and access tokens over whole serial runs: how long a session can last, what ends it for good,
// how old the claims on an accepted request can be, and what disabling a user cuts off.
module SessionTheorems {
  import opened SessionPolicy
  import opened Model
  import opened AuthCalls
  import opened Machine
  import opened Summaries
  import opened Invariants

  const MAX_TTL_MS := 2592000000
  const MAX_ACCESS_MS := 86400000

  // ----- ownership -----

  /** Every session, in every reachable state, belongs to an existing user with a verified address. */
  lemma {:induction false} SessionsAreOwned(run: Run, n: nat, id: nat)
    requires id in StateAt(run, n).sessions
    ensures var s := StateAt(run, n);
      s.sessions[id].userId in s.users && s.users[s.sessions[id].userId].emailVerifiedAt.Some?
  {
    hide Dispatch, Inv, FreshIds;
    Reachable(run, n);
    InvParts(StateAt(run, n));
  }

  // ----- the chain of touches -----

  /** A creation, refresh or unlock, with the inactivity lifetime in force at that moment. */
  datatype Touch = Touch(at: nat, ttlSec: int)

  /** The touch, if any, made by a request that is served in state s and ends in event e. */
  function TouchBy(s: State, e: Event, id: nat): seq<Touch> {
    if (e.SessionOpened? || e.SessionExtended?) && e.session == id then [Touch(s.clock, InactivityTtlNow(s))] else []
  }

  /** All touches of a session by the first n requests, oldest first. */
  ghost function Touches(run: Run, id: nat, n: nat): seq<Touch> {
    if n == 0 then [] else Touches(run, id, n - 1) + TouchBy(ServedIn(run, n - 1), EventAt(run, n - 1), id)
  }

  function Last(ts: seq<Touch>): Touch
    requires ts != []
  {
    ts[|ts| - 1]
  }

  /** Each gap is below the lifetime in force at its start and at most the lifetime in force at its end. */
  predicate Gap(a: Touch, b: Touch) {
    a.at <= b.at && b.at - a.at < a.ttlSec * 1000 && b.at - a.at <= b.ttlSec * 1000
  }

  ghost predicate Chain(ts: seq<Touch>) {
    && (forall i | 0 <= i < |ts| :: 300 <= ts[i].ttlSec <= MAX_INACTIVITY_TTL_SEC)
    && (forall i, j | 0 <= i < j < |ts| && j == i + 1 :: Gap(ts[i], ts[j]))
  }

  /** The row of a session says when it was first and last touched and what the last touch granted. */
  ghost predicate RowTellsChain(s: State, id: nat, ts: seq<Touch>) {
    && Chain(ts)
    && (id >= s.nextId ==> ts == [])
    && (id in s.sessions ==>
          && ts != []
          && s.sessions[id].createdAt == ts[0].at
          && s.sessions[id].lastUsedAt == Last(ts).at <= s.clock
          && s.sessions[id].expiresAt == Last(ts).at + Last(ts).ttlSec * 1000)
  }

  lemma ChainGrows(ts: seq<Touch>, t: Touch)
    requires Chain(ts) && 300 <= t.ttlSec <= MAX_INACTIVITY_TTL_SEC && (ts != [] ==> Gap(Last(ts), t))
    ensures Chain(ts + [t])
  {
    hide Gap;
  }

  /** What one request does to the columns of a session that tell about its touches. */
  lemma TouchStep(s: State, call: Call, id: nat)
    requires FreshIds(s)
    ensures var o := Dispatch(s, call);
      var t, touches := o.state, TouchBy(s, o.event, id);
      && t.clock == s.clock && s.nextId <= t.nextId
      && (touches != [] ==>
            && id in t.sessions && id < t.nextId
            && t.sessions[id].lastUsedAt == s.clock && t.sessions[id].expiresAt == s.clock + touches[0].ttlSec * 1000
            && (if id in s.sessions then
                  t.sessions[id].createdAt == s.sessions[id].createdAt
                  && s.clock < s.sessions[id].expiresAt
                  && s.clock - s.sessions[id].lastUsedAt <= touches[0].ttlSec * 1000
                else id == s.nextId && t.sessions[id].createdAt == s.clock))
      && (touches == [] && id in t.sessions ==>
            && id in s.sessions && t.sessions[id].createdAt == s.sessions[id].createdAt
            && t.sessions[id].lastUsedAt == s.sessions[id].lastUsedAt
            && t.sessions[id].expiresAt == s.sessions[id].expiresAt)
  {
    hide Dispatch, UserRow, OtpRow, DeviceRow, ReviewRow, Seconds;
    CallFollows(s, call, id, "");
  }

  lemma ChainStep(s: State, call: Call, id: nat, ts: seq<Touch>)
    requires FreshIds(s) && RowTellsChain(s, id, ts)
    ensures RowTellsChain(Dispatch(s, call).state, id, ts + TouchBy(s, Dispatch(s, call).event, id))
  {
    hide Dispatch, Chain, Seconds;
    var touches := TouchBy(s, Dispatch(s, call).event, id);
    TouchStep(s, call, id);
    if touches == [] {
      assert ts + touches == ts;
    } else {
      ChainGrows(ts, touches[0]);
    }
  }

  lemma {:induction false} ChainAlongRun(run: Run, id: nat, n: nat)
    ensures RowTellsChain(StateAt(run, n), id, Touches(run, id, n))
  {
    hide Dispatch, Inv, FreshIds, TouchBy;
    if n > 0 {
      ChainAlongRun(run, id, n - 1);
      RunIsFresh(run, n - 1);
      ChainStep(ServedIn(run, n - 1), run.script(n - 1).call, id, Touches(run, id, n - 1));
    }
  }

  lemma {:induction false} ChainSpan(ts: seq<Touch>)
    requires ts != [] && Chain(ts)
    ensures Last(ts).at - ts[0].at <= (|ts| - 1) * MAX_TTL_MS
  {
    if |ts| > 1 {
      var front := ts[..|ts| - 1];
      ChainSpan(front);
      assert Gap(ts[|ts| - 2], ts[|ts| - 1]);
    }
  }

  predicate Opens(e: Event, id: nat) {
    e.SessionOpened? && e.session == id
  }

  predicate Extends(e: Event, id: nat) {
    e.SessionExtended? && e.session == id
  }

  /** Creations of a session among the first n requests. */
  ghost function Openings(run: Run, id: nat, n: nat): nat {
    if n == 0 then 0 else Openings(run, id, n - 1) + if Opens(EventAt(run, n - 1), id) then 1 else 0
  }

  /** Refreshes and unlocks of a session among the first n requests. */
  ghost function Extensions(run: Run, id: nat, n: nat): nat {
    if n == 0 then 0 else Extensions(run, id, n - 1) + if Extends(EventAt(run, n - 1), id) then 1 else 0
  }

  /** A session is created once, before it is ever extended. */
  predicate Tally(s: State, id: nat, openings: nat, extensions: nat) {
    && openings <= 1
    && (id >= s.nextId ==> openings == 0)
    && (id in s.sessions || extensions > 0 ==> openings == 1)
  }

  lemma TallyStep(s: State, call: Call, id: nat, openings: nat, extensions: nat)
    requires FreshIds(s) && Tally(s, id, openings, extensions)
    ensures var o := Dispatch(s, call);
      Tally(o.state, id, openings + (if Opens(o.event, id) then 1 else 0),
          extensions + (if Extends(o.event, id) then 1 else 0))
  {
    hide Dispatch, FreshIds, UserRow, OtpRow, DeviceRow, ReviewRow, Seconds;
    CallFollows(s, call, id, "");
    if Opens(Dispatch(s, call).event, id) {
      OpensNewId(s, call, id);
    }
  }

  lemma OpensNewId(s: State, call: Call, id: nat)
    requires FreshIds(s) && Opens(Dispatch(s, call).event, id)
    ensures id == s.nextId < Dispatch(s, call).state.nextId && id !in s.sessions
  {
    hide Dispatch, UserRow, OtpRow, DeviceRow, ReviewRow, Seconds;
    CallFollows(s, call, id, "");
  }

  lemma {:induction false} TallyAlongRun(run: Run, id: nat, n: nat)
    ensures Tally(StateAt(run, n), id, Openings(run, id, n), Extensions(run, id, n))
    ensures |Touches(run, id, n)| == Openings(run, id, n) + Extensions(run, id, n)
  {
    hide Dispatch, Inv, FreshIds, Opens, Extends, TouchBy;
    if n > 0 {
      TallyAlongRun(run, id, n - 1);
      RunIsFresh(run, n - 1);
      TallyStep(ServedIn(run, n - 1), run.script(n - 1).call, id, Openings(run, id, n - 1), Extensions(run, id, n - 1));
      TouchedOnce(ServedIn(run, n - 1), EventAt(run, n - 1), id);
    }
  }

  lemma TouchedOnce(s: State, e: Event, id: nat)
    ensures |TouchBy(s, e, id)| == (if Opens(e, id) then 1 else 0) + (if Extends(e, id) then 1 else 0)
  {
  }

  /** The request was let through on this session, or refreshed or unlocked it. */
  predicate Uses(e: Event, id: nat) {
    (e.RequestAccepted? && e.token.sessionId == id) || (e.SessionExtended? && e.session == id)
  }

  lemma UseNeedsLiveSession(s: State, call: Call, id: nat)
    requires FreshIds(s) && Uses(Dispatch(s, call).event, id)
    ensures Live(s, id) && WithinInactivity(s, s.sessions[id].lastUsedAt)
  {
    hide Dispatch, UserRow, SessionRow, OtpRow, DeviceRow, ReviewRow, Seconds;
    CallFollows(s, call, id, "");
  }

  /**
   * A session that is used at request n was created once, and after r refreshes or unlocks it is younger than
   * (r + 1) * 30 days; every gap in its chain, the last one up to now included, is below the lifetime in
   * force at its start and at most the lifetime in force at its end.
   */
  lemma {:induction false} SessionSurvival(run: Run, n: nat, id: nat)
    requires Uses(EventAt(run, n), id)
    ensures var ts, now := Touches(run, id, n), Touch(TimeAt(run, n), InactivityTtlNow(ServedIn(run, n)));
      && id in ServedIn(run, n).sessions && ts != [] && ts[0].at == ServedIn(run, n).sessions[id].createdAt
      && Chain(ts) && Gap(Last(ts), now)
      && Openings(run, id, n) == 1 && |ts| == Extensions(run, id, n) + 1
      && now.at - ts[0].at < (Extensions(run, id, n) + 1) * MAX_TTL_MS
  {
    hide Dispatch, Inv, FreshIds, TouchBy, Seconds, Opens, Extends;
    ChainAlongRun(run, id, n);
    TallyAlongRun(run, id, n);
    RunIsFresh(run, n);
    UseNeedsLiveSession(ServedIn(run, n), run.script(n).call, id);
    ChainSpan(Touches(run, id, n));
  }

  /** The guard only reads: no guarded request extends anything. */
  lemma {:induction false} GuardChangesNothing(run: Run, n: nat)
    requires run.script(n).call.Guard?
    ensures StateAt(run, n + 1) == ServedIn(run, n)
  {
    hide AuthCalls.Register, AuthCalls.ResendEmailOtp, AuthCalls.VerifyEmail, AuthCalls.ConfirmPasswordReset, Seconds;
    assert Dispatch(ServedIn(run, n), run.script(n).call)
        == AuthCalls.Guard(ServedIn(run, n), run.script(n).call.token);
  }

  /**
   * The session check is a minimum of two deadlines: the one stored at the last touch, which no later policy
   * moves, and the one of the policy in force now, which binds at once.
   */
  lemma {:induction false} DeadlineIsMinimum(run: Run, n: nat, id: nat)
    requires id in ServedIn(run, n).sessions
    ensures var s := ServedIn(run, n);
      var row, ts := s.sessions[id], Touches(run, id, n);
      ts != [] &&
      ((Live(s, id) && WithinInactivity(s, row.lastUsedAt)) <==>
        && row.revokedAt.None?
        && s.clock < row.lastUsedAt + Last(ts).ttlSec * 1000
        && s.clock <= row.lastUsedAt + InactivityTtlNow(s) * 1000)
  {
    hide Dispatch, TouchBy, Seconds, Chain;
    ChainAlongRun(run, id, n);
  }

  // ----- what ends a session ends it for good -----

  /** Drawn, and now deleted, revoked or past its stored expiry. */
  predicate Over(s: State, id: nat) {
    id < s.nextId && (id in s.sessions ==> s.sessions[id].revokedAt.Some? || s.sessions[id].expiresAt <= s.clock)
  }

  lemma OverStep(s: State, call: Call, id: nat)
    requires FreshIds(s) && Over(s, id)
    ensures Over(Dispatch(s, call).state, id) && !Uses(Dispatch(s, call).event, id)
  {
    hide Dispatch, UserRow, OtpRow, DeviceRow, ReviewRow, Seconds;
    CallFollows(s, call, id, "");
  }

  lemma {:induction false} OverStays(run: Run, id: nat, i: nat, n: nat)
    requires i <= n && Over(StateAt(run, i), id)
    ensures Over(StateAt(run, n), id)
    decreases n
  {
    hide Dispatch, Inv, FreshIds;
    if n > i {
      OverStays(run, id, i, n - 1);
      RunIsFresh(run, n - 1);
      OverStep(ServedIn(run, n - 1), run.script(n - 1).call, id);
    }
  }

  /** Once deleted, revoked or past its stored expiry, a session is never accepted or extended again. */
  lemma {:induction false} LapseIsPermanent(run: Run, id: nat, i: nat, n: nat)
    requires i <= n && Over(StateAt(run, i), id)
    ensures !Uses(EventAt(run, n), id)
  {
    hide Dispatch, Inv, FreshIds;
    OverStays(run, id, i, n);
    RunIsFresh(run, n);
    OverStep(ServedIn(run, n), run.script(n).call, id);
  }

  // ----- claims on accepted requests -----

  predicate Signs(e: Event, token: AccessToken) {
    (e.SessionOpened? || e.SessionExtended?) && e.token == token
  }

  lemma TokenStep(s: State, call: Call, token: AccessToken)
    requires FreshIds(s) && token in Dispatch(s, call).state.issued
    ensures token in s.issued || Signs(Dispatch(s, call).event, token)
  {
    hide Dispatch, UserRow, SessionRow, OtpRow, DeviceRow, ReviewRow, Seconds;
    CallFollows(s, call, 0, "");
  }

  lemma {:induction false} TokenOrigin(run: Run, n: nat, token: AccessToken)
    requires token in StateAt(run, n).issued
    ensures exists i: nat :: i < n && Signs(EventAt(run, i), token)
  {
    hide Dispatch, Inv, FreshIds, Signs;
    RunIsFresh(run, n - 1);
    TokenStep(ServedIn(run, n - 1), run.script(n - 1).call, token);
    if token in StateAt(run, n - 1).issued {
      TokenOrigin(run, n - 1, token);
    } else {
      assert Signs(EventAt(run, n - 1), token);
    }
  }

  /** What signing stamps on a token. */
  lemma SignedClaims(s: State, call: Call, token: AccessToken)
    requires FreshIds(s) && Signs(Dispatch(s, call).event, token)
    ensures token.sub in s.users && ActiveVerified(s.users[token.sub])
    ensures token == Sign(s, token.sub, s.users[token.sub], token.sessionId)
  {
    hide Dispatch, UserRow, SessionRow, OtpRow, DeviceRow, ReviewRow, Seconds;
    CallFollows(s, call, 0, "");
  }

  lemma AcceptedFacts(s: State, call: Call)
    requires FreshIds(s) && Dispatch(s, call).event.RequestAccepted?
    ensures var o := Dispatch(s, call);
      var token := o.event.token;
      && token in s.issued && s.clock / 1000 < token.exp
      && token.sessionId in s.sessions && s.sessions[token.sessionId].userId == token.sub
      && s.sessions[token.sessionId].revokedAt.None?
      && o.reply == Granted(token.sub, token.email, token.sessionId, token.role)
  {
    hide Dispatch, UserRow, SessionRow, OtpRow, DeviceRow, ReviewRow, Seconds;
    CallFollows(s, call, 0, "");
  }

  lemma {:induction false} TimeMovesOn(run: Run, i: nat, n: nat)
    requires i <= n
    ensures StateAt(run, i).clock <= StateAt(run, n).clock <= TimeAt(run, n)
    ensures i < n ==> TimeAt(run, i) <= StateAt(run, n).clock
    decreases n
  {
    hide Dispatch, Inv, FreshIds, Follows;
    if i < n {
      TimeMovesOn(run, i, n - 1);
      RunFollows(run, n - 1, 0, "");
      FollowsClock(ServedIn(run, n - 1), run.script(n - 1).call, OutcomeAt(run, n - 1));
    }
  }

  lemma FollowsClock(s: State, call: Call, o: Outcome)
    requires Follows(s, call, o, 0, "")
    ensures o.state.clock == s.clock
  {
  }

  /**
   * The e-mail and role an accepted request carries are those the user row held when the token was signed,
   * less than the access-token lifetime of that moment, hence less than a day, before.
   */
  lemma {:induction false} ClaimStaleness(run: Run, n: nat)
    requires EventAt(run, n).RequestAccepted?
    ensures var token := EventAt(run, n).token;
      && OutcomeAt(run, n).reply == Granted(token.sub, token.email, token.sessionId, token.role)
      && exists i: nat :: i < n
          && token.sub in ServedIn(run, i).users
          && ServedIn(run, i).users[token.sub].email == token.email
          && ServedIn(run, i).users[token.sub].role == token.role
          && TimeAt(run, i) <= TimeAt(run, n) < TimeAt(run, i) + AccessTtl(ServedIn(run, i)) * 1000
          && AccessTtl(ServedIn(run, i)) * 1000 <= MAX_ACCESS_MS
  {
    hide Dispatch, Inv, FreshIds, Signs, Seconds;
    var token := EventAt(run, n).token;
    RunIsFresh(run, n);
    AcceptedFacts(ServedIn(run, n), run.script(n).call);
    TokenOrigin(run, n, token);
    var i: nat :| i < n && Signs(EventAt(run, i), token);
    RunIsFresh(run, i);
    SignedClaims(ServedIn(run, i), run.script(i).call, token);
    TimeMovesOn(run, i, n);
    assert token.exp == TimeAt(run, i) / 1000 + AccessTtl(ServedIn(run, i));
  }

  /**
   * Whole seconds: a token whose lifetime at signing was ttl seconds is unexpired for at least ttl - 1 seconds
   * of the millisecond clock, and expired ttl seconds after it was signed.
   */
  lemma {:induction false} TokenLifetime(run: Run, i: nat, n: nat, token: AccessToken)
    requires i < n && Signs(EventAt(run, i), token)
    ensures token in ServedIn(run, n).issued
    ensures var age, ttl := TimeAt(run, n) - TimeAt(run, i), AccessTtl(ServedIn(run, i));
      && (age <= (ttl - 1) * 1000 ==> TimeAt(run, n) / 1000 < token.exp)
      && (TimeAt(run, n) / 1000 < token.exp ==> age < ttl * 1000)
  {
    hide Dispatch, Inv, FreshIds, Signs, Seconds;
    RunIsFresh(run, i);
    SignedClaims(ServedIn(run, i), run.script(i).call, token);
    SignedIsIssued(ServedIn(run, i), run.script(i).call, token);
    IssuedStays(run, i + 1, n, token);
    TimeMovesOn(run, i, n);
    assert token.exp == TimeAt(run, i) / 1000 + AccessTtl(ServedIn(run, i));
  }

  lemma SignedIsIssued(s: State, call: Call, token: AccessToken)
    requires FreshIds(s) && (token in s.issued || Signs(Dispatch(s, call).event, token))
    ensures token in Dispatch(s, call).state.issued
  {
    hide Dispatch, FreshIds, UserRow, SessionRow, OtpRow, DeviceRow, ReviewRow, Seconds;
    CallFollows(s, call, 0, "");
  }

  /** A signature is never taken back. */
  lemma {:induction false} IssuedStays(run: Run, i: nat, n: nat, token: AccessToken)
    requires i <= n && token in StateAt(run, i).issued
    ensures token in StateAt(run, n).issued
    decreases n
  {
    hide Dispatch, Inv, FreshIds, Signs;
    if i < n {
      IssuedStays(run, i, n - 1, token);
      RunIsFresh(run, n - 1);
      SignedIsIssued(ServedIn(run, n - 1), run.script(n - 1).call, token);
    }
  }

  // ----- disabling a user -----

  /** No active user row of this id: disabled, or deleted. */
  predicate NotActive(s: State, u: nat) {
    u in s.users ==> s.users[u].status == Disabled
  }

  ghost predicate InactiveThrough(run: Run, u: nat, i: nat, n: nat) {
    forall k: nat | i <= k <= n :: NotActive(StateAt(run, k), u)
  }

  /**
   * While a user is disabled or deleted, no session of theirs is created or extended and no token is signed for
   * them.
   */
  lemma {:induction false} NothingSignedWhileDisabled(run: Run, u: nat, n: nat)
    requires NotActive(StateAt(run, n), u)
    ensures var e := EventAt(run, n); !((e.SessionOpened? || e.SessionExtended?) && e.user == u)
    ensures forall token | token in StateAt(run, n + 1).issued && token.sub == u :: token in StateAt(run, n).issued
  {
    hide Dispatch, Inv, FreshIds, UserRow, SessionRow, OtpRow, DeviceRow, ReviewRow, Seconds;
    RunFollows(run, n, 0, "");
  }

  lemma {:induction false} NoNewTokens(run: Run, u: nat, i: nat, n: nat, token: AccessToken)
    requires i <= n && InactiveThrough(run, u, i, n)
    requires token.sub == u && token in StateAt(run, n).issued
    ensures token in StateAt(run, i).issued
    decreases n
  {
    hide Dispatch;
    if i < n {
      NothingSignedWhileDisabled(run, u, n - 1);
      NoNewTokens(run, u, i, n - 1, token);
    }
  }

  /**
   * Once a user is disabled, in whatever way, and then at most deleted, every request from a day later on is
   * refused.
   */
  lemma {:induction false} DisableCutOff(run: Run, u: nat, i: nat, n: nat)
    requires i <= n && InactiveThrough(run, u, i, n)
    requires EventAt(run, n).RequestAccepted? && EventAt(run, n).token.sub == u
    ensures TimeAt(run, n) < StateAt(run, i).clock + MAX_ACCESS_MS
  {
    hide Dispatch, Inv, FreshIds, Signs, Seconds;
    var token := EventAt(run, n).token;
    RunIsFresh(run, n);
    AcceptedFacts(ServedIn(run, n), run.script(n).call);
    NoNewTokens(run, u, i, n, token);
    TokenOrigin(run, i, token);
    var j: nat :| j < i && Signs(EventAt(run, j), token);
    RunIsFresh(run, j);
    SignedClaims(ServedIn(run, j), run.script(j).call, token);
    TimeMovesOn(run, j, i);
  }

  ghost predicate AllRevoked(s: State, u: nat) {
    forall id | id in s.sessions && s.sessions[id].userId == u :: s.sessions[id].revokedAt.Some?
  }

  lemma SuspendRevokes(s: State, call: Call, u: nat)
    requires FreshIds(s)
    ensures Dispatch(s, call).event == UserSuspended(u) ==> AllRevoked(Dispatch(s, call).state, u)
    ensures AllRevoked(s, u) && NotActive(s, u) ==> AllRevoked(Dispatch(s, call).state, u)
  {
    hide Dispatch, UserRow, OtpRow, DeviceRow, ReviewRow, Seconds;
    var t := Dispatch(s, call).state;
    forall id | id in t.sessions && t.sessions[id].userId == u
      ensures Dispatch(s, call).event == UserSuspended(u) ==> t.sessions[id].revokedAt.Some?
      ensures AllRevoked(s, u) && NotActive(s, u) ==> t.sessions[id].revokedAt.Some?
    {
      CallFollows(s, call, id, "");
    }
  }

  lemma {:induction false} StaysRevoked(run: Run, u: nat, i: nat, n: nat)
    requires i <= n && EventAt(run, i) == UserSuspended(u)
    requires InactiveThrough(run, u, i + 1, n + 1)
    ensures AllRevoked(StateAt(run, n + 1), u)
    decreases n
  {
    hide Dispatch, Inv, FreshIds;
    RunIsFresh(run, n);
    SuspendRevokes(ServedIn(run, n), run.script(n).call, u);
    if i < n {
      StaysRevoked(run, u, i, n - 1);
    }
  }

  /**
   * After a suspension no request of that user is accepted until the user is reactivated, deletion in between
   * included.
   */
  lemma {:induction false} SuspensionIsImmediate(run: Run, u: nat, i: nat, n: nat)
    requires i < n && EventAt(run, i) == UserSuspended(u) && InactiveThrough(run, u, i + 1, n)
    ensures !(EventAt(run, n).RequestAccepted? && EventAt(run, n).token.sub == u)
  {
    hide Dispatch, Inv, FreshIds;
    StaysRevoked(run, u, i, n - 1);
    RunIsFresh(run, n);
    if EventAt(run, n).RequestAccepted? {
      AcceptedFacts(ServedIn(run, n), run.script(n).call);
    }
  }
}
