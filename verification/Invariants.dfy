// What holds in every state a serial run can reach.
module Invariants {
  import opened SessionPolicy
  import opened Model
  import opened AuthCalls
  import opened Machine
  import opened Summaries

  ghost predicate EmailsUnique(s: State) {
    forall u, v | u in s.users && v in s.users && s.users[u].email == s.users[v].email :: u == v
  }

  /** Foreign keys; in addition, a session belongs to a user whose address is verified. */
  ghost predicate RowsOwned(s: State) {
    && (forall id | id in s.sessions ::
          s.sessions[id].userId in s.users && s.users[s.sessions[id].userId].emailVerifiedAt.Some?)
    && (forall id | id in s.otps :: s.otps[id].userId in s.users)
    && (forall d | d in s.credentials :: s.credentials[d].userId in s.users)
    && (forall id | id in s.submissions :: s.submissions[id].userId in s.users)
  }

  /** At most one outstanding code per user and purpose. */
  ghost predicate OneOutstanding(s: State) {
    forall a, b | a in s.otps && b in s.otps && s.otps[a].consumedAt.None? && s.otps[b].consumedAt.None?
        && s.otps[a].userId == s.otps[b].userId && s.otps[a].purpose == s.otps[b].purpose :: a == b
  }

  /** A verification code is outstanding exactly for the unverified users. */
  ghost predicate VerificationCodes(s: State) {
    && (forall u | u in s.users && s.users[u].emailVerifiedAt.None? ::
          exists id :: id in s.otps && Unconsumed(s.otps[id], u, EmailVerification))
    && (forall id | id in s.otps && s.otps[id].userId in s.users
            && Unconsumed(s.otps[id], s.otps[id].userId, EmailVerification) ::
          s.users[s.otps[id].userId].emailVerifiedAt.None?)
  }

  ghost predicate OtpRowsInRange(s: State) {
    forall id | id in s.otps :: s.otps[id].attempts <= OTP_MAX_ATTEMPTS && s.otps[id].createdAt <= s.clock
  }

  /** Refresh tokens and challenges are values drawn earlier; two sessions never share a refresh token. */
  ghost predicate DrawnEarlier(s: State) {
    && (forall id | id in s.sessions :: s.sessions[id].refreshHash == id + 1 < s.nextId)
    && (forall d | d in s.credentials && s.credentials[d].challenge.Some? ::
        s.credentials[d].challenge.value < s.nextId)
  }

  ghost predicate Inv(s: State) {
    FreshIds(s) && EmailsUnique(s) && RowsOwned(s) && OneOutstanding(s) && VerificationCodes(s)
    && OtpRowsInRange(s) && DrawnEarlier(s)
  }

  lemma InvParts(s: State)
    requires Inv(s)
    ensures FreshIds(s) && EmailsUnique(s) && RowsOwned(s) && OneOutstanding(s) && VerificationCodes(s)
    ensures OtpRowsInRange(s) && DrawnEarlier(s)
  {
  }

  lemma FreshIdsKept(s: State, call: Call)
    requires FreshIds(s)
    ensures FreshIds(Dispatch(s, call).state)
  {
    hide Dispatch;
    var t := Dispatch(s, call).state;
    forall k: nat
      ensures k in t.users || k in t.sessions || k in t.otps || k in t.submissions ==> k < t.nextId
    {
      CallFollows(s, call, k, "");
    }
  }

  lemma EmailsKept(s: State, call: Call)
    requires FreshIds(s) && EmailsUnique(s)
    ensures EmailsUnique(Dispatch(s, call).state)
  {
    hide Dispatch, SessionRow, OtpRow, DeviceRow, ReviewRow, EventFacts;
    var t := Dispatch(s, call).state;
    forall u, v | u in t.users && v in t.users && t.users[u].email == t.users[v].email
      ensures u == v
    {
      CallFollows(s, call, u, "");
      CallFollows(s, call, v, "");
    }
  }

  lemma SessionOwnerKept(s: State, call: Call, id: nat)
    requires FreshIds(s) && RowsOwned(s)
    ensures var t := Dispatch(s, call).state;
      id in t.sessions ==> t.sessions[id].userId in t.users && t.users[t.sessions[id].userId].emailVerifiedAt.Some?
  {
    hide Dispatch, FreshIds, OtpRow, DeviceRow, ReviewRow;
    var t := Dispatch(s, call).state;
    CallFollows(s, call, id, "");
    if id in t.sessions {
      CallFollows(s, call, t.sessions[id].userId, "");
    }
  }

  lemma OtpOwnerKept(s: State, call: Call, id: nat)
    requires FreshIds(s) && RowsOwned(s)
    ensures var t := Dispatch(s, call).state; id in t.otps ==> t.otps[id].userId in t.users
  {
    hide Dispatch, FreshIds, SessionRow, DeviceRow, ReviewRow;
    var t := Dispatch(s, call).state;
    CallFollows(s, call, id, "");
    if id in t.otps {
      CallFollows(s, call, t.otps[id].userId, "");
    }
  }

  lemma DeviceOwnerKept(s: State, call: Call, d: string)
    requires FreshIds(s) && RowsOwned(s)
    ensures var t := Dispatch(s, call).state; d in t.credentials ==> t.credentials[d].userId in t.users
  {
    hide Dispatch, FreshIds, SessionRow, OtpRow, ReviewRow;
    var t := Dispatch(s, call).state;
    if d in t.credentials {
      CallFollows(s, call, t.credentials[d].userId, d);
    }
  }

  lemma SubmissionOwnerKept(s: State, call: Call, id: nat)
    requires FreshIds(s) && RowsOwned(s)
    ensures var t := Dispatch(s, call).state; id in t.submissions ==> t.submissions[id].userId in t.users
  {
    hide Dispatch, FreshIds, SessionRow, OtpRow, DeviceRow;
    var t := Dispatch(s, call).state;
    CallFollows(s, call, id, "");
    if id in t.submissions {
      CallFollows(s, call, t.submissions[id].userId, "");
    }
  }

  lemma RowsOwnedKept(s: State, call: Call)
    requires FreshIds(s) && RowsOwned(s)
    ensures RowsOwned(Dispatch(s, call).state)
  {
    hide Dispatch, FreshIds;
    var t := Dispatch(s, call).state;
    forall id | id in t.sessions
      ensures t.sessions[id].userId in t.users && t.users[t.sessions[id].userId].emailVerifiedAt.Some?
    {
      SessionOwnerKept(s, call, id);
    }
    forall id | id in t.otps
      ensures t.otps[id].userId in t.users
    {
      OtpOwnerKept(s, call, id);
    }
    forall d | d in t.credentials
      ensures t.credentials[d].userId in t.users
    {
      DeviceOwnerKept(s, call, d);
    }
    forall id | id in t.submissions
      ensures t.submissions[id].userId in t.users
    {
      SubmissionOwnerKept(s, call, id);
    }
  }

  lemma OneOutstandingKept(s: State, call: Call)
    requires FreshIds(s) && OneOutstanding(s)
    ensures OneOutstanding(Dispatch(s, call).state)
  {
    hide Dispatch, UserRow, SessionRow, DeviceRow, ReviewRow;
    var t := Dispatch(s, call).state;
    forall a, b | a in t.otps && b in t.otps && t.otps[a].consumedAt.None? && t.otps[b].consumedAt.None?
        && t.otps[a].userId == t.otps[b].userId && t.otps[a].purpose == t.otps[b].purpose
      ensures a == b
    {
      CallFollows(s, call, a, "");
      CallFollows(s, call, b, "");
    }
  }

  /** A verification code stays outstanding while its user is unverified, unless a new one replaces it. */
  lemma CodeStaysOutstanding(s: State, call: Call, u: nat, id: nat)
    requires FreshIds(s) && id in s.otps && Unconsumed(s.otps[id], u, EmailVerification)
    requires u in Dispatch(s, call).state.users && Dispatch(s, call).state.users[u].emailVerifiedAt.None?
    ensures var o := Dispatch(s, call);
      || (id in o.state.otps && Unconsumed(o.state.otps[id], u, EmailVerification))
      || (o.event.CodeIssued? && o.event.user == u && o.event.purpose == EmailVerification)
      || (o.event.UserRegistered? && o.event.user == u)
  {
    hide Dispatch, SessionRow, DeviceRow, ReviewRow, FreshIds, Seconds, RetryAfterSec, EmailFree;
    CallFollows(s, call, u, "");
    CallFollows(s, call, id, "");
  }

  lemma IssuedIsOutstanding(s: State, call: Call, u: nat)
    requires FreshIds(s)
    ensures var o := Dispatch(s, call);
      (o.event.CodeIssued? && o.event.user == u && o.event.purpose == EmailVerification)
      || (o.event.UserRegistered? && o.event.user == u) ==>
        o.event.otp in o.state.otps && Unconsumed(o.state.otps[o.event.otp], u, EmailVerification)
  {
    hide Dispatch, UserRow, SessionRow, DeviceRow, ReviewRow, FreshIds, Seconds, RetryAfterSec;
    var e := Dispatch(s, call).event;
    if e.CodeIssued? || e.UserRegistered? {
      CallFollows(s, call, e.otp, "");
    }
  }

  lemma OldOrRegistered(s: State, call: Call, u: nat)
    requires FreshIds(s)
    requires u in Dispatch(s, call).state.users && Dispatch(s, call).state.users[u].emailVerifiedAt.None?
    ensures (u in s.users && s.users[u].emailVerifiedAt.None?)
         || (Dispatch(s, call).event.UserRegistered? && Dispatch(s, call).event.user == u)
  {
    hide Dispatch, SessionRow, OtpRow, DeviceRow, ReviewRow, FreshIds, EventFacts, EmailFree;
    CallFollows(s, call, u, "");
  }

  lemma UnverifiedHasCode(s: State, call: Call, u: nat)
    requires FreshIds(s) && VerificationCodes(s)
    requires u in Dispatch(s, call).state.users && Dispatch(s, call).state.users[u].emailVerifiedAt.None?
    ensures var t := Dispatch(s, call).state;
      exists id :: id in t.otps && Unconsumed(t.otps[id], u, EmailVerification)
  {
    hide Dispatch, FreshIds, Unconsumed;
    OldOrRegistered(s, call, u);
    IssuedIsOutstanding(s, call, u);
    if u in s.users && s.users[u].emailVerifiedAt.None? {
      var id :| id in s.otps && Unconsumed(s.otps[id], u, EmailVerification);
      CodeStaysOutstanding(s, call, u, id);
    }
  }

  lemma SameOutstanding(s: State, a: nat, b: nat)
    requires OneOutstanding(s) && a in s.otps && b in s.otps
    requires s.otps[a].consumedAt.None? && s.otps[b].consumedAt.None?
    requires s.otps[a].userId == s.otps[b].userId && s.otps[a].purpose == s.otps[b].purpose
    ensures a == b
  {
  }

  /** A verification code left outstanding was outstanding before, or its user was and stays unverified. */
  lemma CodeWasOutstanding(s: State, call: Call, id: nat, u: nat)
    requires FreshIds(s)
    requires id in Dispatch(s, call).state.otps && Unconsumed(Dispatch(s, call).state.otps[id], u, EmailVerification)
    ensures var e := Dispatch(s, call).event;
      || (id in s.otps && Unconsumed(s.otps[id], u, EmailVerification) && !(VerifiesEmail(e, u) && e.otp == id))
      || (e.UserRegistered? && e.user == u)
      || (e.CodeIssued? && e.user == u && u in s.users && s.users[u].emailVerifiedAt.None?)
  {
    hide Dispatch, UserRow, SessionRow, DeviceRow, ReviewRow, FreshIds, Seconds, RetryAfterSec, MovesForward;
    CallFollows(s, call, id, "");
  }

  /** An address gets verified by a code of its user, and by nothing else. */
  lemma VerifiedOnlyByCode(s: State, call: Call, u: nat)
    requires FreshIds(s) && u in Dispatch(s, call).state.users
    ensures var o := Dispatch(s, call);
      && (o.event.UserRegistered? && o.event.user == u ==> o.state.users[u].emailVerifiedAt.None?)
      && (u in s.users && s.users[u].emailVerifiedAt.None? && !VerifiesEmail(o.event, u) ==>
            o.state.users[u].emailVerifiedAt.None?)
      && (VerifiesEmail(o.event, u) ==>
            o.event.otp in s.otps && Unconsumed(s.otps[o.event.otp], u, EmailVerification))
  {
    hide Dispatch, OtpRow, SessionRow, DeviceRow, ReviewRow, FreshIds, Seconds, RetryAfterSec, EmailFree, MovesForward;
    CallFollows(s, call, u, "");
  }

  lemma CodeMeansUnverified(s: State, call: Call, id: nat)
    requires FreshIds(s) && VerificationCodes(s) && OneOutstanding(s) && RowsOwned(s)
    ensures var t := Dispatch(s, call).state;
      id in t.otps && t.otps[id].userId in t.users && Unconsumed(t.otps[id], t.otps[id].userId, EmailVerification) ==>
        t.users[t.otps[id].userId].emailVerifiedAt.None?
  {
    hide Dispatch, FreshIds, OneOutstanding;
    var t, e := Dispatch(s, call).state, Dispatch(s, call).event;
    if id in t.otps && t.otps[id].userId in t.users && Unconsumed(t.otps[id], t.otps[id].userId, EmailVerification) {
      var u := t.otps[id].userId;
      CodeWasOutstanding(s, call, id, u);
      VerifiedOnlyByCode(s, call, u);
      if VerifiesEmail(e, u) && id in s.otps && Unconsumed(s.otps[id], u, EmailVerification) {
        SameOutstanding(s, e.otp, id);
      }
    }
  }

  lemma VerificationCodesKept(s: State, call: Call)
    requires FreshIds(s) && RowsOwned(s) && OneOutstanding(s) && VerificationCodes(s)
    ensures VerificationCodes(Dispatch(s, call).state)
  {
    hide Dispatch, FreshIds, OneOutstanding, RowsOwned;
    var t := Dispatch(s, call).state;
    forall u | u in t.users && t.users[u].emailVerifiedAt.None?
      ensures exists id :: id in t.otps && Unconsumed(t.otps[id], u, EmailVerification)
    {
      UnverifiedHasCode(s, call, u);
    }
    forall id | id in t.otps && t.otps[id].userId in t.users
        && Unconsumed(t.otps[id], t.otps[id].userId, EmailVerification)
      ensures t.users[t.otps[id].userId].emailVerifiedAt.None?
    {
      CodeMeansUnverified(s, call, id);
    }
  }

  lemma RangesKept(s: State, call: Call)
    requires FreshIds(s) && OtpRowsInRange(s) && DrawnEarlier(s)
    ensures OtpRowsInRange(Dispatch(s, call).state) && DrawnEarlier(Dispatch(s, call).state)
  {
    hide Dispatch, UserRow, ReviewRow, Seconds, RetryAfterSec;
    var t := Dispatch(s, call).state;
    forall id | id in t.otps
      ensures t.otps[id].attempts <= OTP_MAX_ATTEMPTS && t.otps[id].createdAt <= t.clock
    {
      CallFollows(s, call, id, "");
    }
    forall id | id in t.sessions
      ensures t.sessions[id].refreshHash == id + 1 < t.nextId
    {
      CallFollows(s, call, id, "");
    }
    forall d | d in t.credentials && t.credentials[d].challenge.Some?
      ensures t.credentials[d].challenge.value < t.nextId
    {
      CallFollows(s, call, 0, d);
    }
  }

  /** Every call keeps the invariant. */
  lemma InvKept(s: State, call: Call)
    requires Inv(s)
    ensures Inv(Dispatch(s, call).state)
  {
    hide Dispatch, FreshIds, EmailsUnique, RowsOwned, OneOutstanding, VerificationCodes, OtpRowsInRange, DrawnEarlier;
    FreshIdsKept(s, call);
    EmailsKept(s, call);
    RowsOwnedKept(s, call);
    OneOutstandingKept(s, call);
    VerificationCodesKept(s, call);
    RangesKept(s, call);
  }

  /** What a method that carries out a call may use at its start, and owes at its end. */
  lemma KeptByCall(s: State, call: Call)
    requires Inv(s)
    ensures EmailsUnique(s) && RowsOwned(s) && OneOutstanding(s)
    ensures Inv(Dispatch(s, call).state)
  {
    hide Dispatch, Inv;
    InvParts(s);
    InvKept(s, call);
  }

  /** Time passing keeps it too. */
  lemma InvAdvances(s: State, delay: nat)
    requires Inv(s)
    ensures Inv(Advance(s, delay))
  {
    var t := Advance(s, delay);
    assert t.users == s.users && t.otps == s.otps && t.sessions == s.sessions;
    forall u | u in t.users && t.users[u].emailVerifiedAt.None?
      ensures exists id :: id in t.otps && Unconsumed(t.otps[id], u, EmailVerification)
    {
      var id :| id in s.otps && Unconsumed(s.otps[id], u, EmailVerification);
      assert id in t.otps && Unconsumed(t.otps[id], u, EmailVerification);
    }
  }

  lemma InvInit(processEnv: map<string, string>, epoch: nat)
    ensures Inv(Init(processEnv, epoch))
  {
  }

  /** The invariant holds along every run. */
  lemma {:induction false} Reachable(run: Run, n: nat)
    ensures Inv(StateAt(run, n)) && Inv(ServedIn(run, n))
  {
    hide Dispatch, Inv;
    if n > 0 {
      Reachable(run, n - 1);
      InvKept(ServedIn(run, n - 1), run.script(n - 1).call);
    } else {
      InvInit(run.processEnv, run.epoch);
    }
    InvAdvances(StateAt(run, n), run.script(n).delay);
  }

  /** Every request of a run is served in a state with fresh identifiers. */
  lemma {:induction false} RunIsFresh(run: Run, n: nat)
    ensures FreshIds(ServedIn(run, n))
  {
    hide Dispatch;
    Reachable(run, n);
  }

  /** What one request of a run does, row by row. */
  lemma {:induction false} RunFollows(run: Run, n: nat, k: nat, device: string)
    ensures Inv(ServedIn(run, n))
    ensures Follows(ServedIn(run, n), run.script(n).call, OutcomeAt(run, n), k, device)
    ensures StateAt(run, n + 1) == OutcomeAt(run, n).state
  {
    hide Dispatch, Follows, Inv;
    Reachable(run, n);
    InvParts(ServedIn(run, n));
    CallFollows(ServedIn(run, n), run.script(n).call, k, device);
  }
}
