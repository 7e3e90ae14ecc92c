// What the calls of the authentication service and the guard answer, and for which inputs: every answer in
// terms of the arguments and the rows, call by call, and of the history where a run is given.
module AnswerTheorems {
  import opened Wrappers
  import opened Text
  import opened SessionPolicy
  import opened Model
  import opened AuthCalls
  import opened Machine
  import opened Summaries
  import opened Invariants
  import opened ScanTheorems
  import opened OtpTheorems

  /** The call was refused with this error and wrote nothing. */
  predicate Refused(s: State, o: Outcome, error: Error) {
    o.reply == Rejected(error) && o.state == s && o.event == Quiet
  }

  ghost predicate Unheld(s: State, email: string) {
    forall u | u in s.users :: s.users[u].email != NormalizeEmail(email)
  }

  lemma HolderIsFound(s: State, email: string, u: nat)
    requires EmailsUnique(s) && Holds(s, u, email)
    ensures FindByEmail(s, email) == Some(u)
  {
    hide NormalizeEmail;
  }

  lemma NobodyIsFound(s: State, email: string)
    requires Unheld(s, email)
    ensures FindByEmail(s, email) == None
  {
    hide NormalizeEmail;
  }

  // ----- the tokens of an answer -----

  /**
   * The access token of the answer verifies from now on and carries the claims of the user row; the lifetime
   * answered is the one in force, and the one between its stamps.
   */
  predicate AnswersAccess(s: State, o: Outcome, u: nat) {
    && o.reply.Tokens? && u in s.users
    && var token := o.reply.access;
       && token.sub == u && token.email == s.users[u].email && token.role == s.users[u].role
       && token.iat == s.clock / 1000
       && o.reply.expiresInSec == token.exp - token.iat == AccessTtl(s)
       && o.state.issued == s.issued + {token}
  }

  /** A new session of the user, found by the refresh token of the answer. */
  predicate OpensSession(s: State, o: Outcome, u: nat, via: Option<Proof>) {
    && AnswersAccess(s, o, u)
    && var id := o.reply.access.sessionId;
       && id !in s.sessions && id in o.state.sessions
       && o.state.sessions[id].userId == u && o.state.sessions[id].refreshHash == o.reply.refreshToken
       && o.state.sessions[id].createdAt == o.state.sessions[id].lastUsedAt == s.clock
       && o.state.sessions[id].expiresAt == s.clock + InactivityTtlNow(s) * 1000
       && o.state.sessions[id].revokedAt.None?
       && (forall other | other in s.sessions ::
             other in o.state.sessions && o.state.sessions[other] == s.sessions[other])
       && o.event.SessionOpened? && o.event.session == id && o.event.user == u && o.event.token == o.reply.access
       && o.event.via == via
  }

  /** The session found by the refresh token that was presented, moved on; the same refresh token is answered. */
  predicate MovesSession(s: State, o: Outcome, refreshToken: nat, id: nat) {
    && id in s.sessions && id in o.state.sessions
    && AnswersAccess(s, o, s.sessions[id].userId)
    && o.reply.refreshToken == refreshToken == o.state.sessions[id].refreshHash
    && o.reply.access.sessionId == id
    && o.state.sessions[id].lastUsedAt == s.clock
    && o.state.sessions[id].expiresAt == s.clock + InactivityTtlNow(s) * 1000
    && o.state.sessions[id].userId == s.sessions[id].userId
    && o.state.sessions[id].createdAt == s.sessions[id].createdAt
    && o.state.sessions[id].revokedAt == s.sessions[id].revokedAt
    && (forall other | other in s.sessions && other != id ::
          other in o.state.sessions && o.state.sessions[other] == s.sessions[other])
    && o.event.SessionExtended? && o.event.session == id && o.event.token == o.reply.access
  }

  lemma CreatedSession(s: State, u: nat, via: Option<Proof>)
    requires FreshIds(s) && u in s.users
    ensures OpensSession(s, AuthCalls.CreateSession(s, u, s.users[u], via), u, via)
  {
    hide Seconds;
  }

  /** A login succeeds exactly for the active, verified holder of the address with the right password. */
  lemma LoginAnswers(s: State, email: string, password: string, u: nat)
    requires FreshIds(s) && EmailsUnique(s) && Holds(s, u, email)
    ensures var o, user := Dispatch(s, Call.Login(email, password)), s.users[u];
      if user.status != Active then Refused(s, o, UserDisabled)
      else if user.emailVerifiedAt.None? then Refused(s, o, EmailNotVerified)
      else if password != user.passwordHash then Refused(s, o, InvalidCredentials)
      else OpensSession(s, o, u, None)
  {
    hide Seconds, NormalizeEmail, AuthCalls.CreateSession, FindByEmail, OpensSession, FreshIds, EmailsUnique;
    HolderIsFound(s, email, u);
    CreatedSession(s, u, None);
  }

  /** Calls by an address nobody holds. */
  lemma UnheldAddress(s: State, email: string, code: string, text: string, emailOk: bool)
    requires Unheld(s, email)
    ensures Refused(s, Dispatch(s, Call.Login(email, text)), InvalidCredentials)
    ensures Refused(s, Dispatch(s, Call.VerifyEmail(email, text)), InvalidCredentials)
    ensures Refused(s, Dispatch(s, Call.ResendEmailOtp(email, code, emailOk)), InvalidCredentials)
    ensures Refused(s, Dispatch(s, Call.RequestPasswordReset(email, code, emailOk)), InvalidCredentials)
    ensures Refused(s, Dispatch(s, Call.ConfirmPasswordReset(email, code, text)), InvalidCredentials)
  {
    hide Seconds, NormalizeEmail, AuthCalls.CreateSession, FindByEmail, CheckOtp, RetryAfterSec, AuthCalls.IssueOtp,
      RevokeAll, Unheld;
    NobodyIsFound(s, email);
  }

  // ----- refresh and unlock -----

  /** Entry k of the page is the first that holds the refresh token. */
  predicate FirstHolding(s: State, refreshToken: nat, order: seq<nat>, k: nat) {
    && k < |order| && k < 50 && HoldsToken(s, refreshToken, order[k])
    && forall j | 0 <= j < k :: !HoldsToken(s, refreshToken, order[j])
  }

  predicate NoneHolding(s: State, refreshToken: nat, order: seq<nat>) {
    forall k | 0 <= k < |order| && k < 50 :: !HoldsToken(s, refreshToken, order[k])
  }

  lemma PageFinds(s: State, refreshToken: nat, order: seq<nat>, k: nat)
    ensures FirstHolding(s, refreshToken, order, k) ==> FindSession(s, refreshToken, Page(order)) == Some(order[k])
    ensures NoneHolding(s, refreshToken, order) ==> FindSession(s, refreshToken, Page(order)) == None
  {
    if FirstHolding(s, refreshToken, order, k) {
      FoundIsFirst(s, refreshToken, Page(order), k);
    }
    if NoneHolding(s, refreshToken, order) {
      FoundIsFirst(s, refreshToken, Page(order), |Page(order)|);
    }
  }

  lemma MovedSession(s: State, refreshToken: nat, id: nat)
    requires HoldsToken(s, refreshToken, id) && s.sessions[id].userId in s.users
    ensures MovesSession(s, AuthCalls.Extend(s, id), refreshToken, id)
  {
    hide Seconds;
  }

  /**
   * A refresh is decided by the first session of the page that holds its token: the owner's status, their
   * verification, the PIN and the inactivity under the policy in force, in this order.
   */
  lemma RefreshAnswers(s: State, refreshToken: nat, pin: string, order: seq<nat>, k: nat)
    requires IsNewestFirst(s, order) && RowsOwned(s) && FirstHolding(s, refreshToken, order, k)
    ensures var o, row := Dispatch(s, Call.Refresh(refreshToken, pin, order)), s.sessions[order[k]];
      var user := s.users[row.userId];
      if user.status != Active then Refused(s, o, UserDisabled)
      else if user.emailVerifiedAt.None? then Refused(s, o, EmailNotVerified)
      else if pin != user.pinHash then Refused(s, o, InvalidPin)
      else if s.clock - row.lastUsedAt > InactivityTtlNow(s) * 1000 then Refused(s, o, SessionInactive)
      else MovesSession(s, o, refreshToken, order[k])
  {
    hide Seconds, AuthCalls.Extend, IsNewestFirst, FindSession, MovesSession, FirstHolding;
    PageFinds(s, refreshToken, order, k);
    ScanAgreesWithFind(s, refreshToken, pin, Page(order));
    assert HoldsToken(s, refreshToken, order[k]) by { HeldByFirst(s, refreshToken, order, k); }
    MovedSession(s, refreshToken, order[k]);
  }

  lemma HeldByFirst(s: State, refreshToken: nat, order: seq<nat>, k: nat)
    requires FirstHolding(s, refreshToken, order, k)
    ensures k < |order| && HoldsToken(s, refreshToken, order[k])
  {
  }

  /** An unlock, by the same session: the PIN comes first. */
  lemma UnlockAnswers(s: State, refreshToken: nat, pin: string, order: seq<nat>, k: nat)
    requires IsNewestFirst(s, order) && RowsOwned(s) && FirstHolding(s, refreshToken, order, k)
    ensures var o, row := Dispatch(s, Call.UnlockWithPin(refreshToken, pin, order)), s.sessions[order[k]];
      var user := s.users[row.userId];
      if pin != user.pinHash then Refused(s, o, InvalidPin)
      else if user.status != Active then Refused(s, o, UserDisabled)
      else if user.emailVerifiedAt.None? then Refused(s, o, EmailNotVerified)
      else if s.clock - row.lastUsedAt > InactivityTtlNow(s) * 1000 then Refused(s, o, SessionInactive)
      else MovesSession(s, o, refreshToken, order[k])
  {
    hide Seconds, AuthCalls.Extend, IsNewestFirst, FindSession, MovesSession, FirstHolding;
    PageFinds(s, refreshToken, order, k);
    assert HoldsToken(s, refreshToken, order[k]) by { HeldByFirst(s, refreshToken, order, k); }
    MovedSession(s, refreshToken, order[k]);
  }

  /** Without such a session both are refused. */
  lemma UnknownToken(s: State, refreshToken: nat, pin: string, order: seq<nat>)
    requires IsNewestFirst(s, order) && NoneHolding(s, refreshToken, order)
    ensures Refused(s, Dispatch(s, Call.Refresh(refreshToken, pin, order)), InvalidRefreshToken)
    ensures Refused(s, Dispatch(s, Call.UnlockWithPin(refreshToken, pin, order)), InvalidRefreshToken)
  {
    hide Seconds, AuthCalls.Extend, IsNewestFirst, FindSession, NoneHolding;
    PageFinds(s, refreshToken, order, 0);
    ScanAgreesWithFind(s, refreshToken, pin, Page(order));
  }

  // ----- an answered refresh token over a run -----

  /** The request answered this refresh token for this session. */
  predicate Answered(o: Outcome, refreshToken: nat, id: nat) {
    o.reply.Tokens? && o.reply.refreshToken == refreshToken && o.reply.access.sessionId == id
  }

  lemma AnswerNamesSession(s: State, call: Call, refreshToken: nat, id: nat)
    requires Inv(s) && Answered(Dispatch(s, call), refreshToken, id)
    ensures var t := Dispatch(s, call).state; id in t.sessions && t.sessions[id].refreshHash == refreshToken
  {
    hide Dispatch, Inv;
    match call {
      case Refresh(token, pin, order) => RefreshNames(s, token, pin, order);
      case UnlockWithPin(token, pin, order) => UnlockNames(s, token, pin, order);
      case Login(_, _) => OpeningNames(s, call);
      case LoginWithBiometric(_, _, _) => OpeningNames(s, call);
      case _ => NoTokens(s, call);
    }
  }

  predicate AnswersTokens(call: Call) {
    call.Refresh? || call.UnlockWithPin? || call.Login? || call.LoginWithBiometric?
  }

  /** No other call answers tokens. */
  lemma NoTokens(s: State, call: Call)
    requires !AnswersTokens(call)
    ensures !Dispatch(s, call).reply.Tokens?
  {
    hide Seconds, NormalizeEmail, IsNewestFirst, CheckOtp, FindByEmail, RetryAfterSec, RevokeAll, AuthCalls.IssueOtp,
      Upserts, AuthCalls.Refresh, AuthCalls.UnlockWithPin, AuthCalls.Login, AuthCalls.LoginWithBiometric;
  }

  lemma RefreshNames(s: State, token: nat, pin: string, order: seq<nat>)
    requires Dispatch(s, Call.Refresh(token, pin, order)).reply.Tokens?
    ensures NamesSession(Dispatch(s, Call.Refresh(token, pin, order)))
  {
    hide Seconds, RefreshScan, RefusedOrExtended, IsNewestFirst;
    ScanOutcome(s, token, pin, Page(order));
    ExtensionNames(s, Dispatch(s, Call.Refresh(token, pin, order)), token, pin, Page(order));
  }

  lemma UnlockNames(s: State, token: nat, pin: string, order: seq<nat>)
    requires Dispatch(s, Call.UnlockWithPin(token, pin, order)).reply.Tokens?
    ensures NamesSession(Dispatch(s, Call.UnlockWithPin(token, pin, order)))
  {
    hide Seconds, AuthCalls.UnlockWithPin, RefusedOrExtended, IsNewestFirst;
    UnlockOutcome(s, token, pin, order);
    ExtensionNames(s, Dispatch(s, Call.UnlockWithPin(token, pin, order)), token, pin, Page(order));
  }

  lemma OpeningNames(s: State, call: Call)
    requires (call.Login? || call.LoginWithBiometric?) && Dispatch(s, call).reply.Tokens?
    ensures NamesSession(Dispatch(s, call))
  {
    hide Seconds, NormalizeEmail, FindByEmail, Matches, ChallengeAccepted;
  }

  /** The tokens answered are those of one session row. */
  predicate NamesSession(o: Outcome) {
    o.reply.Tokens? && o.reply.access.sessionId in o.state.sessions
    && o.state.sessions[o.reply.access.sessionId].refreshHash == o.reply.refreshToken
  }

  lemma ExtensionNames(s: State, o: Outcome, refreshToken: nat, pin: string, page: seq<nat>)
    requires RefusedOrExtended(s, o, refreshToken, pin, page) && o.reply.Tokens?
    ensures NamesSession(o) && o.reply.refreshToken == refreshToken
  {
    hide Seconds;
  }

  lemma HashStep(s: State, call: Call, id: nat)
    requires FreshIds(s) && id < s.nextId && id in Dispatch(s, call).state.sessions
    ensures id in s.sessions && Dispatch(s, call).state.sessions[id].refreshHash == s.sessions[id].refreshHash
  {
    hide Dispatch, UserRow, OtpRow, DeviceRow, ReviewRow, Seconds;
    CallFollows(s, call, id, "");
  }

  lemma {:induction false} HashStays(run: Run, id: nat, i: nat, n: nat)
    requires i <= n && id in StateAt(run, i).sessions && id in StateAt(run, n).sessions
    ensures StateAt(run, n).sessions[id].refreshHash == StateAt(run, i).sessions[id].refreshHash
    decreases n
  {
    hide Dispatch, Inv, FreshIds;
    if i < n {
      RunIsFresh(run, n - 1);
      IdDrawn(run, id, i, n - 1);
      HashStep(ServedIn(run, n - 1), run.script(n - 1).call, id);
      HashStays(run, id, i, n - 1);
    }
  }

  lemma {:induction false} IdDrawn(run: Run, id: nat, i: nat, n: nat)
    requires i <= n && id in StateAt(run, i).sessions
    ensures id < StateAt(run, n).nextId
    decreases n
  {
    hide Dispatch, Inv, EventFacts, UserRow, SessionRow, OtpRow, ReviewRow, DeviceRow;
    if i < n {
      IdDrawn(run, id, i, n - 1);
      RunFollows(run, n - 1, 0, "");
    } else {
      Reachable(run, i);
      InvParts(StateAt(run, i));
    }
  }

  /**
   * A refresh token that was answered, by a login, a refresh or an unlock, finds its session and no other when it
   * is presented later: as long as the session is live, exactly if fewer than fifty live sessions precede it.
   */
  lemma {:induction false} AnsweredTokenFinds(run: Run, i: nat, n: nat, refreshToken: nat, id: nat, order: seq<nat>,
      k: nat)
    requires i < n && Answered(OutcomeAt(run, i), refreshToken, id)
    requires IsNewestFirst(ServedIn(run, n), order) && At(order, id, k)
    ensures FindSession(ServedIn(run, n), refreshToken, Page(order)) == if k < 50 then Some(id) else None
  {
    hide Dispatch, Inv, FindSession, Answered;
    Reachable(run, i);
    AnswerNamesSession(ServedIn(run, i), run.script(i).call, refreshToken, id);
    assert StateAt(run, i + 1) == OutcomeAt(run, i).state;
    TruncatedScanFinds(run, n, order, id, k);
    HashStays(run, id, i + 1, n);
  }

  // ----- what a caller may rely on -----

  /** Tokens of a login mean an active, verified holder and the right password. */
  lemma LoginNeeds(s: State, email: string, password: string)
    requires Dispatch(s, Call.Login(email, password)).reply.Tokens?
    ensures exists u :: Holds(s, u, email) && ActiveVerified(s.users[u]) && password == s.users[u].passwordHash
  {
    hide Seconds, NormalizeEmail, FindByEmail, AuthCalls.CreateSession;
    var u := FindByEmail(s, email).value;
    assert Holds(s, u, email);
  }

  /** Tokens of a refresh or unlock carry the refresh token presented and need the owner's PIN. */
  lemma RefreshNeeds(s: State, call: Call, token: nat, pin: string, order: seq<nat>)
    requires call == Call.Refresh(token, pin, order) || call == Call.UnlockWithPin(token, pin, order)
    requires Dispatch(s, call).reply.Tokens?
    ensures Dispatch(s, call).reply.refreshToken == token
    ensures var id := Dispatch(s, call).reply.access.sessionId;
      HoldsToken(s, token, id) && s.sessions[id].userId in s.users && pin == s.users[s.sessions[id].userId].pinHash
  {
    hide Seconds, RefreshScan, AuthCalls.UnlockWithPin, IsNewestFirst, RefusedOrExtended;
    ScanOutcome(s, token, pin, Page(order));
    UnlockOutcome(s, token, pin, order);
    ExtensionNeeds(s, Dispatch(s, call), token, pin, Page(order));
  }

  lemma ExtensionNeeds(s: State, o: Outcome, token: nat, pin: string, page: seq<nat>)
    requires RefusedOrExtended(s, o, token, pin, page) && o.reply.Tokens?
    ensures o.reply.refreshToken == token
    ensures var id := o.reply.access.sessionId;
      HoldsToken(s, token, id) && s.sessions[id].userId in s.users && pin == s.users[s.sessions[id].userId].pinHash
  {
    hide Seconds;
  }

  /** A reset request that is not refused stores the code it drew. */
  lemma ResetRequestStores(s: State, email: string, code: string, emailOk: bool)
    requires Dispatch(s, Call.RequestPasswordReset(email, code, emailOk)).event.CodeIssued?
    ensures var o := Dispatch(s, Call.RequestPasswordReset(email, code, emailOk));
      var id := o.event.otp;
      id in o.state.otps && o.state.otps[id].codeHash == code && o.state.otps[id].purpose == PasswordReset
      && Holds(s, o.state.otps[id].userId, email)
  {
    hide Seconds, NormalizeEmail, FindByEmail, ConsumeOutstanding;
  }

  // ----- the guard -----

  /** Which of its four refusals the guard gives. */
  lemma GuardAnswers(s: State, presented: Option<AccessToken>)
    ensures var o := Dispatch(s, Call.Guard(presented));
      if presented.None? then Refused(s, o, MissingToken)
      else
        var token := presented.value;
        if token !in s.issued then Refused(s, o, InvalidToken)
        else if s.clock / 1000 >= token.exp then Refused(s, o, TokenExpired)
        else if token.sessionId !in s.sessions || s.sessions[token.sessionId].userId != token.sub
                || s.sessions[token.sessionId].revokedAt.Some? || s.sessions[token.sessionId].expiresAt <= s.clock
                || s.clock - s.sessions[token.sessionId].lastUsedAt > InactivityTtlNow(s) * 1000
        then Refused(s, o, SessionInactive)
        else o.state == s && o.reply == Granted(token.sub, token.email, token.sessionId, token.role)
  {
    hide Seconds;
  }

  // ----- codes -----

  /** The code is stored, and answered by a cooldown or a failure of the mail. */
  predicate IssuesCode(s: State, o: Outcome, u: nat, purpose: Purpose, code: string, emailOk: bool, id: nat) {
    && id !in s.otps && id in o.state.otps
    && o.state.otps[id].userId == u && o.state.otps[id].purpose == purpose && o.state.otps[id].codeHash == code
    && o.state.otps[id].createdAt == s.clock && o.state.otps[id].expiresAt == s.clock + 600000
    && o.state.otps[id].attempts == 0 && o.state.otps[id].consumedAt.None?
    && o.reply == (if emailOk then OtpChallenge(60) else Rejected(EmailFailed))
    && o.state.sessions == s.sessions
  }

  /** Registration: one unverified first-tier user with these credentials, and one code with this text. */
  lemma RegisterAnswers(s: State, email: string, password: string, pin: string, code: string, emailOk: bool)
    requires FreshIds(s)
    ensures var o := Dispatch(s, Call.Register(email, password, pin, code, emailOk));
      if !Unheld(s, email) then Refused(s, o, EmailTaken)
      else
        && o.event.UserRegistered? && o.event.user !in s.users && o.event.user in o.state.users
        && (var user := o.state.users[o.event.user];
            && user.email == NormalizeEmail(email) && user.passwordHash == password && user.pinHash == pin
            && user.emailVerifiedAt.None? && user.status == Active && user.role == RoleUser && user.tier == Tier1
            && user.dailyLimitXaf == user.monthlyLimitXaf == "0")
        && (forall other | other in s.users :: other in o.state.users && o.state.users[other] == s.users[other])
        && IssuesCode(s, o, o.event.user, EmailVerification, code, emailOk, o.event.otp)
  {
    hide Seconds, NormalizeEmail, FindByEmail;
    if Unheld(s, email) {
      NobodyIsFound(s, email);
    }
  }

  lemma ResendAnswers(s: State, email: string, code: string, emailOk: bool, u: nat)
    requires FreshIds(s) && EmailsUnique(s) && Holds(s, u, email)
    ensures var o, wait := Dispatch(s, Call.ResendEmailOtp(email, code, emailOk)),
        RetryAfterSec(s, u, EmailVerification);
      if s.users[u].emailVerifiedAt.Some? then Refused(s, o, AlreadyVerified)
      else if wait > 0 then o.state == s && o.reply == OtpChallenge(wait) && o.event == Quiet
      else o.state.users == s.users && o.event.CodeIssued?
           && IssuesCode(s, o, u, EmailVerification, code, emailOk, o.event.otp)
  {
    hide Seconds, NormalizeEmail, FindByEmail, RetryAfterSec;
    HolderIsFound(s, email, u);
  }

  lemma RequestResetAnswers(s: State, email: string, code: string, emailOk: bool, u: nat)
    requires FreshIds(s) && EmailsUnique(s) && Holds(s, u, email)
    ensures var o := Dispatch(s, Call.RequestPasswordReset(email, code, emailOk));
      o.state.users == s.users && o.event.CodeIssued?
      && IssuesCode(s, o, u, PasswordReset, code, emailOk, o.event.otp)
  {
    hide Seconds, NormalizeEmail, FindByEmail;
    HolderIsFound(s, email, u);
  }

  /** The answered wait is the rest of the minute after the outstanding code, in whole seconds rounded up. */
  lemma WaitIsRestOfMinute(s: State, u: nat, purpose: Purpose, id: nat)
    requires OneOutstanding(s) && OtpRowsInRange(s) && id in s.otps && Unconsumed(s.otps[id], u, purpose)
    ensures var wait, age := RetryAfterSec(s, u, purpose), s.clock - s.otps[id].createdAt;
      if age >= 60000 then wait == 0 else (wait - 1) * 1000 < 60000 - age <= wait * 1000
  {
    OnlyCandidate(s, Outstanding(s, u, purpose), u, purpose, id);
  }

  /** The text matches the code of this row, which is outstanding, unexpired and has attempts left. */
  predicate Usable(s: State, u: nat, purpose: Purpose, id: nat) {
    && id in s.otps && s.otps[id].userId == u && s.otps[id].purpose == purpose && s.otps[id].consumedAt.None?
    && s.clock < s.otps[id].expiresAt && s.otps[id].attempts < 5
  }

  /** A row in which nothing but these two columns changed. */
  predicate CodeRow(s: State, t: State, id: nat, consumedAt: Option<nat>, attempts: nat) {
    && id in s.otps
    && t.otps == s.otps[id := s.otps[id].(consumedAt := consumedAt, attempts := attempts)]
  }

  lemma UsableIsChecked(s: State, u: nat, purpose: Purpose, text: string, id: nat)
    requires OneOutstanding(s)
    ensures Usable(s, u, purpose, id) && Trim(text) == s.otps[id].codeHash ==>
        CheckOtp(s, u, purpose, text) == Right(id)
    ensures Usable(s, u, purpose, id) && Trim(text) != s.otps[id].codeHash ==>
        CheckOtp(s, u, purpose, text) == Wrong(id)
    ensures (forall k :: !Usable(s, u, purpose, k)) ==> CheckOtp(s, u, purpose, text) == NoCode
  {
    hide Trim;
    if Usable(s, u, purpose, id) {
      OnlyCandidate(s, Unexpired(s, u, purpose), u, purpose, id);
    }
    var c := CheckOtp(s, u, purpose, text);
    assert !c.NoCode? ==> Usable(s, u, purpose, c.id);
  }

  /** The verification of an address: by its usable code, whose failures cost attempts. */
  lemma VerifyAnswers(s: State, email: string, text: string, u: nat, id: nat)
    requires EmailsUnique(s) && OneOutstanding(s) && Holds(s, u, email)
    ensures var o := Dispatch(s, Call.VerifyEmail(email, text));
      && ((forall k :: !Usable(s, u, EmailVerification, k)) ==> Refused(s, o, InvalidOtp))
      && (Usable(s, u, EmailVerification, id) ==>
            if Trim(text) != s.otps[id].codeHash then
              o.reply == Rejected(InvalidOtp) && CodeRow(s, o.state, id, None, s.otps[id].attempts + 1)
              && o.state == s.(otps := o.state.otps)
            else
              && o.reply == Done && CodeRow(s, o.state, id, Some(s.clock), s.otps[id].attempts)
              && o.state == s.(otps := o.state.otps, users := o.state.users)
              && o.state.users == s.users[u := s.users[u].(emailVerifiedAt := o.state.users[u].emailVerifiedAt)]
              && o.state.users[u].emailVerifiedAt
                 == (if s.users[u].emailVerifiedAt.Some? then s.users[u].emailVerifiedAt else Some(s.clock)))
  {
    hide Seconds, NormalizeEmail, FindByEmail, CheckOtp, Trim, EmailsUnique, OneOutstanding;
    HolderIsFound(s, email, u);
    UsableIsChecked(s, u, EmailVerification, text, id);
  }

  /** The password reset: by the usable reset code; the new password is stored and every session revoked. */
  lemma ResetAnswers(s: State, email: string, text: string, newPassword: string, u: nat, id: nat)
    requires EmailsUnique(s) && OneOutstanding(s) && Holds(s, u, email)
    ensures var o := Dispatch(s, Call.ConfirmPasswordReset(email, text, newPassword));
      && ((forall k :: !Usable(s, u, PasswordReset, k)) ==> Refused(s, o, InvalidOtp))
      && (Usable(s, u, PasswordReset, id) ==>
            if Trim(text) != s.otps[id].codeHash then
              o.reply == Rejected(InvalidOtp) && CodeRow(s, o.state, id, None, s.otps[id].attempts + 1)
              && o.state == s.(otps := o.state.otps)
            else
              && o.reply == Done && CodeRow(s, o.state, id, Some(s.clock), s.otps[id].attempts)
              && o.state == s.(otps := o.state.otps, users := o.state.users, sessions := o.state.sessions)
              && o.state.users == s.users[u := s.users[u].(passwordHash := newPassword)])
  {
    hide Seconds, NormalizeEmail, FindByEmail, CheckOtp, Trim, EmailsUnique, OneOutstanding, RevokeAll;
    HolderIsFound(s, email, u);
    UsableIsChecked(s, u, PasswordReset, text, id);
  }

  // ----- biometric devices -----

  /** Enrolment: by the owner's PIN, on a device no other user holds. */
  lemma EnrolAnswers(s: State, u: nat, pin: string, device: string, publicKey: string)
    ensures var o := Dispatch(s, Call.RegisterBiometric(u, pin, device, publicKey));
      if u !in s.users then Refused(s, o, UserNotFound)
      else if pin != s.users[u].pinHash then Refused(s, o, InvalidPin)
      else if device in s.credentials && s.credentials[device].userId != u then Refused(s, o, DeviceTaken)
      else
        && o.reply == Done && o.state == s.(credentials := o.state.credentials)
        && device in o.state.credentials
        && o.state.credentials == s.credentials[device := o.state.credentials[device]]
        && (var row := o.state.credentials[device];
            && row.userId == u && row.publicKey == publicKey && row.enabled
            && row.challenge.None? && row.challengeExpiresAt.None?)
  {
    hide Seconds;
  }

  /** A setting: by the owner of the device; it is stored and the challenge is dropped. */
  lemma SettingAnswers(s: State, u: nat, device: string, enabled: bool)
    ensures var o := Dispatch(s, Call.UpdateBiometricSetting(u, device, enabled));
      if device !in s.credentials || s.credentials[device].userId != u then Refused(s, o, DeviceNotFound)
      else
        && o.reply == Done && o.state == s.(credentials := o.state.credentials)
        && device in o.state.credentials
        && o.state.credentials == s.credentials[device := o.state.credentials[device]]
        && (var row := o.state.credentials[device];
            && row.userId == u && row.publicKey == s.credentials[device].publicKey && row.enabled == enabled
            && row.challenge.None? && row.challengeExpiresAt.None?)
  {
    hide Seconds;
  }

  /** A challenge: for an enabled device of an active, verified user; the one answered is the one stored. */
  lemma ChallengeAnswers(s: State, device: string)
    requires FreshIds(s) && RowsOwned(s)
    ensures var o := Dispatch(s, Call.CreateBiometricChallenge(device));
      if device !in s.credentials || !s.credentials[device].enabled then Refused(s, o, DeviceNotEnabled)
      else
        var user := s.users[s.credentials[device].userId];
        if user.status != Active then Refused(s, o, UserDisabled)
        else if user.emailVerifiedAt.None? then Refused(s, o, EmailNotVerified)
        else
          && o.reply.Challenge? && device in o.state.credentials
          && o.state.credentials == s.credentials[device := o.state.credentials[device]]
          && o.state.credentials[device] == s.credentials[device].(challenge := Some(o.reply.challenge),
                                                                   challengeExpiresAt := Some(s.clock + 300000))
          && o.state == s.(credentials := o.state.credentials, nextId := o.state.nextId)
  {
    hide Seconds;
  }

  /**
   * A biometric login succeeds exactly for an enabled device that stores this challenge, unexpired, with a good
   * signature, whose owner is active and verified; the challenge is used up.
   */
  lemma BiometricLoginAnswers(s: State, device: string, challenge: nat, signatureOk: bool)
    requires FreshIds(s) && RowsOwned(s)
    ensures var o := Dispatch(s, Call.LoginWithBiometric(device, challenge, signatureOk));
      if device !in s.credentials || !s.credentials[device].enabled
         || s.credentials[device].challenge != Some(challenge)
         || s.credentials[device].challengeExpiresAt.None? || s.credentials[device].challengeExpiresAt.value <= s.clock
      then Refused(s, o, InvalidChallenge)
      else if !signatureOk then Refused(s, o, InvalidSignature)
      else
        var u := s.credentials[device].userId;
        if s.users[u].status != Active then Refused(s, o, UserDisabled)
        else if s.users[u].emailVerifiedAt.None? then Refused(s, o, EmailNotVerified)
        else
          && OpensSession(s, o, u, Some(Proof(device, challenge)))
          && device in o.state.credentials
          && o.state.credentials == s.credentials[device := o.state.credentials[device]]
          && o.state.credentials[device] == s.credentials[device].(challenge := None, challengeExpiresAt := None)
  {
    hide Seconds;
  }
}
