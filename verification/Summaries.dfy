// What one step can do to each row, whichever call it was. `Follows` is proved call by call; the theorems
// about runs use only what it says.
module Summaries {
  import opened Wrappers
  import opened Text
  import opened SessionPolicy
  import opened Model
  import opened AuthCalls
  import A = AuthCalls
  import M = AdminCalls
  import opened Machine

  /** Keys come from the counter, so the next one is not in use. */
  ghost predicate FreshIds(s: State) {
    && (forall id | id in s.users :: id < s.nextId)
    && (forall id | id in s.sessions :: id < s.nextId)
    && (forall id | id in s.otps :: id < s.nextId)
    && (forall id | id in s.submissions :: id < s.nextId)
  }

  ghost predicate MovesForward(s: State, t: State) {
    t.nextId >= s.nextId && t.clock == s.clock && t.processEnv == s.processEnv
  }

  // ----- users -----

  predicate VerifiesEmail(e: Event, u: nat) {
    e.CodeCompared? && e.ok && e.purpose == EmailVerification && e.user == u
  }

  /** The call names the user and sets their tier. */
  predicate EditsTier(call: Call, u: nat) {
    match call
    case UpdateUser(id, _, _, _, tier) => id == u && tier.Some?
    case UpdateUserLimits(id, tier, _, _) => id == u && tier.Some?
    case _ => false
  }

  /** No other user holds the address. */
  ghost predicate EmailFree(s: State, u: nat, email: string) {
    forall v | v in s.users && v != u :: s.users[v].email != email
  }

  ghost predicate UserKept(s: State, call: Call, o: Outcome, before: User, after: User, u: nat) {
    var e := o.event;
    && (after.email == before.email || (call.UpdateUser? && call.id == u && e.Quiet? && EmailFree(s, u, after.email)))
    && (if VerifiesEmail(e, u) then after.emailVerifiedAt.Some? else after.emailVerifiedAt == before.emailVerifiedAt)
    && (e == UserSuspended(u) ==> after.status == Disabled)
    && (after.tier == before.tier || (EditsTier(call, u) && o.reply.Done?) || (e.TierPromoted? && e.user == u))
    && (e.TierPromoted? && e.user == u ==> after.tier == Tier2)
  }

  ghost predicate UserRow(s: State, call: Call, o: Outcome, u: nat) {
    var before, after, e := s.users, o.state.users, o.event;
    if (e.UserRegistered? || e.UserCreated?) && e.user == u then
      u !in before && u in after && EmailFree(s, u, after[u].email)
      && (after[u].emailVerifiedAt.Some? <==> e.UserCreated?)
      && (e.UserRegistered? ==> after[u].tier == Tier1)
    else if e.UserDeleted? && e.user == u then u in before && u !in after
    else (u in after <==> u in before) && (u in before ==> UserKept(s, call, o, before[u], after[u], u))
  }

  // ----- sessions -----

  /** Same row, except that it may just have been revoked. */
  predicate SameOrRevoked(before: Session, after: Session, now: nat) {
    after == before || (before.revokedAt.None? && after == before.(revokedAt := Some(now)))
  }

  predicate SessionRow(s: State, o: Outcome, id: nat) {
    var before, after, e := s.sessions, o.state.sessions, o.event;
    if e.SessionOpened? && e.session == id then
      id !in before && id in after
      && after[id] == Session(e.user, id + 1, s.clock, s.clock, s.clock + e.ttlSec * 1000, None)
    else if e.SessionExtended? && e.session == id then
      id in before && id in after
      && after[id] == before[id].(lastUsedAt := s.clock, expiresAt := s.clock + e.ttlSec * 1000)
    else
      && (id in after <==> id in before && !(e.UserDeleted? && before[id].userId == e.user))
      && (id in after ==> SameOrRevoked(before[id], after[id], s.clock))
      && (id in after && e.UserSuspended? && before[id].userId == e.user ==> after[id].revokedAt.Some?)
  }

  // ----- one-time codes -----

  predicate OtpRow(s: State, o: Outcome, id: nat) {
    var before, after, e := s.otps, o.state.otps, o.event;
    match e
    case UserRegistered(u, k) => IssuedRow(s, o, id, k, u, EmailVerification)
    case CodeIssued(k, u, purpose) => IssuedRow(s, o, id, k, u, purpose)
    case CodeCompared(k, _, _, ok) =>
      (id in after <==> id in before)
      && (id in before ==> after[id] == if id != k then before[id]
                                        else if ok then before[id].(consumedAt := Some(s.clock))
                                        else before[id].(attempts := before[id].attempts + 1))
    case UserDeleted(u, _) =>
      (id in after <==> id in before && before[id].userId != u) && (id in after ==> after[id] == before[id])
    case _ => (id in after <==> id in before) && (id in before ==> after[id] == before[id])
  }

  /** Code k is added; every outstanding code of the user and purpose is consumed; the rest is unchanged. */
  predicate IssuedRow(s: State, o: Outcome, id: nat, k: nat, u: nat, purpose: Purpose) {
    var before, after := s.otps, o.state.otps;
    if id == k then
      id !in before && id in after
      && after[id] == Otp(u, purpose, after[id].codeHash, s.clock, s.clock + OTP_TTL_MS, None, 0)
    else
      (id in after <==> id in before)
      && (id in before ==> after[id] == if Unconsumed(before[id], u, purpose)
                                        then before[id].(consumedAt := Some(s.clock)) else before[id])
  }

  // ----- biometric devices -----

  /** The event enrolled, changed, challenged, used up or removed this device. */
  predicate Touches(e: Event, device: string) {
    match e
    case DeviceEnrolled(d, _) => d == device
    case DeviceChanged(d) => d == device
    case ChallengeIssued(d, _) => d == device
    case SessionOpened(_, _, _, _, via) => via.Some? && via.value.device == device
    case UserDeleted(_, devices) => device in devices
    case _ => false
  }

  predicate DeviceRow(s: State, o: Outcome, device: string) {
    var before, after, e := s.credentials, o.state.credentials, o.event;
    if !Touches(e, device) then
      (device in after <==> device in before)
      && (device in before ==> after[device] == before[device] && !(e.UserDeleted? && before[device].userId == e.user))
    else if e.UserDeleted? then device in before && before[device].userId == e.user && device !in after
    else
      && device in after && (device in before ==> after[device].userId == before[device].userId)
      && (if e.ChallengeIssued? then
            device in before && after[device].challenge == Some(e.challenge)
            && after[device].challengeExpiresAt == Some(s.clock + CHALLENGE_TTL_MS)
          else after[device].challenge.None?)
      && (e.DeviceEnrolled? ==> after[device].userId == e.user)
      && (e.SessionOpened? ==> ChallengeAccepted(s, device, e.via.value.challenge) && before[device].userId == e.user)
      && (e.DeviceChanged? ==> device in before)
  }

  // ----- review -----

  predicate ReviewRow(s: State, o: Outcome, id: nat) {
    var before, after, e := s.submissions, o.state.submissions, o.event;
    if e.TierPromoted? && e.submission == id then
      id in before && before[id].review == Pending && before[id].userId == e.user
      && id in after && after[id].review == Approved && after[id].userId == e.user
    else
      && (id in before ==> (id in after <==> !(e.UserDeleted? && before[id].userId == e.user)))
      && (id in before && id in after ==>
            after[id] == before[id]
            || (before[id].review == Pending && after[id].review == RejectedReview
                && after[id].userId == before[id].userId))
      && (id in after && id !in before ==>
            s.nextId <= id < o.state.nextId && after[id].review == Pending && after[id].userId in s.users && e.Quiet?)
  }

  // ----- the event itself -----

  /** What must have held for the event to happen, and what it did to the signed tokens. */
  ghost predicate EventFacts(s: State, o: Outcome) {
    var t, e := o.state, o.event;
    && (if e.SessionOpened? || e.SessionExtended? then
          && e.user in s.users && ActiveVerified(s.users[e.user])
          && e.token == Sign(s, e.user, s.users[e.user], e.session) && e.ttlSec == InactivityTtlNow(s)
          && t.issued == s.issued + {e.token} && t.users == s.users && t.env == s.env
        else t.issued == s.issued)
    && match e
       case UserRegistered(u, otp) => u == s.nextId && otp == u + 1 && t.nextId == u + 2
       case UserCreated(u) => u == s.nextId && t.nextId == u + 1
       case SessionOpened(id, _, _, _, _) => id == s.nextId && t.nextId == id + 2
       case SessionExtended(id, u, _, _) =>
         Live(s, id) && s.sessions[id].userId == u && WithinInactivity(s, s.sessions[id].lastUsedAt)
       case CodeIssued(id, u, purpose) =>
         && id == s.nextId && t.nextId == id + 1 && u in s.users && purpose != PinReset
         && (purpose == EmailVerification ==>
               s.users[u].emailVerifiedAt.None? && RetryAfterSec(s, u, EmailVerification) == 0)
       case CodeCompared(id, u, purpose, ok) =>
         && u in s.users && purpose != PinReset
         && Selectable(s, u, purpose, id) && s.otps[id].attempts < OTP_MAX_ATTEMPTS
       case RequestAccepted(token) =>
         && token in s.issued && s.clock / 1000 < token.exp
         && Live(s, token.sessionId) && s.sessions[token.sessionId].userId == token.sub
         && WithinInactivity(s, s.sessions[token.sessionId].lastUsedAt)
         && o.reply == Granted(token.sub, token.email, token.sessionId, token.role)
       case DeviceEnrolled(_, u) => u in s.users
       case ChallengeIssued(_, c) => c == s.nextId && t.nextId == c + 1
       case TierPromoted(_, u) => u in s.users
       case _ => true
  }

  predicate Extendable(s: State, id: nat, refreshToken: nat, pin: string) {
    && id in s.sessions
    && s.sessions[id].refreshHash == refreshToken
    && s.sessions[id].userId in s.users
    && ActiveVerified(s.users[s.sessions[id].userId])
    && Matches(pin, s.users[s.sessions[id].userId].pinHash)
    && WithinInactivity(s, s.sessions[id].lastUsedAt)
  }

  /** A refusal that changes nothing, or one session of the page that passed every check is extended. */
  ghost predicate RefusedOrExtended(s: State, o: Outcome, refreshToken: nat, pin: string, page: seq<nat>) {
    || (o.reply.Rejected? && o == Fail(s, o.reply.error))
    || (exists id :: id in page && Extendable(s, id, refreshToken, pin) && o == Extend(s, id))
  }

  lemma {:induction false} ScanOutcome(s: State, refreshToken: nat, pin: string, page: seq<nat>)
    ensures RefusedOrExtended(s, RefreshScan(s, refreshToken, pin, page), refreshToken, pin, page)
  {
    hide Seconds, Extend;
    if page != [] {
      ScanOutcome(s, refreshToken, pin, page[1..]);
    }
  }

  lemma UnlockOutcome(s: State, refreshToken: nat, pin: string, order: seq<nat>)
    ensures RefusedOrExtended(s, A.UnlockWithPin(s, refreshToken, pin, order), refreshToken, pin, Page(order))
  {
    hide Seconds, Extend, FindSession;
  }

  /** A table the call did not write, under an event that does not concern it. */
  lemma Alone(s: State, call: Call, o: Outcome, k: nat, device: string)
    ensures o.state.users == s.users && !o.event.UserRegistered? && !o.event.UserCreated? && !o.event.UserDeleted?
            && !o.event.UserSuspended? && !o.event.TierPromoted? && !(o.event.CodeCompared? && o.event.ok)
        ==> UserRow(s, call, o, k)
    ensures o.state.sessions == s.sessions && !o.event.SessionOpened? && !o.event.SessionExtended?
            && !o.event.UserDeleted? && !o.event.UserSuspended?
        ==> SessionRow(s, o, k)
    ensures o.state.otps == s.otps && !o.event.UserRegistered? && !o.event.CodeIssued?
            && !o.event.CodeCompared? && !o.event.UserDeleted?
        ==> OtpRow(s, o, k)
    ensures o.state.credentials == s.credentials && !Touches(o.event, device) && !o.event.UserDeleted? ==>
        DeviceRow(s, o, device)
    ensures o.state.submissions == s.submissions && !o.event.TierPromoted? && !o.event.UserDeleted? ==>
        ReviewRow(s, o, k)
  {
  }

  lemma RevokedRow(s: State, o: Outcome, u: nat, id: nat)
    requires o.state.sessions == RevokeAll(s.sessions, u, s.clock)
    requires (o.event.CodeCompared? || o.event.UserSuspended?) && o.event.user == u
    ensures SessionRow(s, o, id)
  {
  }

  // ----- every call follows -----

  predicate AdminCall(call: Call) {
    call.CreateUser? || call.UpdateUser? || call.UpdateUserLimits? || call.SuspendUser? || call.ActivateUser?
    || call.DeleteUser? || call.SetEnvironmentVariable? || call.UpdateSessionPolicy?
    || call.SubmitKyc? || call.ApproveKyc? || call.RejectKyc?
  }

  /** The summaries of one step for the rows with key k and for one device. */
  ghost predicate Follows(s: State, call: Call, o: Outcome, k: nat, device: string) {
    && MovesForward(s, o.state)
    && EventFacts(s, o)
    && UserRow(s, call, o, k)
    && SessionRow(s, o, k)
    && OtpRow(s, o, k)
    && DeviceRow(s, o, device)
    && ReviewRow(s, o, k)
  }

  lemma RegisterFollows(s: State, email: string, password: string, pin: string, code: string, emailOk: bool,
      k: nat, device: string)
    requires FreshIds(s)
    ensures Follows(s, Call.Register(email, password, pin, code, emailOk),
        A.Register(s, email, password, pin, code, emailOk), k, device)
  {
    hide Seconds, NormalizeEmail, FindByEmail, SessionRow, DeviceRow, ReviewRow;
    Alone(s, Call.Register(email, password, pin, code, emailOk),
      A.Register(s, email, password, pin, code, emailOk), k, device);
  }

  /** A wrong code, for whichever purpose: one attempt is counted. */
  lemma WrongCodeFollows(s: State, call: Call, u: nat, purpose: Purpose, id: nat, k: nat, device: string)
    requires FreshIds(s) && u in s.users && purpose != PinReset
    requires Selectable(s, u, purpose, id) && s.otps[id].attempts < OTP_MAX_ATTEMPTS
    ensures Follows(s, call, Outcome(CountAttempt(s, id), Rejected(InvalidOtp), CodeCompared(id, u, purpose, false)),
        k, device)
  {
    hide Seconds, NormalizeEmail, EmailFree, UserRow, SessionRow, DeviceRow, ReviewRow;
    Alone(s, call, Outcome(CountAttempt(s, id), Rejected(InvalidOtp), CodeCompared(id, u, purpose, false)), k, device);
  }

  lemma VerifyEmailFollows(s: State, email: string, code: string, k: nat, device: string)
    requires FreshIds(s)
    ensures Follows(s, Call.VerifyEmail(email, code), A.VerifyEmail(s, email, code), k, device)
  {
    hide Follows, FreshIds, FindByEmail, CheckOtp, Selectable, Fail, CountAttempt;
    match FindByEmail(s, email) {
      case None => FailFollows(s, Call.VerifyEmail(email, code), InvalidCredentials, k, device);
      case Some(u) =>
        match CheckOtp(s, u, EmailVerification, code) {
          case NoCode => FailFollows(s, Call.VerifyEmail(email, code), InvalidOtp, k, device);
          case Wrong(id) => WrongCodeFollows(s, Call.VerifyEmail(email, code), u, EmailVerification, id, k, device);
          case Right(id) => RightCodeVerifies(s, email, code, u, id, k, device);
        }
    }
  }

  lemma RightCodeVerifies(s: State, email: string, code: string, u: nat, id: nat, k: nat, device: string)
    requires FreshIds(s)
    requires FindByEmail(s, email) == Some(u) && CheckOtp(s, u, EmailVerification, code) == Right(id)
    ensures Follows(s, Call.VerifyEmail(email, code), A.VerifyEmail(s, email, code), k, device)
  {
    hide Seconds, NormalizeEmail, EmailFree, FindByEmail, CheckOtp, Trim, SessionRow, DeviceRow, ReviewRow;
    Alone(s, Call.VerifyEmail(email, code), A.VerifyEmail(s, email, code), k, device);
  }

  lemma ResendEmailOtpFollows(s: State, email: string, code: string, emailOk: bool, k: nat, device: string)
    requires FreshIds(s)
    ensures Follows(s, Call.ResendEmailOtp(email, code, emailOk),
        A.ResendEmailOtp(s, email, code, emailOk), k, device)
  {
    hide Seconds, NormalizeEmail, EmailFree, FindByEmail, RetryAfterSec, SessionRow, UserRow, DeviceRow, ReviewRow;
    Alone(s, Call.ResendEmailOtp(email, code, emailOk), A.ResendEmailOtp(s, email, code, emailOk), k, device);
  }

  /** A login that passed its checks. */
  lemma CreateSessionFollows(s: State, call: Call, u: nat, k: nat, device: string)
    requires FreshIds(s) && u in s.users && ActiveVerified(s.users[u])
    ensures Follows(s, call, A.CreateSession(s, u, s.users[u], None), k, device)
  {
    hide Seconds, NormalizeEmail, EmailFree, UserRow, OtpRow, DeviceRow, ReviewRow;
    Alone(s, call, A.CreateSession(s, u, s.users[u], None), k, device);
  }

  lemma LoginFollows(s: State, email: string, password: string, k: nat, device: string)
    requires FreshIds(s)
    ensures Follows(s, Call.Login(email, password), A.Login(s, email, password), k, device)
  {
    hide Follows, FreshIds, FindByEmail, Fail, ActiveVerified, A.CreateSession;
    var found := FindByEmail(s, email);
    if found.None? {
      FailFollows(s, Call.Login(email, password), InvalidCredentials, k, device);
    } else if !ActiveVerified(s.users[found.value]) {
      FailFollows(s, Call.Login(email, password), NotActiveVerified(s.users[found.value]), k, device);
    } else if !Matches(password, s.users[found.value].passwordHash) {
      FailFollows(s, Call.Login(email, password), InvalidCredentials, k, device);
    } else {
      CreateSessionFollows(s, Call.Login(email, password), found.value, k, device);
    }
  }

  lemma ExtendFollows(s: State, call: Call, id: nat, k: nat, device: string)
    requires FreshIds(s) && Live(s, id) && s.sessions[id].userId in s.users
    requires ActiveVerified(s.users[s.sessions[id].userId]) && WithinInactivity(s, s.sessions[id].lastUsedAt)
    ensures Follows(s, call, Extend(s, id), k, device)
  {
    hide Seconds, NormalizeEmail, EmailFree, UserRow, OtpRow, DeviceRow, ReviewRow;
    Alone(s, call, Extend(s, id), k, device);
  }

  /** The common end of refresh and unlock. */
  lemma RefusedOrExtendedFollows(s: State, call: Call, o: Outcome, refreshToken: nat, pin: string, order: seq<nat>,
      k: nat, device: string)
    requires FreshIds(s) && IsNewestFirst(s, order)
    requires RefusedOrExtended(s, o, refreshToken, pin, Page(order))
    ensures Follows(s, call, o, k, device)
  {
    hide Seconds, Follows, FreshIds, Extend, Fail, ActiveVerified, WithinInactivity, Matches;
    if o.reply.Rejected? && o == Fail(s, o.reply.error) {
      FailFollows(s, call, o.reply.error, k, device);
    } else {
      var id :| id in Page(order) && Extendable(s, id, refreshToken, pin) && o == Extend(s, id);
      assert id in order;
      ExtendFollows(s, call, id, k, device);
    }
  }

  lemma RefreshFollows(s: State, refreshToken: nat, pin: string, order: seq<nat>, k: nat, device: string)
    requires FreshIds(s)
    requires IsNewestFirst(s, order)
    ensures Follows(s, Call.Refresh(refreshToken, pin, order), A.Refresh(s, refreshToken, pin, order), k, device)
  {
    hide Follows, RefusedOrExtended, RefreshScan, FreshIds, IsNewestFirst;
    var o := A.Refresh(s, refreshToken, pin, order);
    ScanOutcome(s, refreshToken, pin, Page(order));
    RefusedOrExtendedFollows(s, Call.Refresh(refreshToken, pin, order), o, refreshToken, pin, order, k, device);
  }

  lemma UnlockWithPinFollows(s: State, refreshToken: nat, pin: string, order: seq<nat>, k: nat, device: string)
    requires FreshIds(s)
    requires IsNewestFirst(s, order)
    ensures Follows(s, Call.UnlockWithPin(refreshToken, pin, order),
        A.UnlockWithPin(s, refreshToken, pin, order), k, device)
  {
    hide Follows, RefusedOrExtended, A.UnlockWithPin, FreshIds, IsNewestFirst;
    var o := A.UnlockWithPin(s, refreshToken, pin, order);
    UnlockOutcome(s, refreshToken, pin, order);
    RefusedOrExtendedFollows(s, Call.UnlockWithPin(refreshToken, pin, order), o, refreshToken, pin, order, k, device);
  }

  lemma LogoutFollows(s: State, sessionId: nat, k: nat, device: string)
    requires FreshIds(s)
    ensures Follows(s, Call.Logout(sessionId), A.Logout(s, sessionId), k, device)
  {
    hide Seconds, NormalizeEmail, EmailFree, UserRow, OtpRow, DeviceRow, ReviewRow;
    Alone(s, Call.Logout(sessionId), A.Logout(s, sessionId), k, device);
  }

  lemma RequestPasswordResetFollows(s: State, email: string, code: string, emailOk: bool, k: nat, device: string)
    requires FreshIds(s)
    ensures Follows(s, Call.RequestPasswordReset(email, code, emailOk),
        A.RequestPasswordReset(s, email, code, emailOk), k, device)
  {
    hide Seconds, NormalizeEmail, EmailFree, FindByEmail, SessionRow, UserRow, DeviceRow, ReviewRow;
    Alone(s, Call.RequestPasswordReset(email, code, emailOk),
      A.RequestPasswordReset(s, email, code, emailOk), k, device);
  }

  lemma ConfirmPasswordResetFollows(s: State, email: string, code: string, newPassword: string,
      k: nat, device: string)
    requires FreshIds(s)
    ensures Follows(s, Call.ConfirmPasswordReset(email, code, newPassword),
        A.ConfirmPasswordReset(s, email, code, newPassword), k, device)
  {
    hide Follows, FreshIds, FindByEmail, CheckOtp, Selectable, Fail, CountAttempt, RevokeAll;
    var call := Call.ConfirmPasswordReset(email, code, newPassword);
    match FindByEmail(s, email) {
      case None => FailFollows(s, call, InvalidCredentials, k, device);
      case Some(u) =>
        match CheckOtp(s, u, PasswordReset, code) {
          case NoCode => FailFollows(s, call, InvalidOtp, k, device);
          case Wrong(id) => WrongCodeFollows(s, call, u, PasswordReset, id, k, device);
          case Right(id) => RightCodeResets(s, email, code, newPassword, u, id, k, device);
        }
    }
  }

  lemma RightCodeResets(s: State, email: string, code: string, newPassword: string, u: nat, id: nat,
      k: nat, device: string)
    requires FreshIds(s)
    requires FindByEmail(s, email) == Some(u) && CheckOtp(s, u, PasswordReset, code) == Right(id)
    ensures Follows(s, Call.ConfirmPasswordReset(email, code, newPassword),
        A.ConfirmPasswordReset(s, email, code, newPassword), k, device)
  {
    hide Seconds, NormalizeEmail, EmailFree, FindByEmail, CheckOtp, Trim, DeviceRow, ReviewRow, SessionRow, RevokeAll;
    var o := A.ConfirmPasswordReset(s, email, code, newPassword);
    Alone(s, Call.ConfirmPasswordReset(email, code, newPassword), o, k, device);
    RevokedRow(s, o, u, k);
  }

  lemma RegisterBiometricFollows(s: State, userId: nat, pin: string, deviceId: string, publicKey: string,
      k: nat, device: string)
    requires FreshIds(s)
    ensures Follows(s, Call.RegisterBiometric(userId, pin, deviceId, publicKey),
        A.RegisterBiometric(s, userId, pin, deviceId, publicKey), k, device)
  {
    hide Seconds, NormalizeEmail, EmailFree, SessionRow, UserRow, OtpRow, ReviewRow, Follows;
    var call, o := Call.RegisterBiometric(userId, pin, deviceId, publicKey),
        A.RegisterBiometric(s, userId, pin, deviceId, publicKey);
    if o.reply.Done? {
      EnrolmentFollows(s, userId, pin, deviceId, publicKey, k, device);
    } else {
      FailFollows(s, call, o.reply.error, k, device);
    }
  }

  lemma EnrolmentFollows(s: State, userId: nat, pin: string, deviceId: string, publicKey: string, k: nat,
      device: string)
    requires FreshIds(s) && A.RegisterBiometric(s, userId, pin, deviceId, publicKey).reply.Done?
    ensures Follows(s, Call.RegisterBiometric(userId, pin, deviceId, publicKey),
        A.RegisterBiometric(s, userId, pin, deviceId, publicKey), k, device)
  {
    hide Seconds, NormalizeEmail, EmailFree, SessionRow, UserRow, OtpRow, ReviewRow;
    Alone(s, Call.RegisterBiometric(userId, pin, deviceId, publicKey),
      A.RegisterBiometric(s, userId, pin, deviceId, publicKey), k, device);
  }

  lemma UpdateBiometricSettingFollows(s: State, userId: nat, deviceId: string, enabled: bool, k: nat, device: string)
    requires FreshIds(s)
    ensures Follows(s, Call.UpdateBiometricSetting(userId, deviceId, enabled),
        A.UpdateBiometricSetting(s, userId, deviceId, enabled), k, device)
  {
    hide Seconds, NormalizeEmail, EmailFree, SessionRow, UserRow, OtpRow, ReviewRow;
    Alone(s, Call.UpdateBiometricSetting(userId, deviceId, enabled),
      A.UpdateBiometricSetting(s, userId, deviceId, enabled), k, device);
  }

  lemma CreateBiometricChallengeFollows(s: State, deviceId: string, k: nat, device: string)
    requires FreshIds(s)
    ensures Follows(s, Call.CreateBiometricChallenge(deviceId), A.CreateBiometricChallenge(s, deviceId), k, device)
  {
    hide Seconds, NormalizeEmail, EmailFree, SessionRow, UserRow, OtpRow, ReviewRow;
    Alone(s, Call.CreateBiometricChallenge(deviceId), A.CreateBiometricChallenge(s, deviceId), k, device);
  }

  lemma LoginWithBiometricFollows(s: State, deviceId: string, challenge: nat, signatureOk: bool,
      k: nat, device: string)
    requires FreshIds(s)
    ensures Follows(s, Call.LoginWithBiometric(deviceId, challenge, signatureOk),
        A.LoginWithBiometric(s, deviceId, challenge, signatureOk), k, device)
  {
    hide Follows, FreshIds, Fail, ChallengeAccepted, A.CreateSession, Seconds;
    var o := A.LoginWithBiometric(s, deviceId, challenge, signatureOk);
    if o.event.SessionOpened? {
      BiometricLoginOpens(s, deviceId, challenge, signatureOk, k, device);
    } else {
      BiometricLoginFails(s, deviceId, challenge, signatureOk);
      FailFollows(s, Call.LoginWithBiometric(deviceId, challenge, signatureOk), o.reply.error, k, device);
    }
  }

  lemma BiometricLoginFails(s: State, deviceId: string, challenge: nat, signatureOk: bool)
    ensures var o := A.LoginWithBiometric(s, deviceId, challenge, signatureOk);
      o.event.SessionOpened? || (o.reply.Rejected? && o == Fail(s, o.reply.error))
  {
    hide Seconds;
  }

  lemma BiometricLoginOpens(s: State, deviceId: string, challenge: nat, signatureOk: bool, k: nat, device: string)
    requires FreshIds(s) && A.LoginWithBiometric(s, deviceId, challenge, signatureOk).event.SessionOpened?
    ensures Follows(s, Call.LoginWithBiometric(deviceId, challenge, signatureOk),
        A.LoginWithBiometric(s, deviceId, challenge, signatureOk), k, device)
  {
    hide Seconds, NormalizeEmail, EmailFree, UserRow, OtpRow, ReviewRow;
    Alone(s, Call.LoginWithBiometric(deviceId, challenge, signatureOk),
      A.LoginWithBiometric(s, deviceId, challenge, signatureOk), k, device);
  }

  lemma GuardFollows(s: State, token: Option<AccessToken>, k: nat, device: string)
    requires FreshIds(s)
    ensures Follows(s, Call.Guard(token), A.Guard(s, token), k, device)
  {
    hide Seconds, NormalizeEmail, EmailFree, SessionRow, UserRow, OtpRow, DeviceRow, ReviewRow;
    Alone(s, Call.Guard(token), A.Guard(s, token), k, device);
  }

  lemma CreateUserFollows(s: State, email: string, password: string, pin: string, role: Option<Role>,
      tier: Option<Tier>, k: nat, device: string)
    requires FreshIds(s)
    ensures Follows(s, Call.CreateUser(email, password, pin, role, tier),
        M.CreateUser(s, email, password, pin, role, tier), k, device)
  {
    hide Seconds, NormalizeEmail, FindByEmail, SessionRow, OtpRow, DeviceRow, ReviewRow;
    Alone(s, Call.CreateUser(email, password, pin, role, tier),
      M.CreateUser(s, email, password, pin, role, tier), k, device);
  }

  lemma UpdateUserFollows(s: State, id: nat, newEmail: Option<string>, role: Option<Role>, status: Option<Status>,
      tier: Option<Tier>, k: nat, device: string)
    requires FreshIds(s)
    ensures Follows(s, Call.UpdateUser(id, newEmail, role, status, tier),
        M.UpdateUser(s, id, newEmail, role, status, tier), k, device)
  {
    hide Seconds, NormalizeEmail, SessionRow, OtpRow, DeviceRow, ReviewRow;
    Alone(s, Call.UpdateUser(id, newEmail, role, status, tier),
      M.UpdateUser(s, id, newEmail, role, status, tier), k, device);
  }

  lemma UpdateUserLimitsFollows(s: State, id: nat, tier: Option<Tier>, dailyXaf: Option<string>,
      monthlyXaf: Option<string>, k: nat, device: string)
    requires FreshIds(s)
    ensures Follows(s, Call.UpdateUserLimits(id, tier, dailyXaf, monthlyXaf),
        M.UpdateUserLimits(s, id, tier, dailyXaf, monthlyXaf), k, device)
  {
    hide Seconds, NormalizeEmail, EmailFree, SessionRow, OtpRow, DeviceRow, ReviewRow;
    Alone(s, Call.UpdateUserLimits(id, tier, dailyXaf, monthlyXaf),
      M.UpdateUserLimits(s, id, tier, dailyXaf, monthlyXaf), k, device);
  }

  lemma SuspendUserFollows(s: State, id: nat, k: nat, device: string)
    requires FreshIds(s)
    ensures Follows(s, Call.SuspendUser(id), M.SuspendUser(s, id), k, device)
  {
    hide Seconds, NormalizeEmail, EmailFree, OtpRow, DeviceRow, ReviewRow, SessionRow, RevokeAll;
    Alone(s, Call.SuspendUser(id), M.SuspendUser(s, id), k, device);
    if id in s.users { RevokedRow(s, M.SuspendUser(s, id), id, k); }
  }

  lemma ActivateUserFollows(s: State, id: nat, k: nat, device: string)
    requires FreshIds(s)
    ensures Follows(s, Call.ActivateUser(id), M.ActivateUser(s, id), k, device)
  {
    hide Seconds, NormalizeEmail, EmailFree, SessionRow, OtpRow, DeviceRow, ReviewRow;
    Alone(s, Call.ActivateUser(id), M.ActivateUser(s, id), k, device);
  }

  /** The cascade, table by table. */
  lemma DeletedRows(s: State, id: nat, adminId: nat, k: nat, device: string)
    requires id != adminId && id in s.users
    ensures var o := M.DeleteUser(s, id, adminId);
      SessionRow(s, o, k) && OtpRow(s, o, k) && DeviceRow(s, o, device) && ReviewRow(s, o, k)
  {
  }

  lemma DeleteUserFollows(s: State, id: nat, adminId: nat, k: nat, device: string)
    requires FreshIds(s)
    ensures Follows(s, Call.DeleteUser(id, adminId), M.DeleteUser(s, id, adminId), k, device)
  {
    hide Seconds, NormalizeEmail, EmailFree, SessionRow, OtpRow, DeviceRow, ReviewRow;
    if id == adminId {
      FailFollows(s, Call.DeleteUser(id, adminId), OwnAccount, k, device);
    } else if id !in s.users {
      FailFollows(s, Call.DeleteUser(id, adminId), UserNotFound, k, device);
    } else {
      DeletedRows(s, id, adminId, k, device);
    }
  }

  lemma SetEnvironmentVariableFollows(s: State, key: string, value: string, k: nat, device: string)
    requires FreshIds(s)
    ensures Follows(s, Call.SetEnvironmentVariable(key, value), M.SetEnvironmentVariable(s, key, value), k, device)
  {
    hide Seconds, NormalizeEmail, EmailFree, SessionRow, UserRow, OtpRow, DeviceRow, ReviewRow;
    Alone(s, Call.SetEnvironmentVariable(key, value), M.SetEnvironmentVariable(s, key, value), k, device);
  }

  lemma UpdateSessionPolicyFollows(s: State, update: Update, k: nat, device: string)
    requires FreshIds(s)
    ensures Follows(s, Call.UpdateSessionPolicy(update), M.UpdateSessionPolicy(s, update), k, device)
  {
    hide Seconds, NormalizeEmail, EmailFree, SessionRow, UserRow, OtpRow, DeviceRow, ReviewRow;
    Alone(s, Call.UpdateSessionPolicy(update), M.UpdateSessionPolicy(s, update), k, device);
  }

  lemma SubmitKycFollows(s: State, userId: nat, k: nat, device: string)
    requires FreshIds(s)
    ensures Follows(s, Call.SubmitKyc(userId), M.SubmitKyc(s, userId), k, device)
  {
    hide Seconds, NormalizeEmail, EmailFree, SessionRow, UserRow, OtpRow, DeviceRow;
    Alone(s, Call.SubmitKyc(userId), M.SubmitKyc(s, userId), k, device);
  }

  lemma ApproveKycFollows(s: State, id: nat, adminId: nat, k: nat, device: string)
    requires FreshIds(s)
    ensures Follows(s, Call.ApproveKyc(id, adminId), M.ApproveKyc(s, id, adminId), k, device)
  {
    hide Seconds, NormalizeEmail, EmailFree, SessionRow, OtpRow, DeviceRow;
    Alone(s, Call.ApproveKyc(id, adminId), M.ApproveKyc(s, id, adminId), k, device);
  }

  lemma RejectKycFollows(s: State, id: nat, adminId: nat, reason: Option<string>, k: nat, device: string)
    requires FreshIds(s)
    ensures Follows(s, Call.RejectKyc(id, adminId, reason), M.RejectKyc(s, id, adminId, reason), k, device)
  {
    hide Seconds, NormalizeEmail, EmailFree, SessionRow, UserRow, OtpRow, DeviceRow;
    Alone(s, Call.RejectKyc(id, adminId, reason), M.RejectKyc(s, id, adminId, reason), k, device);
  }

  lemma FailFollows(s: State, call: Call, error: Error, k: nat, device: string)
    ensures Follows(s, call, Fail(s, error), k, device)
  {
  }

  lemma AuthCallFollows(s: State, call: Call, k: nat, device: string)
    requires FreshIds(s) && !AdminCall(call)
    ensures Follows(s, call, Dispatch(s, call), k, device)
  {
    hide Follows, FreshIds, IsNewestFirst, Fail, A.Register, A.VerifyEmail, A.ResendEmailOtp, A.Login,
      A.Refresh, A.UnlockWithPin, A.Logout, A.RequestPasswordReset, A.ConfirmPasswordReset,
      A.RegisterBiometric, A.UpdateBiometricSetting, A.CreateBiometricChallenge, A.LoginWithBiometric,
      A.Guard, M.CreateUser, M.UpdateUser, M.UpdateUserLimits, M.SuspendUser, M.ActivateUser, M.DeleteUser,
      M.SetEnvironmentVariable, M.UpdateSessionPolicy, M.SubmitKyc, M.ApproveKyc, M.RejectKyc;
    match call {
      case Register(email, password, pin, code, emailOk) =>
        RegisterFollows(s, email, password, pin, code, emailOk, k, device);
      case VerifyEmail(email, code) =>
        VerifyEmailFollows(s, email, code, k, device);
      case ResendEmailOtp(email, code, emailOk) =>
        ResendEmailOtpFollows(s, email, code, emailOk, k, device);
      case Login(email, password) =>
        LoginFollows(s, email, password, k, device);
      case Refresh(refreshToken, pin, order) =>
        if IsNewestFirst(s, order) {
          RefreshFollows(s, refreshToken, pin, order, k, device);
        } else {
          FailFollows(s, call, NoSuchOrder, k, device);
        }
      case UnlockWithPin(refreshToken, pin, order) =>
        if IsNewestFirst(s, order) {
          UnlockWithPinFollows(s, refreshToken, pin, order, k, device);
        } else {
          FailFollows(s, call, NoSuchOrder, k, device);
        }
      case Logout(sessionId) =>
        LogoutFollows(s, sessionId, k, device);
      case RequestPasswordReset(email, code, emailOk) =>
        RequestPasswordResetFollows(s, email, code, emailOk, k, device);
      case ConfirmPasswordReset(email, code, newPassword) =>
        ConfirmPasswordResetFollows(s, email, code, newPassword, k, device);
      case RegisterBiometric(userId, pin, deviceId, publicKey) =>
        RegisterBiometricFollows(s, userId, pin, deviceId, publicKey, k, device);
      case UpdateBiometricSetting(userId, deviceId, enabled) =>
        UpdateBiometricSettingFollows(s, userId, deviceId, enabled, k, device);
      case CreateBiometricChallenge(deviceId) =>
        CreateBiometricChallengeFollows(s, deviceId, k, device);
      case LoginWithBiometric(deviceId, challenge, signatureOk) =>
        LoginWithBiometricFollows(s, deviceId, challenge, signatureOk, k, device);
      case Guard(token) =>
        GuardFollows(s, token, k, device);
    }
  }

  lemma AdminCallFollows(s: State, call: Call, k: nat, device: string)
    requires FreshIds(s) && AdminCall(call)
    ensures Follows(s, call, Dispatch(s, call), k, device)
  {
    hide Follows, FreshIds, IsNewestFirst, Fail, A.Register, A.VerifyEmail, A.ResendEmailOtp, A.Login,
      A.Refresh, A.UnlockWithPin, A.Logout, A.RequestPasswordReset, A.ConfirmPasswordReset,
      A.RegisterBiometric, A.UpdateBiometricSetting, A.CreateBiometricChallenge, A.LoginWithBiometric,
      A.Guard, M.CreateUser, M.UpdateUser, M.UpdateUserLimits, M.SuspendUser, M.ActivateUser, M.DeleteUser,
      M.SetEnvironmentVariable, M.UpdateSessionPolicy, M.SubmitKyc, M.ApproveKyc, M.RejectKyc;
    match call {
      case CreateUser(email, password, pin, role, tier) =>
        CreateUserFollows(s, email, password, pin, role, tier, k, device);
      case UpdateUser(id, newEmail, role, status, tier) =>
        UpdateUserFollows(s, id, newEmail, role, status, tier, k, device);
      case UpdateUserLimits(id, tier, dailyXaf, monthlyXaf) =>
        UpdateUserLimitsFollows(s, id, tier, dailyXaf, monthlyXaf, k, device);
      case SuspendUser(id) =>
        SuspendUserFollows(s, id, k, device);
      case ActivateUser(id) =>
        ActivateUserFollows(s, id, k, device);
      case DeleteUser(id, adminId) =>
        DeleteUserFollows(s, id, adminId, k, device);
      case SetEnvironmentVariable(key, value) =>
        SetEnvironmentVariableFollows(s, key, value, k, device);
      case UpdateSessionPolicy(update) =>
        UpdateSessionPolicyFollows(s, update, k, device);
      case SubmitKyc(userId) =>
        SubmitKycFollows(s, userId, k, device);
      case ApproveKyc(id, adminId) =>
        ApproveKycFollows(s, id, adminId, k, device);
      case RejectKyc(id, adminId, reason) =>
        RejectKycFollows(s, id, adminId, reason, k, device);
    }
  }

  /** Every call, in every state with fresh identifiers, follows the summaries. */
  lemma CallFollows(s: State, call: Call, k: nat, device: string)
    requires FreshIds(s)
    ensures Follows(s, call, Dispatch(s, call), k, device)
  {
    hide Follows, FreshIds, Dispatch;
    if AdminCall(call) {
      AdminCallFollows(s, call, k, device);
    } else {
      AuthCallFollows(s, call, k, device);
    }
  }
}
