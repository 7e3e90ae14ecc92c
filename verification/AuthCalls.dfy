// What each call of src/auth/auth.service.ts and src/auth/jwt-auth.guard.ts does, as a function of the
// state in which it runs. AuthService.dfy carries the calls out step by step and is proved equal.
module AuthCalls {
  import opened Wrappers
  import opened Text
  import opened Model

  /** The user whose stored address is the normalised one. */
  predicate Holds(s: State, u: nat, email: string) {
    u in s.users && s.users[u].email == NormalizeEmail(email)
  }

  ghost function FindByEmail(s: State, email: string): (r: Option<nat>)
    ensures r.Some? ==> r.value in s.users && s.users[r.value].email == NormalizeEmail(email)
    ensures r.None? ==> forall u | u in s.users :: s.users[u].email != NormalizeEmail(email)
  {
    if exists u :: u in s.users && s.users[u].email == NormalizeEmail(email) then
      var u :| u in s.users && s.users[u].email == NormalizeEmail(email);
      Some(u)
    else None
  }

  // ----- one-time codes -----

  function ConsumeOutstanding(otps: map<nat, Otp>, userId: nat, purpose: Purpose, now: nat): map<nat, Otp> {
    map id | id in otps ::
      if Unconsumed(otps[id], userId, purpose) then otps[id].(consumedAt := Some(now)) else otps[id]
  }

  function NewOtp(s: State, userId: nat, purpose: Purpose, code: string): Otp {
    Otp(userId, purpose, code, s.clock, s.clock + OTP_TTL_MS, None, 0)
  }

  /** issueOtp: every outstanding code of this user and purpose is consumed, one new code is added. */
  function IssueOtp(s: State, userId: nat, purpose: Purpose, code: string): State {
    s.(otps := ConsumeOutstanding(s.otps, userId, purpose, s.clock)[s.nextId := NewOtp(s, userId, purpose, code)],
       nextId := s.nextId + 1)
  }

  function MailReply(emailOk: bool): Reply {
    if emailOk then OtpChallenge(OTP_RESEND_COOLDOWN_SEC) else Rejected(EmailFailed)
  }

  /** A row an `orderBy createdAt desc` lookup may return among those selected. */
  ghost predicate IsNewest(s: State, candidates: set<nat>, id: nat) {
    id in candidates && id in s.otps
    && forall other | other in candidates && other in s.otps :: s.otps[other].createdAt <= s.otps[id].createdAt
  }

  ghost function Newest(s: State, candidates: set<nat>): Option<nat> {
    if exists id :: IsNewest(s, candidates, id) then
      var id :| IsNewest(s, candidates, id);
      Some(id)
    else None
  }

  ghost function Outstanding(s: State, userId: nat, purpose: Purpose): set<nat> {
    set id | id in s.otps && Unconsumed(s.otps[id], userId, purpose)
  }

  /** The rows consumeOtp selects from: outstanding and not expired. */
  predicate Selectable(s: State, userId: nat, purpose: Purpose, id: nat) {
    id in s.otps && Unconsumed(s.otps[id], userId, purpose) && s.otps[id].expiresAt > s.clock
  }

  ghost function Unexpired(s: State, userId: nat, purpose: Purpose): set<nat> {
    set id | id in s.otps && Selectable(s, userId, purpose, id)
  }

  /** How consumeOtp answers: no comparison at all, a comparison that failed, or one that succeeded. */
  datatype Check = NoCode | Wrong(id: nat) | Right(id: nat)

  ghost function CheckOtp(s: State, userId: nat, purpose: Purpose, code: string): (c: Check)
    ensures !c.NoCode? ==> Selectable(s, userId, purpose, c.id) && s.otps[c.id].attempts < OTP_MAX_ATTEMPTS
    ensures !c.NoCode? ==> (c.Right? <==> Matches(Trim(code), s.otps[c.id].codeHash))
  {
    var newest := Newest(s, Unexpired(s, userId, purpose));
    if newest.None? || s.otps[newest.value].attempts >= OTP_MAX_ATTEMPTS then NoCode
    else if Matches(Trim(code), s.otps[newest.value].codeHash) then Right(newest.value)
    else Wrong(newest.value)
  }

  function CountAttempt(s: State, id: nat): State
    requires id in s.otps
  {
    s.(otps := s.otps[id := s.otps[id].(attempts := s.otps[id].attempts + 1)])
  }

  function Consume(s: State, id: nat): State
    requires id in s.otps
  {
    s.(otps := s.otps[id := s.otps[id].(consumedAt := Some(s.clock))])
  }

  /** getOtpRetryAfterSec: whole seconds left of the cooldown of the newest outstanding code. */
  ghost function RetryAfterSec(s: State, userId: nat, purpose: Purpose): nat {
    var newest := Newest(s, Outstanding(s, userId, purpose));
    if newest.None? then 0
    else
      var left := OTP_RESEND_COOLDOWN_SEC - (s.clock - s.otps[newest.value].createdAt) / 1000;
      if left > 0 then left else 0
  }

  ghost function Register(s: State, email: string, password: string, pin: string, code: string, emailOk: bool): Outcome
  {
    if FindByEmail(s, email).Some? then Fail(s, EmailTaken)
    else
      var u := s.nextId;
      var user := User(NormalizeEmail(email), password, pin, None, Active, RoleUser, Tier1, "0", "0");
      var s1 := s.(users := s.users[u := user], nextId := s.nextId + 1);
      Outcome(IssueOtp(s1, u, EmailVerification, code), MailReply(emailOk), UserRegistered(u, s1.nextId))
  }

  ghost function VerifyEmail(s: State, email: string, code: string): Outcome {
    match FindByEmail(s, email)
    case None => Fail(s, InvalidCredentials)
    case Some(u) =>
      match CheckOtp(s, u, EmailVerification, code)
      case NoCode => Fail(s, InvalidOtp)
      case Wrong(id) =>
        Outcome(CountAttempt(s, id), Rejected(InvalidOtp), CodeCompared(id, u, EmailVerification, false))
      case Right(id) =>
        var verifiedAt := s.users[u].emailVerifiedAt.GetOr(s.clock);
        Outcome(Consume(s, id).(users := s.users[u := s.users[u].(emailVerifiedAt := Some(verifiedAt))]),
                Done, CodeCompared(id, u, EmailVerification, true))
  }

  ghost function ResendEmailOtp(s: State, email: string, code: string, emailOk: bool): Outcome {
    match FindByEmail(s, email)
    case None => Fail(s, InvalidCredentials)
    case Some(u) =>
      if s.users[u].emailVerifiedAt.Some? then Fail(s, AlreadyVerified)
      else
        var wait := RetryAfterSec(s, u, EmailVerification);
        if wait > 0 then Outcome(s, OtpChallenge(wait), Quiet)
        else Outcome(IssueOtp(s, u, EmailVerification, code), MailReply(emailOk),
                     CodeIssued(s.nextId, u, EmailVerification))
  }

  ghost function RequestPasswordReset(s: State, email: string, code: string, emailOk: bool): Outcome {
    match FindByEmail(s, email)
    case None => Fail(s, InvalidCredentials)
    case Some(u) =>
      Outcome(IssueOtp(s, u, PasswordReset, code), MailReply(emailOk), CodeIssued(s.nextId, u, PasswordReset))
  }

  ghost function ConfirmPasswordReset(s: State, email: string, code: string, newPassword: string): Outcome {
    match FindByEmail(s, email)
    case None => Fail(s, InvalidCredentials)
    case Some(u) =>
      match CheckOtp(s, u, PasswordReset, code)
      case NoCode => Fail(s, InvalidOtp)
      case Wrong(id) => Outcome(CountAttempt(s, id), Rejected(InvalidOtp), CodeCompared(id, u, PasswordReset, false))
      case Right(id) =>
        Outcome(Consume(s, id).(users := s.users[u := s.users[u].(passwordHash := newPassword)],
                                sessions := RevokeAll(s.sessions, u, s.clock)),
                Done, CodeCompared(id, u, PasswordReset, true))
  }

  // ----- sessions -----

  /** Every session of the user that is not yet revoked becomes revoked now. */
  function RevokeAll(sessions: map<nat, Session>, userId: nat, now: nat): map<nat, Session> {
    map id | id in sessions ::
      if sessions[id].userId == userId && sessions[id].revokedAt.None? then sessions[id].(revokedAt := Some(now))
      else sessions[id]
  }

  /** signAccessToken: claims copied from the user row, stamped in whole seconds. */
  function Sign(s: State, userId: nat, user: User, sessionId: nat): AccessToken {
    AccessToken(userId, user.email, sessionId, user.role, s.clock / 1000, s.clock / 1000 + AccessTtl(s))
  }

  function CreateSession(s: State, userId: nat, user: User, via: Option<Proof>): Outcome {
    var id, refreshToken := s.nextId, s.nextId + 1;
    var ttl := InactivityTtlNow(s);
    var token := Sign(s, userId, user, id);
    var row := Session(userId, refreshToken, s.clock, s.clock, s.clock + ttl * 1000, None);
    Outcome(s.(sessions := s.sessions[id := row],
               issued := s.issued + {token},
               nextId := s.nextId + 2),
            Tokens(token, refreshToken, AccessTtl(s)),
            SessionOpened(id, userId, token, ttl, via))
  }

  function NotActiveVerified(user: User): Error {
    if user.status != Active then UserDisabled else EmailNotVerified
  }

  ghost function Login(s: State, email: string, password: string): Outcome {
    match FindByEmail(s, email)
    case None => Fail(s, InvalidCredentials)
    case Some(u) =>
      var user := s.users[u];
      if !ActiveVerified(user) then Fail(s, NotActiveVerified(user))
      else if !Matches(password, user.passwordHash) then Fail(s, InvalidCredentials)
      else CreateSession(s, u, user, None)
  }

  /** Move the session's last use to now, give it the lifetime in force now, and sign a new access token. */
  function Extend(s: State, id: nat): Outcome
    requires id in s.sessions && s.sessions[id].userId in s.users
  {
    var row := s.sessions[id];
    var ttl := InactivityTtlNow(s);
    var token := Sign(s, row.userId, s.users[row.userId], id);
    Outcome(s.(sessions := s.sessions[id := row.(lastUsedAt := s.clock, expiresAt := s.clock + ttl * 1000)],
               issued := s.issued + {token}),
            Tokens(token, row.refreshHash, AccessTtl(s)),
            SessionExtended(id, row.userId, token, ttl))
  }

  /** refresh: walk the page; the first match is checked (owner, PIN, inactivity) and decides the call. */
  function RefreshScan(s: State, refreshToken: nat, pin: string, page: seq<nat>): Outcome {
    if page == [] then Fail(s, InvalidRefreshToken)
    else if page[0] !in s.sessions || s.sessions[page[0]].refreshHash != refreshToken then
      RefreshScan(s, refreshToken, pin, page[1..])
    else
      var row := s.sessions[page[0]];
      if row.userId !in s.users then Fail(s, UserNotFound)
      else if !ActiveVerified(s.users[row.userId]) then Fail(s, NotActiveVerified(s.users[row.userId]))
      else if !Matches(pin, s.users[row.userId].pinHash) then Fail(s, InvalidPin)
      else if !WithinInactivity(s, row.lastUsedAt) then Fail(s, SessionInactive)
      else Extend(s, page[0])
  }

  function Refresh(s: State, refreshToken: nat, pin: string, order: seq<nat>): Outcome {
    RefreshScan(s, refreshToken, pin, Page(order))
  }

  /** findActiveSessionByRefreshToken: the first session of the page that matches. */
  function FindSession(s: State, refreshToken: nat, page: seq<nat>): (r: Option<nat>)
    ensures r.Some? ==> r.value in page && r.value in s.sessions && s.sessions[r.value].refreshHash == refreshToken
  {
    if page == [] then None
    else if page[0] in s.sessions && s.sessions[page[0]].refreshHash == refreshToken then Some(page[0])
    else FindSession(s, refreshToken, page[1..])
  }

  /** unlockWithPin: find first, then check PIN, owner and inactivity. */
  function UnlockWithPin(s: State, refreshToken: nat, pin: string, order: seq<nat>): Outcome {
    match FindSession(s, refreshToken, Page(order))
    case None => Fail(s, InvalidRefreshToken)
    case Some(id) =>
      var row := s.sessions[id];
      if row.userId !in s.users then Fail(s, UserNotFound)
      else if !Matches(pin, s.users[row.userId].pinHash) then Fail(s, InvalidPin)
      else if !ActiveVerified(s.users[row.userId]) then Fail(s, NotActiveVerified(s.users[row.userId]))
      else if !WithinInactivity(s, row.lastUsedAt) then Fail(s, SessionInactive)
      else Extend(s, id)
  }

  function Logout(s: State, id: nat): Outcome {
    if id in s.sessions && s.sessions[id].revokedAt.None? then
      Outcome(s.(sessions := s.sessions[id := s.sessions[id].(revokedAt := Some(s.clock))]), Done, Quiet)
    else Outcome(s, Done, Quiet)
  }

  // ----- biometric devices -----

  function RegisterBiometric(s: State, userId: nat, pin: string, deviceId: string, publicKey: string): Outcome {
    if userId !in s.users then Fail(s, UserNotFound)
    else if !Matches(pin, s.users[userId].pinHash) then Fail(s, InvalidPin)
    else if deviceId in s.credentials && s.credentials[deviceId].userId != userId then Fail(s, DeviceTaken)
    else Outcome(s.(credentials := s.credentials[deviceId := Credential(userId, publicKey, true, None, None)]),
                 Done, DeviceEnrolled(deviceId, userId))
  }

  function UpdateBiometricSetting(s: State, userId: nat, deviceId: string, enabled: bool): Outcome {
    if deviceId !in s.credentials || s.credentials[deviceId].userId != userId then Fail(s, DeviceNotFound)
    else
      var row := s.credentials[deviceId].(enabled := enabled, challenge := None, challengeExpiresAt := None);
      Outcome(s.(credentials := s.credentials[deviceId := row]), Done, DeviceChanged(deviceId))
  }

  function CreateBiometricChallenge(s: State, deviceId: string): Outcome {
    if deviceId !in s.credentials || !s.credentials[deviceId].enabled then Fail(s, DeviceNotEnabled)
    else
      var row := s.credentials[deviceId];
      if row.userId !in s.users then Fail(s, UserNotFound)
      else if !ActiveVerified(s.users[row.userId]) then Fail(s, NotActiveVerified(s.users[row.userId]))
      else
        var row1 := row.(challenge := Some(s.nextId), challengeExpiresAt := Some(s.clock + CHALLENGE_TTL_MS));
        Outcome(s.(credentials := s.credentials[deviceId := row1], nextId := s.nextId + 1),
                Challenge(s.nextId), ChallengeIssued(deviceId, s.nextId))
  }

  predicate ChallengeAccepted(s: State, deviceId: string, challenge: nat) {
    && deviceId in s.credentials
    && s.credentials[deviceId].enabled
    && s.credentials[deviceId].challenge == Some(challenge)
    && s.credentials[deviceId].challengeExpiresAt.Some?
    && s.credentials[deviceId].challengeExpiresAt.value > s.clock
  }

  function LoginWithBiometric(s: State, deviceId: string, challenge: nat, signatureOk: bool): Outcome {
    if !ChallengeAccepted(s, deviceId, challenge) then Fail(s, InvalidChallenge)
    else if !signatureOk then Fail(s, InvalidSignature)
    else
      var row := s.credentials[deviceId];
      if row.userId !in s.users then Fail(s, UserNotFound)
      else if !ActiveVerified(s.users[row.userId]) then Fail(s, NotActiveVerified(s.users[row.userId]))
      else
        var s1 := s.(credentials := s.credentials[deviceId := row.(challenge := None, challengeExpiresAt := None)]);
        CreateSession(s1, row.userId, s.users[row.userId], Some(Proof(deviceId, challenge)))
  }

  // ----- the guard -----

  /** canActivate: signature, whole-second expiry, live session of that user, then the policy in force now. */
  function Guard(s: State, presented: Option<AccessToken>): Outcome {
    match presented
    case None => Fail(s, MissingToken)
    case Some(token) =>
      if token !in s.issued then Fail(s, InvalidToken)
      else if s.clock / 1000 >= token.exp then Fail(s, TokenExpired)
      else if !Live(s, token.sessionId) || s.sessions[token.sessionId].userId != token.sub then Fail(s, SessionInactive)
      else if !WithinInactivity(s, s.sessions[token.sessionId].lastUsedAt) then Fail(s, SessionInactive)
      else Outcome(s, Granted(token.sub, token.email, token.sessionId, token.role), RequestAccepted(token))
  }
}
