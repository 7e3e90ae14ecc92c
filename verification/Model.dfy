// The rows behind authentication, sessions and review (prisma/schema.prisma), the calls that change
// them, and what a call answers.
//
// Identifiers, refresh tokens and biometric challenges are drawn from one counter, so they are fresh.
// A hash is represented by the text it was made from; `Matches` is the comparison.
module Model {
  import opened Wrappers
  import opened SessionPolicy

  const OTP_TTL_MS := 10 * 60 * 1000
  const OTP_RESEND_COOLDOWN_SEC := 60
  const OTP_MAX_ATTEMPTS := 5
  const CHALLENGE_TTL_MS := 5 * 60 * 1000
  const SCAN_LIMIT := 50

  datatype Status = Active | Disabled
  datatype Role = RoleUser | RoleAdmin
  datatype Tier = Tier1 | Tier2
  datatype Purpose = EmailVerification | PasswordReset | PinReset
  datatype Review = Pending | Approved | RejectedReview

  datatype User = User(
    email: string,
    passwordHash: string,
    pinHash: string,
    emailVerifiedAt: Option<nat>,
    status: Status,
    role: Role,
    tier: Tier,
    dailyLimitXaf: string,
    monthlyLimitXaf: string)

  datatype Session = Session(
    userId: nat,
    refreshHash: nat,
    createdAt: nat,
    lastUsedAt: nat,
    expiresAt: int,
    revokedAt: Option<nat>)

  datatype Otp = Otp(
    userId: nat,
    purpose: Purpose,
    codeHash: string,
    createdAt: nat,
    expiresAt: nat,
    consumedAt: Option<nat>,
    attempts: nat)

  datatype Credential = Credential(
    userId: nat,
    publicKey: string,
    enabled: bool,
    challenge: Option<nat>,
    challengeExpiresAt: Option<nat>)

  datatype Submission = Submission(
    userId: nat,
    review: Review,
    reason: Option<string>,
    reviewedBy: Option<nat>,
    reviewedAt: Option<nat>)

  /** The signed claims; `iat` and `exp` are whole seconds (section 4.1.4 of RFC 7519). */
  datatype AccessToken = AccessToken(sub: nat, email: string, sessionId: nat, role: Role, iat: int, exp: int)

  /** All rows, a millisecond clock, and the access tokens signed so far (the ones that verify). */
  datatype State = State(
    users: map<nat, User>,
    sessions: map<nat, Session>,
    otps: map<nat, Otp>,
    credentials: map<string, Credential>,
    submissions: map<nat, Submission>,
    env: map<string, string>,
    processEnv: map<string, string>,
    issued: set<AccessToken>,
    clock: nat,
    nextId: nat)

  datatype Error =
    | EmailTaken | InvalidCredentials | InvalidOtp | AlreadyVerified | EmailFailed
    | UserDisabled | EmailNotVerified | InvalidPin | InvalidRefreshToken | SessionInactive
    | UserNotFound | DeviceTaken | DeviceNotFound | DeviceNotEnabled | InvalidChallenge | InvalidSignature
    | MissingToken | InvalidToken | TokenExpired
    | OwnAccount | SubmissionNotFound | AlreadyRejected | AlreadyApproved | ForeignKeyViolation
    | NoSuchOrder

  datatype Reply =
    | Done
    | OtpChallenge(retryAfterSec: nat)
    | Tokens(access: AccessToken, refreshToken: nat, expiresInSec: int)
    | Challenge(challenge: nat)
    | Granted(id: nat, email: string, sessionId: nat, role: Role)
    | Rejected(error: Error)

  /** How a biometric login proved itself. */
  datatype Proof = Proof(device: string, challenge: nat)

  /** What a call did that later statements count or order. */
  datatype Event =
    | Quiet
    | UserRegistered(user: nat, otp: nat)
    | UserCreated(user: nat)
    | UserSuspended(user: nat)
    | UserDeleted(user: nat, devices: set<string>)
    | CodeIssued(otp: nat, user: nat, purpose: Purpose)
    | CodeCompared(otp: nat, user: nat, purpose: Purpose, ok: bool)
    | SessionOpened(session: nat, user: nat, token: AccessToken, ttlSec: int, via: Option<Proof>)
    | SessionExtended(session: nat, user: nat, token: AccessToken, ttlSec: int)
    | RequestAccepted(token: AccessToken)
    | DeviceEnrolled(device: string, user: nat)
    | DeviceChanged(device: string)
    | ChallengeIssued(device: string, challenge: nat)
    | TierPromoted(submission: nat, user: nat)

  datatype Outcome = Outcome(state: State, reply: Reply, event: Event)

  /**
   * One service call. `code` is the random code drawn by a call that issues one, `emailOk` whether the
   * mail provider took the message, `order` the database's newest-first order of the live sessions,
   * `signatureOk` whether the device signature verifies.
   */
  datatype Call =
    | Register(email: string, password: string, pin: string, code: string, emailOk: bool)
    | VerifyEmail(email: string, code: string)
    | ResendEmailOtp(email: string, code: string, emailOk: bool)
    | Login(email: string, password: string)
    | Refresh(refreshToken: nat, pin: string, order: seq<nat>)
    | UnlockWithPin(refreshToken: nat, pin: string, order: seq<nat>)
    | Logout(sessionId: nat)
    | RequestPasswordReset(email: string, code: string, emailOk: bool)
    | ConfirmPasswordReset(email: string, code: string, newPassword: string)
    | RegisterBiometric(userId: nat, pin: string, deviceId: string, publicKey: string)
    | UpdateBiometricSetting(userId: nat, deviceId: string, enabled: bool)
    | CreateBiometricChallenge(deviceId: string)
    | LoginWithBiometric(deviceId: string, challenge: nat, signatureOk: bool)
    | Guard(token: Option<AccessToken>)
    | CreateUser(email: string, password: string, pin: string, role: Option<Role>, tier: Option<Tier>)
    | UpdateUser(id: nat, newEmail: Option<string>, role: Option<Role>, status: Option<Status>, tier: Option<Tier>)
    | UpdateUserLimits(id: nat, tier: Option<Tier>, dailyXaf: Option<string>, monthlyXaf: Option<string>)
    | SuspendUser(id: nat)
    | ActivateUser(id: nat)
    | DeleteUser(id: nat, adminId: nat)
    | SetEnvironmentVariable(key: string, value: string)
    | UpdateSessionPolicy(update: Update)
    | SubmitKyc(userId: nat)
    | ApproveKyc(id: nat, adminId: nat)
    | RejectKyc(id: nat, adminId: nat, reason: Option<string>)

  /** A call made `delay` milliseconds after the one before it. */
  datatype Request = Request(delay: nat, call: Call)

  predicate Matches(plain: string, hash: string) {
    plain == hash
  }

  function AccessTtl(s: State): (ttl: int)
    ensures 60 <= ttl <= MAX_ACCESS_TTL_SEC
  {
    Seconds(s.env, s.processEnv, AccessTokenTtl)
  }

  function InactivityTtlNow(s: State): (ttl: int)
    ensures 300 <= ttl <= MAX_INACTIVITY_TTL_SEC
  {
    Seconds(s.env, s.processEnv, InactivityTtl)
  }

  /** The `where` clause of every session lookup: not revoked and not past the stored expiry. */
  predicate Live(s: State, id: nat) {
    id in s.sessions && s.sessions[id].revokedAt.None? && s.sessions[id].expiresAt > s.clock
  }

  /** assertSessionStillActive: idle no longer than the policy in force now. */
  predicate WithinInactivity(s: State, lastUsedAt: nat) {
    s.clock - lastUsedAt <= InactivityTtlNow(s) * 1000
  }

  predicate ActiveVerified(user: User) {
    user.status == Active && user.emailVerifiedAt.Some?
  }

  predicate Unconsumed(otp: Otp, userId: nat, purpose: Purpose) {
    otp.userId == userId && otp.purpose == purpose && otp.consumedAt.None?
  }

  /** A listing of exactly the live sessions, latest createdAt first; ties come in any order. */
  ghost predicate IsNewestFirst(s: State, order: seq<nat>) {
    && (forall i, j | 0 <= i < j < |order| :: order[i] != order[j])
    && (forall id :: id in order <==> Live(s, id))
    && (forall i, j | 0 <= i < j < |order| && Live(s, order[i]) && Live(s, order[j]) ::
          s.sessions[order[i]].createdAt >= s.sessions[order[j]].createdAt)
  }

  function Page(order: seq<nat>): seq<nat> {
    if |order| <= SCAN_LIMIT then order else order[..SCAN_LIMIT]
  }

  function Fail(s: State, error: Error): Outcome {
    Outcome(s, Rejected(error), Quiet)
  }

  function Init(processEnv: map<string, string>, epoch: nat): State {
    State(map[], map[], map[], map[], map[], map[], processEnv, {}, epoch, 0)
  }
}
