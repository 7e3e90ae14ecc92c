// What every call does to the columns of a user, to the revocation of a session, and to the key and setting of
// a device: which calls write them, and with which of their arguments.
module Columns {
  import opened Wrappers
  import opened Text
  import opened SessionPolicy
  import opened Model
  import opened AuthCalls
  import A = AuthCalls
  import M = AdminCalls
  import opened Machine
  import opened Summaries
  import opened Invariants

  /** The call created this user. */
  predicate Creates(e: Event, u: nat) {
    (e.UserRegistered? || e.UserCreated?) && e.user == u
  }

  function NewPassword(s: State, call: Call, o: Outcome, u: nat): Option<string> {
    if call.ConfirmPasswordReset? && o.reply.Done? && Holds(s, u, call.email) then Some(call.newPassword) else None
  }

  function NewStatus(call: Call, o: Outcome, u: nat): Option<Status> {
    if !o.reply.Done? then None
    else match call
      case UpdateUser(id, _, _, status, _) => if id == u then status else None
      case SuspendUser(id) => if id == u then Some(Disabled) else None
      case ActivateUser(id) => if id == u then Some(Active) else None
      case _ => None
  }

  function NewRole(call: Call, o: Outcome, u: nat): Option<Role> {
    if call.UpdateUser? && call.id == u && o.reply.Done? then call.role else None
  }

  function NewEmail(call: Call, o: Outcome, u: nat): Option<string> {
    if call.UpdateUser? && call.id == u && o.reply.Done? && call.newEmail.Some? then
      Some(NormalizeEmail(call.newEmail.value))
    else None
  }

  function NewTier(call: Call, o: Outcome, u: nat): Option<Tier> {
    if o.event.TierPromoted? && o.event.user == u then Some(Tier2)
    else if !o.reply.Done? then None
    else match call
      case UpdateUser(id, _, _, _, tier) => if id == u then tier else None
      case UpdateUserLimits(id, tier, _, _) => if id == u then tier else None
      case _ => None
  }

  /** The limits an approval sets are fixed; an administrator's are those of the request. */
  function NewDaily(call: Call, o: Outcome, u: nat): Option<string> {
    if o.event.TierPromoted? && o.event.user == u then Some("5000000")
    else if call.UpdateUserLimits? && call.id == u && o.reply.Done? then call.dailyXaf
    else None
  }

  function NewMonthly(call: Call, o: Outcome, u: nat): Option<string> {
    if o.event.TierPromoted? && o.event.user == u then Some("50000000")
    else if call.UpdateUserLimits? && call.id == u && o.reply.Done? then call.monthlyXaf
    else None
  }

  /** Every column but the verification of the address, in terms of the call. */
  predicate ColumnsFollow(s: State, call: Call, o: Outcome, u: nat)
    requires u in s.users && u in o.state.users
  {
    var before, after := s.users[u], o.state.users[u];
    && after.pinHash == before.pinHash
    && after.email == NewEmail(call, o, u).GetOr(before.email)
    && after.passwordHash == NewPassword(s, call, o, u).GetOr(before.passwordHash)
    && after.status == NewStatus(call, o, u).GetOr(before.status)
    && after.role == NewRole(call, o, u).GetOr(before.role)
    && after.tier == NewTier(call, o, u).GetOr(before.tier)
    && after.dailyLimitXaf == NewDaily(call, o, u).GetOr(before.dailyLimitXaf)
    && after.monthlyLimitXaf == NewMonthly(call, o, u).GetOr(before.monthlyLimitXaf)
  }

  /** What a new user starts with: the credentials of the call that created it. */
  predicate StartsWith(call: Call, user: User) {
    && user.status == Active && user.dailyLimitXaf == user.monthlyLimitXaf == "0"
    && match call
       case Register(email, password, pin, _, _) =>
         user.email == NormalizeEmail(email) && user.passwordHash == password && user.pinHash == pin
         && user.role == RoleUser && user.tier == Tier1 && user.emailVerifiedAt.None?
       case CreateUser(email, password, pin, role, tier) =>
         user.email == NormalizeEmail(email) && user.passwordHash == password && user.pinHash == pin
         && user.role == role.GetOr(RoleUser) && user.tier == tier.GetOr(Tier1) && user.emailVerifiedAt.Some?
       case _ => false
  }

  /** The call revokes this session: its logout, a suspension of its owner, or a reset of its owner's password. */
  predicate Revokes(s: State, call: Call, o: Outcome, id: nat)
    requires id in s.sessions
  {
    match call
    case Logout(k) => k == id
    case SuspendUser(u) => u == s.sessions[id].userId && o.reply.Done?
    case ConfirmPasswordReset(email, _, _) => Holds(s, s.sessions[id].userId, email) && o.reply.Done?
    case _ => false
  }

  predicate RevocationFollows(s: State, call: Call, o: Outcome, id: nat)
    requires id in s.sessions && id in o.state.sessions
  {
    o.state.sessions[id].revokedAt ==
      if s.sessions[id].revokedAt.None? && Revokes(s, call, o, id) then Some(s.clock) else s.sessions[id].revokedAt
  }

  predicate Enrols(call: Call, o: Outcome, device: string) {
    call.RegisterBiometric? && call.deviceId == device && o.reply.Done?
  }

  predicate SetsDevice(call: Call, o: Outcome, device: string) {
    call.UpdateBiometricSetting? && call.deviceId == device && o.reply.Done?
  }

  predicate DeviceFollows(s: State, call: Call, o: Outcome, device: string) {
    device in o.state.credentials ==>
      && (device !in s.credentials ==> Enrols(call, o, device))
      && o.state.credentials[device].publicKey
         == (if Enrols(call, o, device) then call.publicKey
             else if device in s.credentials then s.credentials[device].publicKey else "")
      && o.state.credentials[device].enabled
         == (if Enrols(call, o, device) then true
             else if SetsDevice(call, o, device) then call.enabled
             else device in s.credentials && s.credentials[device].enabled)
  }

  /** The code a call draws, hashes and mails. */
  function DrawnCode(call: Call): Option<string> {
    match call
    case Register(_, _, _, code, _) => Some(code)
    case ResendEmailOtp(_, code, _) => Some(code)
    case RequestPasswordReset(_, code, _) => Some(code)
    case _ => None
  }

  /** A code that is issued is the one the call drew. */
  predicate CodeFollows(call: Call, o: Outcome) {
    o.event.CodeIssued? || o.event.UserRegistered? ==>
      DrawnCode(call).Some? && o.event.otp in o.state.otps
      && o.state.otps[o.event.otp].codeHash == DrawnCode(call).value
  }

  /** The columns of user u, the revocation of session id, and the device, after a call. */
  predicate Tracks(s: State, call: Call, o: Outcome, u: nat, id: nat, device: string) {
    && (u in s.users && u in o.state.users ==> ColumnsFollow(s, call, o, u))
    && (Creates(o.event, u) ==> u in o.state.users && StartsWith(call, o.state.users[u]))
    && (id in s.sessions && id in o.state.sessions ==> RevocationFollows(s, call, o, id))
    && DeviceFollows(s, call, o, device)
    && CodeFollows(call, o)
  }

  /** A table the call did not write. */
  lemma Untouched(s: State, call: Call, o: Outcome, u: nat, id: nat, device: string)
    ensures o.state.users == s.users && u in s.users && !o.event.TierPromoted? && !call.ConfirmPasswordReset?
            && !call.UpdateUser? && !call.UpdateUserLimits? && !call.SuspendUser? && !call.ActivateUser?
        ==> ColumnsFollow(s, call, o, u)
    ensures o.state.sessions == s.sessions && id in s.sessions && !call.Logout? && !call.SuspendUser?
            && !call.ConfirmPasswordReset?
        ==> RevocationFollows(s, call, o, id)
    ensures o.state.credentials == s.credentials && !call.RegisterBiometric? && !call.UpdateBiometricSetting?
        ==> DeviceFollows(s, call, o, device)
  {
  }

  lemma FailTracks(s: State, call: Call, error: Error, u: nat, id: nat, device: string)
    requires !call.Logout?
    ensures Tracks(s, call, Fail(s, error), u, id, device)
  {
  }

  lemma RegisterTracks(s: State, email: string, password: string, pin: string, code: string, emailOk: bool,
      u: nat, k: nat, device: string)
    requires FreshIds(s)
    ensures Tracks(s, Call.Register(email, password, pin, code, emailOk),
        A.Register(s, email, password, pin, code, emailOk), u, k, device)
  {
    hide Seconds, NormalizeEmail, FindByEmail, ConsumeOutstanding, RevocationFollows, DeviceFollows;
    Untouched(s, Call.Register(email, password, pin, code, emailOk), A.Register(s, email, password, pin, code,
      emailOk), u, k, device);
  }

  lemma VerifyEmailTracks(s: State, email: string, code: string, u: nat, k: nat, device: string)
    ensures Tracks(s, Call.VerifyEmail(email, code), A.VerifyEmail(s, email, code), u, k, device)
  {
    hide Seconds, FindByEmail, CheckOtp, Fail, CountAttempt, Tracks, NormalizeEmail;
    var call := Call.VerifyEmail(email, code);
    match FindByEmail(s, email) {
      case None => FailTracks(s, call, InvalidCredentials, u, k, device);
      case Some(h) =>
        match CheckOtp(s, h, EmailVerification, code) {
          case NoCode => FailTracks(s, call, InvalidOtp, u, k, device);
          case Wrong(id) => CountTracks(s, call, h, EmailVerification, id, u, k, device);
          case Right(id) => VerifiedTracks(s, email, code, h, id, u, k, device);
        }
    }
  }

  lemma VerifiedTracks(s: State, email: string, code: string, h: nat, id: nat, u: nat, k: nat, device: string)
    requires FindByEmail(s, email) == Some(h) && CheckOtp(s, h, EmailVerification, code) == Right(id)
    ensures Tracks(s, Call.VerifyEmail(email, code), A.VerifyEmail(s, email, code), u, k, device)
  {
    hide Seconds, NormalizeEmail, FindByEmail, CheckOtp, Trim, Matches, RevocationFollows, DeviceFollows;
    Untouched(s, Call.VerifyEmail(email, code), A.VerifyEmail(s, email, code), u, k, device);
  }

  lemma ResendEmailOtpTracks(s: State, email: string, code: string, emailOk: bool, u: nat, k: nat, device: string)
    ensures Tracks(s, Call.ResendEmailOtp(email, code, emailOk),
        A.ResendEmailOtp(s, email, code, emailOk), u, k, device)
  {
    hide Seconds, NormalizeEmail, FindByEmail, RetryAfterSec, ConsumeOutstanding, ColumnsFollow, RevocationFollows,
      DeviceFollows;
    Untouched(s, Call.ResendEmailOtp(email, code, emailOk), A.ResendEmailOtp(s, email, code, emailOk), u, k, device);
  }

  lemma LoginTracks(s: State, email: string, password: string, u: nat, k: nat, device: string)
    requires FreshIds(s)
    ensures Tracks(s, Call.Login(email, password), A.Login(s, email, password), u, k, device)
  {
    hide Seconds, NormalizeEmail, FindByEmail, Matches, ColumnsFollow, DeviceFollows;
    Untouched(s, Call.Login(email, password), A.Login(s, email, password), u, k, device);
  }

  lemma LogoutTracks(s: State, sessionId: nat, u: nat, k: nat, device: string)
    ensures Tracks(s, Call.Logout(sessionId), A.Logout(s, sessionId), u, k, device)
  {
    hide Seconds, ColumnsFollow, DeviceFollows;
    Untouched(s, Call.Logout(sessionId), A.Logout(s, sessionId), u, k, device);
  }

  lemma RequestPasswordResetTracks(s: State, email: string, code: string, emailOk: bool,
      u: nat, k: nat, device: string)
    ensures Tracks(s, Call.RequestPasswordReset(email, code, emailOk),
        A.RequestPasswordReset(s, email, code, emailOk), u, k, device)
  {
    hide Seconds, NormalizeEmail, FindByEmail, ConsumeOutstanding, ColumnsFollow, RevocationFollows, DeviceFollows;
    Untouched(s, Call.RequestPasswordReset(email, code, emailOk), A.RequestPasswordReset(s, email, code, emailOk), u,
      k, device);
  }

  lemma RegisterBiometricTracks(s: State, userId: nat, pin: string, deviceId: string, publicKey: string,
      u: nat, k: nat, device: string)
    ensures Tracks(s, Call.RegisterBiometric(userId, pin, deviceId, publicKey),
        A.RegisterBiometric(s, userId, pin, deviceId, publicKey), u, k, device)
  {
    hide Seconds, Matches, ColumnsFollow, RevocationFollows;
    Untouched(s, Call.RegisterBiometric(userId, pin, deviceId, publicKey), A.RegisterBiometric(s, userId, pin,
      deviceId, publicKey), u, k, device);
  }

  lemma UpdateBiometricSettingTracks(s: State, userId: nat, deviceId: string, enabled: bool,
      u: nat, k: nat, device: string)
    ensures Tracks(s, Call.UpdateBiometricSetting(userId, deviceId, enabled),
        A.UpdateBiometricSetting(s, userId, deviceId, enabled), u, k, device)
  {
    hide Seconds, ColumnsFollow, RevocationFollows;
    Untouched(s, Call.UpdateBiometricSetting(userId, deviceId, enabled), A.UpdateBiometricSetting(s, userId,
      deviceId, enabled), u, k, device);
  }

  lemma CreateBiometricChallengeTracks(s: State, deviceId: string, u: nat, k: nat, device: string)
    ensures Tracks(s, Call.CreateBiometricChallenge(deviceId), A.CreateBiometricChallenge(s, deviceId), u, k, device)
  {
    hide Seconds, ColumnsFollow, RevocationFollows;
    Untouched(s, Call.CreateBiometricChallenge(deviceId), A.CreateBiometricChallenge(s, deviceId), u, k, device);
  }

  lemma LoginWithBiometricTracks(s: State, deviceId: string, challenge: nat, signatureOk: bool,
      u: nat, k: nat, device: string)
    requires FreshIds(s)
    ensures Tracks(s, Call.LoginWithBiometric(deviceId, challenge, signatureOk),
        A.LoginWithBiometric(s, deviceId, challenge, signatureOk), u, k, device)
  {
    hide Seconds, ColumnsFollow;
    Untouched(s, Call.LoginWithBiometric(deviceId, challenge, signatureOk), A.LoginWithBiometric(s, deviceId,
      challenge, signatureOk), u, k, device);
  }

  lemma GuardTracks(s: State, token: Option<AccessToken>, u: nat, k: nat, device: string)
    ensures Tracks(s, Call.Guard(token), A.Guard(s, token), u, k, device)
  {
    hide Seconds, ColumnsFollow, RevocationFollows, DeviceFollows;
    Untouched(s, Call.Guard(token), A.Guard(s, token), u, k, device);
  }

  lemma CreateUserTracks(s: State, email: string, password: string, pin: string, role: Option<Role>,
      tier: Option<Tier>, u: nat, k: nat, device: string)
    requires FreshIds(s)
    ensures Tracks(s, Call.CreateUser(email, password, pin, role, tier),
        M.CreateUser(s, email, password, pin, role, tier), u, k, device)
  {
    hide Seconds, NormalizeEmail, FindByEmail, RevocationFollows, DeviceFollows;
    Untouched(s, Call.CreateUser(email, password, pin, role, tier), M.CreateUser(s, email, password, pin, role,
      tier), u, k, device);
  }

  lemma UpdateUserTracks(s: State, id: nat, newEmail: Option<string>, role: Option<Role>, status: Option<Status>,
      tier: Option<Tier>, u: nat, k: nat, device: string)
    ensures Tracks(s, Call.UpdateUser(id, newEmail, role, status, tier),
        M.UpdateUser(s, id, newEmail, role, status, tier), u, k, device)
  {
    hide Tracks, Fail, NormalizeEmail, M.EmailHeldByOther;
    var call := Call.UpdateUser(id, newEmail, role, status, tier);
    if id !in s.users {
      FailTracks(s, call, UserNotFound, u, k, device);
    } else if newEmail.Some? && M.EmailHeldByOther(s, id, NormalizeEmail(newEmail.value)) {
      FailTracks(s, call, EmailTaken, u, k, device);
    } else {
      UpdatedTracks(s, id, newEmail, role, status, tier, u, k, device);
    }
  }

  lemma UpdatedTracks(s: State, id: nat, newEmail: Option<string>, role: Option<Role>, status: Option<Status>,
      tier: Option<Tier>, u: nat, k: nat, device: string)
    requires id in s.users
    requires !(newEmail.Some? && M.EmailHeldByOther(s, id, NormalizeEmail(newEmail.value)))
    ensures Tracks(s, Call.UpdateUser(id, newEmail, role, status, tier),
        M.UpdateUser(s, id, newEmail, role, status, tier), u, k, device)
  {
    hide NormalizeEmail, M.EmailHeldByOther, RevocationFollows, DeviceFollows;
    Untouched(s, Call.UpdateUser(id, newEmail, role, status, tier),
      M.UpdateUser(s, id, newEmail, role, status, tier), u, k, device);
  }

  lemma UpdateUserLimitsTracks(s: State, id: nat, tier: Option<Tier>, dailyXaf: Option<string>,
      monthlyXaf: Option<string>, u: nat, k: nat, device: string)
    ensures Tracks(s, Call.UpdateUserLimits(id, tier, dailyXaf, monthlyXaf),
        M.UpdateUserLimits(s, id, tier, dailyXaf, monthlyXaf), u, k, device)
  {
    hide Seconds, RevocationFollows, DeviceFollows;
    Untouched(s, Call.UpdateUserLimits(id, tier, dailyXaf, monthlyXaf), M.UpdateUserLimits(s, id, tier, dailyXaf,
      monthlyXaf), u, k, device);
  }

  lemma SuspendUserTracks(s: State, id: nat, u: nat, k: nat, device: string)
    ensures Tracks(s, Call.SuspendUser(id), M.SuspendUser(s, id), u, k, device)
  {
    hide Tracks, Fail, RevokeAll;
    if id !in s.users {
      FailTracks(s, Call.SuspendUser(id), UserNotFound, u, k, device);
    } else {
      SuspendedTracks(s, id, u, k, device);
    }
  }

  lemma SuspendedTracks(s: State, id: nat, u: nat, k: nat, device: string)
    requires id in s.users
    ensures Tracks(s, Call.SuspendUser(id), M.SuspendUser(s, id), u, k, device)
  {
    hide DeviceFollows;
    Untouched(s, Call.SuspendUser(id), M.SuspendUser(s, id), u, k, device);
  }

  lemma ActivateUserTracks(s: State, id: nat, u: nat, k: nat, device: string)
    ensures Tracks(s, Call.ActivateUser(id), M.ActivateUser(s, id), u, k, device)
  {
    hide Seconds, RevocationFollows, DeviceFollows;
    Untouched(s, Call.ActivateUser(id), M.ActivateUser(s, id), u, k, device);
  }

  lemma DeleteUserTracks(s: State, id: nat, adminId: nat, u: nat, k: nat, device: string)
    ensures Tracks(s, Call.DeleteUser(id, adminId), M.DeleteUser(s, id, adminId), u, k, device)
  {
    hide Seconds;
  }

  lemma SetEnvironmentVariableTracks(s: State, key: string, value: string, u: nat, k: nat, device: string)
    ensures Tracks(s, Call.SetEnvironmentVariable(key, value), M.SetEnvironmentVariable(s, key, value), u, k, device)
  {
    hide Seconds, ColumnsFollow, RevocationFollows, DeviceFollows;
    Untouched(s, Call.SetEnvironmentVariable(key, value), M.SetEnvironmentVariable(s, key, value), u, k, device);
  }

  lemma UpdateSessionPolicyTracks(s: State, update: Update, u: nat, k: nat, device: string)
    ensures Tracks(s, Call.UpdateSessionPolicy(update), M.UpdateSessionPolicy(s, update), u, k, device)
  {
    hide Seconds, Upserts, Entries, ColumnsFollow, RevocationFollows, DeviceFollows;
    Untouched(s, Call.UpdateSessionPolicy(update), M.UpdateSessionPolicy(s, update), u, k, device);
  }

  lemma SubmitKycTracks(s: State, userId: nat, u: nat, k: nat, device: string)
    ensures Tracks(s, Call.SubmitKyc(userId), M.SubmitKyc(s, userId), u, k, device)
  {
    hide Seconds, ColumnsFollow, RevocationFollows, DeviceFollows;
    Untouched(s, Call.SubmitKyc(userId), M.SubmitKyc(s, userId), u, k, device);
  }

  lemma ApproveKycTracks(s: State, id: nat, adminId: nat, u: nat, k: nat, device: string)
    ensures Tracks(s, Call.ApproveKyc(id, adminId), M.ApproveKyc(s, id, adminId), u, k, device)
  {
    hide Seconds, RevocationFollows, DeviceFollows;
    Untouched(s, Call.ApproveKyc(id, adminId), M.ApproveKyc(s, id, adminId), u, k, device);
  }

  lemma RejectKycTracks(s: State, id: nat, adminId: nat, reason: Option<string>, u: nat, k: nat, device: string)
    ensures Tracks(s, Call.RejectKyc(id, adminId, reason), M.RejectKyc(s, id, adminId, reason), u, k, device)
  {
    hide Seconds, ColumnsFollow, RevocationFollows, DeviceFollows;
    Untouched(s, Call.RejectKyc(id, adminId, reason), M.RejectKyc(s, id, adminId, reason), u, k, device);
  }

  lemma ConfirmPasswordResetTracks(s: State, email: string, code: string, newPassword: string, u: nat, k: nat,
      device: string)
    requires EmailsUnique(s) && RowsOwned(s)
    ensures Tracks(s, Call.ConfirmPasswordReset(email, code, newPassword),
        A.ConfirmPasswordReset(s, email, code, newPassword), u, k, device)
  {
    hide Seconds, FindByEmail, CheckOtp, Fail, CountAttempt, Tracks, EmailsUnique, RowsOwned, NormalizeEmail, RevokeAll;
    var call := Call.ConfirmPasswordReset(email, code, newPassword);
    match FindByEmail(s, email) {
      case None => FailTracks(s, call, InvalidCredentials, u, k, device);
      case Some(h) =>
        match CheckOtp(s, h, PasswordReset, code) {
          case NoCode => FailTracks(s, call, InvalidOtp, u, k, device);
          case Wrong(id) => CountTracks(s, call, h, PasswordReset, id, u, k, device);
          case Right(id) => ResetTracks(s, email, code, newPassword, h, id, u, k, device);
        }
    }
  }

  lemma CountTracks(s: State, call: Call, h: nat, purpose: Purpose, id: nat, u: nat, k: nat, device: string)
    requires (call.VerifyEmail? || call.ConfirmPasswordReset?) && id in s.otps
    ensures Tracks(s, call, Outcome(CountAttempt(s, id), Rejected(InvalidOtp), CodeCompared(id, h, purpose, false)),
        u, k, device)
  {
    hide Seconds;
  }

  lemma ResetTracks(s: State, email: string, code: string, newPassword: string, h: nat, id: nat, u: nat, k: nat,
      device: string)
    requires EmailsUnique(s) && RowsOwned(s)
    requires FindByEmail(s, email) == Some(h) && CheckOtp(s, h, PasswordReset, code) == Right(id)
    ensures Tracks(s, Call.ConfirmPasswordReset(email, code, newPassword),
        A.ConfirmPasswordReset(s, email, code, newPassword), u, k, device)
  {
    hide Seconds, NormalizeEmail, FindByEmail, CheckOtp, Trim, DeviceFollows, ColumnsFollow, RevocationFollows,
      EmailsUnique, RowsOwned, A.ConfirmPasswordReset;
    var call, o := Call.ConfirmPasswordReset(email, code, newPassword),
        A.ConfirmPasswordReset(s, email, code, newPassword);
    ResetColumns(s, email, code, newPassword, h, id, u);
    ResetRevokes(s, email, code, newPassword, h, id, k);
    ResetRest(s, email, code, newPassword, h, id);
    Untouched(s, call, o, u, k, device);
  }

  lemma ResetRest(s: State, email: string, code: string, newPassword: string, h: nat, id: nat)
    requires FindByEmail(s, email) == Some(h) && CheckOtp(s, h, PasswordReset, code) == Right(id)
    ensures var o := A.ConfirmPasswordReset(s, email, code, newPassword);
      o.state.credentials == s.credentials && o.event.CodeCompared?
  {
    hide FindByEmail, CheckOtp, RevokeAll, Trim, Matches;
  }

  lemma OnlyHolder(s: State, email: string, h: nat, v: nat)
    requires EmailsUnique(s) && FindByEmail(s, email) == Some(h) && Holds(s, v, email)
    ensures v == h
  {
    hide NormalizeEmail;
  }

  lemma ResetColumns(s: State, email: string, code: string, newPassword: string, h: nat, id: nat, u: nat)
    requires EmailsUnique(s)
    requires FindByEmail(s, email) == Some(h) && CheckOtp(s, h, PasswordReset, code) == Right(id)
    ensures var o := A.ConfirmPasswordReset(s, email, code, newPassword);
      u in s.users && u in o.state.users ==>
        ColumnsFollow(s, Call.ConfirmPasswordReset(email, code, newPassword), o, u)
  {
    hide NormalizeEmail, FindByEmail, CheckOtp, Trim, Matches, RevokeAll, EmailsUnique;
    if Holds(s, u, email) {
      OnlyHolder(s, email, h, u);
    }
  }

  lemma ResetRevokes(s: State, email: string, code: string, newPassword: string, h: nat, id: nat, k: nat)
    requires EmailsUnique(s) && RowsOwned(s)
    requires FindByEmail(s, email) == Some(h) && CheckOtp(s, h, PasswordReset, code) == Right(id)
    ensures var o := A.ConfirmPasswordReset(s, email, code, newPassword);
      k in s.sessions && k in o.state.sessions ==>
        RevocationFollows(s, Call.ConfirmPasswordReset(email, code, newPassword), o, k)
  {
    hide NormalizeEmail, FindByEmail, CheckOtp, Trim, Matches, EmailsUnique, RowsOwned;
    if k in s.sessions && Holds(s, s.sessions[k].userId, email) {
      OnlyHolder(s, email, h, s.sessions[k].userId);
    }
  }

  lemma MovedTracks(s: State, call: Call, id: nat, u: nat, k: nat, device: string)
    requires (call.Refresh? || call.UnlockWithPin?) && id in s.sessions && s.sessions[id].userId in s.users
    ensures Tracks(s, call, Extend(s, id), u, k, device)
  {
    hide Seconds, ColumnsFollow, DeviceFollows;
    Untouched(s, call, Extend(s, id), u, k, device);
  }

  /** Refresh and unlock. */
  lemma RefusedOrExtendedTracks(s: State, call: Call, o: Outcome, refreshToken: nat, pin: string, page: seq<nat>,
      u: nat, k: nat, device: string)
    requires call.Refresh? || call.UnlockWithPin?
    requires RefusedOrExtended(s, o, refreshToken, pin, page)
    ensures Tracks(s, call, o, u, k, device)
  {
    hide Seconds, Tracks, Extend, Fail, ActiveVerified, WithinInactivity, Matches;
    if o.reply.Rejected? && o == Fail(s, o.reply.error) {
      FailTracks(s, call, o.reply.error, u, k, device);
    } else {
      var id :| id in page && Extendable(s, id, refreshToken, pin) && o == Extend(s, id);
      MovedTracks(s, call, id, u, k, device);
    }
  }

  lemma AuthCallTracks(s: State, call: Call, u: nat, k: nat, device: string)
    requires FreshIds(s) && EmailsUnique(s) && RowsOwned(s) && !AdminCall(call)
    ensures Tracks(s, call, Dispatch(s, call), u, k, device)
  {
    hide Tracks, FreshIds, EmailsUnique, RowsOwned, IsNewestFirst, Fail, RefreshScan, RefusedOrExtended, A.Register,
      A.VerifyEmail, A.ResendEmailOtp, A.Login, A.UnlockWithPin, A.Logout, A.RequestPasswordReset,
      A.ConfirmPasswordReset, A.RegisterBiometric, A.UpdateBiometricSetting, A.CreateBiometricChallenge,
      A.LoginWithBiometric, A.Guard, M.CreateUser, M.UpdateUser, M.UpdateUserLimits, M.SuspendUser, M.ActivateUser,
      M.DeleteUser, M.SetEnvironmentVariable, M.UpdateSessionPolicy, M.SubmitKyc, M.ApproveKyc, M.RejectKyc;
    match call {
      case Register(email, password, pin, code, emailOk) =>
        RegisterTracks(s, email, password, pin, code, emailOk, u, k, device);
      case VerifyEmail(email, code) => VerifyEmailTracks(s, email, code, u, k, device);
      case ResendEmailOtp(email, code, emailOk) => ResendEmailOtpTracks(s, email, code, emailOk, u, k, device);
      case Login(email, password) => LoginTracks(s, email, password, u, k, device);
      case Logout(sessionId) => LogoutTracks(s, sessionId, u, k, device);
      case RequestPasswordReset(email, code, emailOk) =>
        RequestPasswordResetTracks(s, email, code, emailOk, u, k, device);
      case RegisterBiometric(userId, pin, deviceId, publicKey) =>
        RegisterBiometricTracks(s, userId, pin, deviceId, publicKey, u, k, device);
      case UpdateBiometricSetting(userId, deviceId, enabled) =>
        UpdateBiometricSettingTracks(s, userId, deviceId, enabled, u, k, device);
      case CreateBiometricChallenge(deviceId) => CreateBiometricChallengeTracks(s, deviceId, u, k, device);
      case LoginWithBiometric(deviceId, challenge, signatureOk) =>
        LoginWithBiometricTracks(s, deviceId, challenge, signatureOk, u, k, device);
      case Guard(token) => GuardTracks(s, token, u, k, device);
      case ConfirmPasswordReset(email, code, newPassword) =>
        ConfirmPasswordResetTracks(s, email, code, newPassword, u, k, device);
      case Refresh(token, pin, order) =>
        if IsNewestFirst(s, order) {
          ScanOutcome(s, token, pin, Page(order));
          RefusedOrExtendedTracks(s, call, A.Refresh(s, token, pin, order), token, pin, Page(order), u, k, device);
        } else {
          FailTracks(s, call, NoSuchOrder, u, k, device);
        }
      case UnlockWithPin(token, pin, order) =>
        if IsNewestFirst(s, order) {
          UnlockOutcome(s, token, pin, order);
          RefusedOrExtendedTracks(s, call, A.UnlockWithPin(s, token, pin, order), token, pin, Page(order), u, k,
              device);
        } else {
          FailTracks(s, call, NoSuchOrder, u, k, device);
        }
    }
  }

  lemma AdminCallTracks(s: State, call: Call, u: nat, k: nat, device: string)
    requires FreshIds(s) && AdminCall(call)
    ensures Tracks(s, call, Dispatch(s, call), u, k, device)
  {
    hide Tracks, FreshIds, IsNewestFirst, Fail, A.Register, A.VerifyEmail, A.ResendEmailOtp, A.Login, A.Refresh,
      A.UnlockWithPin, A.Logout, A.RequestPasswordReset, A.ConfirmPasswordReset, A.RegisterBiometric,
      A.UpdateBiometricSetting, A.CreateBiometricChallenge, A.LoginWithBiometric, A.Guard, M.CreateUser, M.UpdateUser,
      M.UpdateUserLimits, M.SuspendUser, M.ActivateUser, M.DeleteUser, M.SetEnvironmentVariable,
      M.UpdateSessionPolicy, M.SubmitKyc, M.ApproveKyc, M.RejectKyc;
    match call {
      case CreateUser(email, password, pin, role, tier) =>
        CreateUserTracks(s, email, password, pin, role, tier, u, k, device);
      case UpdateUser(id, newEmail, role, status, tier) =>
        UpdateUserTracks(s, id, newEmail, role, status, tier, u, k, device);
      case UpdateUserLimits(id, tier, dailyXaf, monthlyXaf) =>
        UpdateUserLimitsTracks(s, id, tier, dailyXaf, monthlyXaf, u, k, device);
      case SuspendUser(id) => SuspendUserTracks(s, id, u, k, device);
      case ActivateUser(id) => ActivateUserTracks(s, id, u, k, device);
      case DeleteUser(id, adminId) => DeleteUserTracks(s, id, adminId, u, k, device);
      case SetEnvironmentVariable(key, value) => SetEnvironmentVariableTracks(s, key, value, u, k, device);
      case UpdateSessionPolicy(update) => UpdateSessionPolicyTracks(s, update, u, k, device);
      case SubmitKyc(userId) => SubmitKycTracks(s, userId, u, k, device);
      case ApproveKyc(id, adminId) => ApproveKycTracks(s, id, adminId, u, k, device);
      case RejectKyc(id, adminId, reason) => RejectKycTracks(s, id, adminId, reason, u, k, device);
    }
  }

  /** Every call, for every user, session and device: no other argument and no other call writes these columns. */
  lemma CallTracks(s: State, call: Call, u: nat, k: nat, device: string)
    requires FreshIds(s) && EmailsUnique(s) && RowsOwned(s)
    ensures Tracks(s, call, Dispatch(s, call), u, k, device)
  {
    hide Dispatch, Tracks, FreshIds, EmailsUnique, RowsOwned;
    if AdminCall(call) {
      AdminCallTracks(s, call, u, k, device);
    } else {
      AuthCallTracks(s, call, u, k, device);
    }
  }

  lemma CallRevokes(s: State, call: Call, id: nat)
    requires FreshIds(s) && EmailsUnique(s) && RowsOwned(s) && id in s.sessions
        && id in Dispatch(s, call).state.sessions
    ensures RevocationFollows(s, call, Dispatch(s, call), id)
  {
    hide Dispatch, FreshIds, EmailsUnique, RowsOwned, ColumnsFollow, RevocationFollows, DeviceFollows;
    CallTracks(s, call, 0, id, "");
  }

  lemma CallIssues(s: State, call: Call)
    requires FreshIds(s) && EmailsUnique(s) && RowsOwned(s)
    ensures CodeFollows(call, Dispatch(s, call))
  {
    hide Dispatch, FreshIds, EmailsUnique, RowsOwned, ColumnsFollow, RevocationFollows, DeviceFollows, CodeFollows;
    CallTracks(s, call, 0, 0, "");
  }
}
