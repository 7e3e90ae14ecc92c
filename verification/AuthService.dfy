// src/auth/auth.service.ts and src/auth/jwt-auth.guard.ts carried out on the tables, statement by
// statement. Each method is proved to end in the state, and to give the answer, of its call in AuthCalls.
module AuthService {
  import opened Wrappers
  import opened Text
  import opened SessionPolicy
  import opened Model
  import A = AuthCalls
  import D = Database
  import opened Machine
  import opened Invariants
  import opened SessionTheorems
  import opened AnswerTheorems

  /** The session is found by this refresh token, and this is its owner's PIN. */
  predicate HoldsOwnersPin(s: State, id: nat, refreshToken: nat, pin: string) {
    && id in s.sessions && s.sessions[id].refreshHash == refreshToken
    && s.sessions[id].userId in s.users && s.users[s.sessions[id].userId].pinHash == pin
  }

  lemma RefreshNeedsPin(s: State, call: Call, token: nat, pin: string, order: seq<nat>)
    requires call == Call.Refresh(token, pin, order) || call == Call.UnlockWithPin(token, pin, order)
    requires Dispatch(s, call).reply.Tokens?
    ensures Dispatch(s, call).reply.refreshToken == token
    ensures HoldsOwnersPin(s, Dispatch(s, call).reply.access.sessionId, token, pin)
  {
    hide Dispatch;
    RefreshNeeds(s, call, token, pin, order);
  }

  class AuthService {
    const db: D.Database

    constructor (db: D.Database)
      ensures this.db == db
    {
      this.db := db;
    }

    // ----- one-time codes -----

    method IssueOtp(userId: nat, purpose: Purpose, code: string, emailOk: bool) returns (reply: Reply)
      modifies db
      ensures db.View() == A.IssueOtp(old(db.View()), userId, purpose, code)
      ensures reply == A.MailReply(emailOk)
    {
      db.otps := A.ConsumeOutstanding(db.otps, userId, purpose, db.clock);
      db.otps := db.otps[db.nextId := Otp(userId, purpose, code, db.clock, db.clock + OTP_TTL_MS, None, 0)];
      db.nextId := db.nextId + 1;
      reply := if emailOk then OtpChallenge(OTP_RESEND_COOLDOWN_SEC) else Rejected(EmailFailed);
    }

    /** True when the code was accepted; `compared` tells where the comparison took place. */
    method ConsumeOtp(userId: nat, purpose: Purpose, code: string) returns (ok: bool, ghost compared: A.Check)
      requires OneOutstanding(db.View())
      modifies db
      ensures compared == A.CheckOtp(old(db.View()), userId, purpose, code)
      ensures ok <==> compared.Right?
      ensures compared.NoCode? ==> db.View() == old(db.View())
      ensures compared.Wrong? ==> db.View() == A.CountAttempt(old(db.View()), compared.id)
      ensures compared.Right? ==> db.View() == A.Consume(old(db.View()), compared.id)
    {
      var otp := db.FindNewestOtp(userId, purpose, true);
      compared := A.NoCode;
      if otp.None? || db.otps[otp.value].attempts >= OTP_MAX_ATTEMPTS {
        return false, compared;
      }
      var id := otp.value;
      if !Matches(Trim(code), db.otps[id].codeHash) {
        compared := A.Wrong(id);
        db.otps := db.otps[id := db.otps[id].(attempts := db.otps[id].attempts + 1)];
        return false, compared;
      }
      compared := A.Right(id);
      db.otps := db.otps[id := db.otps[id].(consumedAt := Some(db.clock))];
      ok := true;
    }

    method GetOtpRetryAfterSec(userId: nat, purpose: Purpose) returns (wait: nat)
      requires OneOutstanding(db.View())
      ensures wait == A.RetryAfterSec(db.View(), userId, purpose)
    {
      var latest := db.FindNewestOtp(userId, purpose, false);
      if latest.None? {
        return 0;
      }
      var elapsedSec := (db.clock - db.otps[latest.value].createdAt) / 1000;
      wait := if OTP_RESEND_COOLDOWN_SEC - elapsedSec > 0 then OTP_RESEND_COOLDOWN_SEC - elapsedSec else 0;
    }

    method Register(email: string, password: string, pin: string, code: string, emailOk: bool)
      returns (reply: Reply, ghost event: Event)
      requires Inv(db.View())
      modifies db
      ensures Outcome(db.View(), reply, event)
          == Dispatch(old(db.View()), Call.Register(email, password, pin, code, emailOk))
      ensures Inv(db.View())
    {
      hide Inv;
      KeptByCall(db.View(), Call.Register(email, password, pin, code, emailOk));
      var existing := db.FindUserByEmail(email);
      if existing.Some? {
        return Rejected(EmailTaken), Quiet;
      }
      var id := db.nextId;
      db.users := db.users[id := User(NormalizeEmail(email), password, pin, None, Active, RoleUser, Tier1, "0", "0")];
      db.nextId := id + 1;
      event := UserRegistered(id, db.nextId);
      reply := IssueOtp(id, EmailVerification, code, emailOk);
    }

    method VerifyEmail(email: string, code: string) returns (reply: Reply, ghost event: Event)
      requires Inv(db.View())
      modifies db
      ensures Outcome(db.View(), reply, event) == Dispatch(old(db.View()), Call.VerifyEmail(email, code))
      ensures Inv(db.View())
      ensures reply.Done? ==> exists u :: A.Holds(db.View(), u, email) && db.users[u].emailVerifiedAt.Some?
    {
      hide Inv;
      KeptByCall(db.View(), Call.VerifyEmail(email, code));
      var user := db.FindUserByEmail(email);
      if user.None? {
        return Rejected(InvalidCredentials), Quiet;
      }
      var id := user.value;
      var ok, compared := ConsumeOtp(id, EmailVerification, code);
      event := if compared.NoCode? then Quiet else CodeCompared(compared.id, id, EmailVerification, ok);
      if !ok {
        return Rejected(InvalidOtp), event;
      }
      db.users := db.users[id := db.users[id].(emailVerifiedAt := Some(db.users[id].emailVerifiedAt.GetOr(db.clock)))];
      reply := Done;
      assert A.Holds(db.View(), id, email);
    }

    method ResendEmailOtp(email: string, code: string, emailOk: bool) returns (reply: Reply, ghost event: Event)
      requires Inv(db.View())
      modifies db
      ensures Outcome(db.View(), reply, event) == Dispatch(old(db.View()), Call.ResendEmailOtp(email, code, emailOk))
      ensures Inv(db.View())
    {
      hide Inv;
      KeptByCall(db.View(), Call.ResendEmailOtp(email, code, emailOk));
      var user := db.FindUserByEmail(email);
      if user.None? {
        return Rejected(InvalidCredentials), Quiet;
      }
      if db.users[user.value].emailVerifiedAt.Some? {
        return Rejected(AlreadyVerified), Quiet;
      }
      var wait := GetOtpRetryAfterSec(user.value, EmailVerification);
      if wait > 0 {
        return OtpChallenge(wait), Quiet;
      }
      event := CodeIssued(db.nextId, user.value, EmailVerification);
      reply := IssueOtp(user.value, EmailVerification, code, emailOk);
    }

    method RequestPasswordReset(email: string, code: string, emailOk: bool)
      returns (reply: Reply, ghost event: Event)
      requires Inv(db.View())
      modifies db
      ensures Outcome(db.View(), reply, event)
          == Dispatch(old(db.View()), Call.RequestPasswordReset(email, code, emailOk))
      ensures Inv(db.View())
      ensures event.CodeIssued? ==> event.otp in db.otps && db.otps[event.otp].codeHash == code
    {
      hide Inv;
      KeptByCall(db.View(), Call.RequestPasswordReset(email, code, emailOk));
      if Dispatch(db.View(), Call.RequestPasswordReset(email, code, emailOk)).event.CodeIssued? {
        ResetRequestStores(db.View(), email, code, emailOk);
      }
      var user := db.FindUserByEmail(email);
      if user.None? {
        return Rejected(InvalidCredentials), Quiet;
      }
      event := CodeIssued(db.nextId, user.value, PasswordReset);
      reply := IssueOtp(user.value, PasswordReset, code, emailOk);
    }

    method ConfirmPasswordReset(email: string, code: string, newPassword: string)
      returns (reply: Reply, ghost event: Event)
      requires Inv(db.View())
      modifies db
      ensures Outcome(db.View(), reply, event)
          == Dispatch(old(db.View()), Call.ConfirmPasswordReset(email, code, newPassword))
      ensures Inv(db.View())
      ensures reply.Done? ==>
          exists u :: A.Holds(db.View(), u, email) && db.users[u].passwordHash == newPassword
              && AllRevoked(db.View(), u)
    {
      hide Inv, EmailsUnique, OneOutstanding, RowsOwned, NormalizeEmail, Seconds, IsNewestFirst,
        A.CheckOtp, A.RetryAfterSec;
      KeptByCall(db.View(), Call.ConfirmPasswordReset(email, code, newPassword));
      var user := db.FindUserByEmail(email);
      if user.None? {
        return Rejected(InvalidCredentials), Quiet;
      }
      var id := user.value;
      var ok, compared := ConsumeOtp(id, PasswordReset, code);
      event := if compared.NoCode? then Quiet else CodeCompared(compared.id, id, PasswordReset, ok);
      if !ok {
        return Rejected(InvalidOtp), event;
      }
      db.users := db.users[id := db.users[id].(passwordHash := newPassword)];
      db.sessions := A.RevokeAll(db.sessions, id, db.clock);
      reply := Done;
      assert A.Holds(db.View(), id, email) && AllRevoked(db.View(), id);
    }

    // ----- sessions -----

    method SignAccessToken(userId: nat, user: User, sessionId: nat, accessTokenTtlSec: int)
      returns (token: AccessToken)
      modifies db
      ensures token.sub == userId && token.sessionId == sessionId
      ensures token.email == user.email && token.role == user.role
      ensures token.iat == db.clock / 1000 && token.exp == token.iat + accessTokenTtlSec
      ensures db.View() == old(db.View()).(issued := old(db.issued) + {token})
    {
      var iat := db.clock / 1000;
      token := AccessToken(userId, user.email, sessionId, user.role, iat, iat + accessTokenTtlSec);
      db.issued := db.issued + {token};
    }

    method CreateSession(userId: nat, user: User, ghost via: Option<Proof>)
      returns (reply: Reply, ghost event: Event)
      modifies db
      ensures Outcome(db.View(), reply, event) == A.CreateSession(old(db.View()), userId, user, via)
    {
      var id, refreshToken := db.nextId, db.nextId + 1;
      db.nextId := db.nextId + 2;
      var now := db.clock;
      var policy := GetPolicy(db.env, db.processEnv);
      var row := Session(userId, refreshToken, now, now, now + policy.inactivityTtlSec * 1000, None);
      db.sessions := db.sessions[id := row];
      var token := SignAccessToken(userId, user, id, policy.accessTokenTtlSec);
      reply := Tokens(token, refreshToken, policy.accessTokenTtlSec);
      event := SessionOpened(id, userId, token, policy.inactivityTtlSec, via);
    }

    method Login(email: string, password: string) returns (reply: Reply, ghost event: Event)
      requires Inv(db.View())
      modifies db
      ensures Outcome(db.View(), reply, event) == Dispatch(old(db.View()), Call.Login(email, password))
      ensures Inv(db.View())
      ensures reply.Tokens? ==>
          exists u :: A.Holds(old(db.View()), u, email) && ActiveVerified(old(db.users)[u])
                   && password == old(db.users)[u].passwordHash
    {
      hide Inv;
      KeptByCall(db.View(), Call.Login(email, password));
      if Dispatch(db.View(), Call.Login(email, password)).reply.Tokens? {
        LoginNeeds(db.View(), email, password);
      }
      var found := db.FindUserByEmail(email);
      if found.None? {
        return Rejected(InvalidCredentials), Quiet;
      }
      var user := db.users[found.value];
      if !ActiveVerified(user) {
        return Rejected(A.NotActiveVerified(user)), Quiet;
      }
      if !Matches(password, user.passwordHash) {
        return Rejected(InvalidCredentials), Quiet;
      }
      reply, event := CreateSession(found.value, user, None);
    }

    /** The common end of refresh and unlock: new last use, new expiry, new access token. */
    method ExtendSession(id: nat) returns (reply: Reply, ghost event: Event)
      requires id in db.sessions && db.sessions[id].userId in db.users
      modifies db
      ensures Outcome(db.View(), reply, event) == A.Extend(old(db.View()), id)
    {
      var row := db.sessions[id];
      var policy := GetPolicy(db.env, db.processEnv);
      db.sessions :=
        db.sessions[id := row.(lastUsedAt := db.clock, expiresAt := db.clock + policy.inactivityTtlSec * 1000)];
      var token := SignAccessToken(row.userId, db.users[row.userId], id, policy.accessTokenTtlSec);
      reply := Tokens(token, row.refreshHash, policy.accessTokenTtlSec);
      event := SessionExtended(id, row.userId, token, policy.inactivityTtlSec);
    }

    /** Scan the newest fifty live sessions; the first match decides the call. */
    method Refresh(refreshToken: nat, pin: string) returns (reply: Reply, ghost event: Event, order: seq<nat>)
      requires Inv(db.View())
      modifies db
      ensures IsNewestFirst(old(db.View()), order)
      ensures Outcome(db.View(), reply, event) == Dispatch(old(db.View()), Call.Refresh(refreshToken, pin, order))
      ensures Inv(db.View())
      ensures reply.Tokens? ==> reply.refreshToken == refreshToken
      ensures reply.Tokens? ==> HoldsOwnersPin(old(db.View()), reply.access.sessionId, refreshToken, pin)
    {
      hide Inv, EmailsUnique, OneOutstanding, NormalizeEmail, Seconds, HoldsOwnersPin, A.Extend, A.FindByEmail;
      order := db.FindLiveNewestFirst();
      KeptByCall(db.View(), Call.Refresh(refreshToken, pin, order));
      if Dispatch(db.View(), Call.Refresh(refreshToken, pin, order)).reply.Tokens? {
        RefreshNeedsPin(db.View(), Call.Refresh(refreshToken, pin, order), refreshToken, pin, order);
      }
      var page := Page(order);
      ghost var s := db.View();
      assert page[0..] == page;
      for i := 0 to |page|
        invariant db.View() == s
        invariant A.RefreshScan(s, refreshToken, pin, page) == A.RefreshScan(s, refreshToken, pin, page[i..])
      {
        var id := page[i];
        assert page[i..][0] == id && page[i..][1..] == page[i + 1..] && id in order;
        if db.sessions[id].refreshHash == refreshToken {
          var row := db.sessions[id];
          var user := db.users[row.userId];
          if !ActiveVerified(user) {
            return Rejected(A.NotActiveVerified(user)), Quiet, order;
          }
          if !Matches(pin, user.pinHash) {
            return Rejected(InvalidPin), Quiet, order;
          }
          if !WithinInactivity(db.View(), row.lastUsedAt) {
            return Rejected(SessionInactive), Quiet, order;
          }
          reply, event := ExtendSession(id);
          return reply, event, order;
        }
      }
      reply, event := Rejected(InvalidRefreshToken), Quiet;
    }

    /** findActiveSessionByRefreshToken: the same scan, ended by the first match. */
    method FindActiveSessionByRefreshToken(refreshToken: nat) returns (found: Option<nat>, order: seq<nat>)
      ensures IsNewestFirst(db.View(), order)
      ensures found == A.FindSession(db.View(), refreshToken, Page(order))
    {
      order := db.FindLiveNewestFirst();
      var page := Page(order);
      assert page[0..] == page;
      for i := 0 to |page|
        invariant A.FindSession(db.View(), refreshToken, page) == A.FindSession(db.View(), refreshToken, page[i..])
      {
        assert page[i..][0] == page[i] && page[i..][1..] == page[i + 1..] && page[i] in order;
        if db.sessions[page[i]].refreshHash == refreshToken {
          return Some(page[i]), order;
        }
      }
      found := None;
    }

    method UnlockWithPin(refreshToken: nat, pin: string)
      returns (reply: Reply, ghost event: Event, order: seq<nat>)
      requires Inv(db.View())
      modifies db
      ensures IsNewestFirst(old(db.View()), order)
      ensures Outcome(db.View(), reply, event)
          == Dispatch(old(db.View()), Call.UnlockWithPin(refreshToken, pin, order))
      ensures Inv(db.View())
      ensures reply.Tokens? ==> reply.refreshToken == refreshToken
      ensures reply.Tokens? ==> HoldsOwnersPin(old(db.View()), reply.access.sessionId, refreshToken, pin)
    {
      hide Inv;
      var found: Option<nat>;
      found, order := FindActiveSessionByRefreshToken(refreshToken);
      KeptByCall(db.View(), Call.UnlockWithPin(refreshToken, pin, order));
      if Dispatch(db.View(), Call.UnlockWithPin(refreshToken, pin, order)).reply.Tokens? {
        RefreshNeedsPin(db.View(), Call.UnlockWithPin(refreshToken, pin, order), refreshToken, pin, order);
      }
      if found.None? {
        return Rejected(InvalidRefreshToken), Quiet, order;
      }
      var row := db.sessions[found.value];
      var user := db.users[row.userId];
      if !Matches(pin, user.pinHash) {
        return Rejected(InvalidPin), Quiet, order;
      }
      if !ActiveVerified(user) {
        return Rejected(A.NotActiveVerified(user)), Quiet, order;
      }
      if !WithinInactivity(db.View(), row.lastUsedAt) {
        return Rejected(SessionInactive), Quiet, order;
      }
      reply, event := ExtendSession(found.value);
    }

    method Logout(sessionId: nat) returns (reply: Reply, ghost event: Event)
      requires Inv(db.View())
      modifies db
      ensures Outcome(db.View(), reply, event) == Dispatch(old(db.View()), Call.Logout(sessionId))
      ensures Inv(db.View())
      ensures sessionId in db.sessions ==> db.sessions[sessionId].revokedAt.Some?
    {
      hide Inv;
      KeptByCall(db.View(), Call.Logout(sessionId));
      if sessionId in db.sessions && db.sessions[sessionId].revokedAt.None? {
        db.sessions := db.sessions[sessionId := db.sessions[sessionId].(revokedAt := Some(db.clock))];
      }
      reply, event := Done, Quiet;
    }

    // ----- biometric devices -----

    method RegisterBiometric(userId: nat, pin: string, deviceId: string, publicKey: string)
      returns (reply: Reply, ghost event: Event)
      requires Inv(db.View())
      modifies db
      ensures Outcome(db.View(), reply, event)
          == Dispatch(old(db.View()), Call.RegisterBiometric(userId, pin, deviceId, publicKey))
      ensures Inv(db.View())
    {
      hide Inv;
      KeptByCall(db.View(), Call.RegisterBiometric(userId, pin, deviceId, publicKey));
      if userId !in db.users {
        return Rejected(UserNotFound), Quiet;
      }
      if !Matches(pin, db.users[userId].pinHash) {
        return Rejected(InvalidPin), Quiet;
      }
      if deviceId in db.credentials && db.credentials[deviceId].userId != userId {
        return Rejected(DeviceTaken), Quiet;
      }
      if deviceId in db.credentials {
        var row := db.credentials[deviceId];
        db.credentials := db.credentials[deviceId :=
          row.(publicKey := publicKey, enabled := true, challenge := None, challengeExpiresAt := None)];
      } else {
        db.credentials := db.credentials[deviceId := Credential(userId, publicKey, true, None, None)];
      }
      reply, event := Done, DeviceEnrolled(deviceId, userId);
    }

    method UpdateBiometricSetting(userId: nat, deviceId: string, enabled: bool)
      returns (reply: Reply, ghost event: Event)
      requires Inv(db.View())
      modifies db
      ensures Outcome(db.View(), reply, event)
          == Dispatch(old(db.View()), Call.UpdateBiometricSetting(userId, deviceId, enabled))
      ensures Inv(db.View())
    {
      hide Inv;
      KeptByCall(db.View(), Call.UpdateBiometricSetting(userId, deviceId, enabled));
      if deviceId !in db.credentials || db.credentials[deviceId].userId != userId {
        return Rejected(DeviceNotFound), Quiet;
      }
      var row := db.credentials[deviceId];
      db.credentials :=
        db.credentials[deviceId := row.(enabled := enabled, challenge := None, challengeExpiresAt := None)];
      reply, event := Done, DeviceChanged(deviceId);
    }

    method CreateBiometricChallenge(deviceId: string) returns (reply: Reply, ghost event: Event)
      requires Inv(db.View())
      modifies db
      ensures Outcome(db.View(), reply, event) == Dispatch(old(db.View()), Call.CreateBiometricChallenge(deviceId))
      ensures Inv(db.View())
    {
      hide Inv, EmailsUnique, OneOutstanding, NormalizeEmail, Seconds, IsNewestFirst;
      KeptByCall(db.View(), Call.CreateBiometricChallenge(deviceId));
      if deviceId !in db.credentials || !db.credentials[deviceId].enabled {
        return Rejected(DeviceNotEnabled), Quiet;
      }
      var row := db.credentials[deviceId];
      var user := db.users[row.userId];
      if !ActiveVerified(user) {
        return Rejected(A.NotActiveVerified(user)), Quiet;
      }
      var challenge := db.nextId;
      db.nextId := db.nextId + 1;
      db.credentials := db.credentials[deviceId :=
        row.(challenge := Some(challenge), challengeExpiresAt := Some(db.clock + CHALLENGE_TTL_MS))];
      reply, event := Challenge(challenge), ChallengeIssued(deviceId, challenge);
    }

    method LoginWithBiometric(deviceId: string, challenge: nat, signatureOk: bool)
      returns (reply: Reply, ghost event: Event)
      requires Inv(db.View())
      modifies db
      ensures Outcome(db.View(), reply, event)
          == Dispatch(old(db.View()), Call.LoginWithBiometric(deviceId, challenge, signatureOk))
      ensures Inv(db.View())
      ensures reply.Tokens? ==> deviceId in db.credentials && db.credentials[deviceId].challenge.None?
    {
      hide Inv;
      KeptByCall(db.View(), Call.LoginWithBiometric(deviceId, challenge, signatureOk));
      if deviceId !in db.credentials {
        return Rejected(InvalidChallenge), Quiet;
      }
      var row := db.credentials[deviceId];
      if !row.enabled || row.challenge != Some(challenge)
         || row.challengeExpiresAt.None? || row.challengeExpiresAt.value <= db.clock {
        return Rejected(InvalidChallenge), Quiet;
      }
      if !signatureOk {
        return Rejected(InvalidSignature), Quiet;
      }
      var user := db.users[row.userId];
      if !ActiveVerified(user) {
        return Rejected(A.NotActiveVerified(user)), Quiet;
      }
      db.credentials := db.credentials[deviceId := row.(challenge := None, challengeExpiresAt := None)];
      reply, event := CreateSession(row.userId, user, Some(Proof(deviceId, challenge)));
    }
  }

  class JwtAuthGuard {
    const db: D.Database

    constructor (db: D.Database)
      ensures this.db == db
    {
      this.db := db;
    }

    method CanActivate(presented: Option<AccessToken>) returns (reply: Reply, ghost event: Event)
      requires Inv(db.View())
      ensures reply == Dispatch(db.View(), Call.Guard(presented)).reply
      ensures event == Dispatch(db.View(), Call.Guard(presented)).event
      ensures db.View() == Dispatch(db.View(), Call.Guard(presented)).state
      ensures reply.Granted? <==>
          && presented.Some? && presented.value in db.issued && db.clock / 1000 < presented.value.exp
          && Live(db.View(), presented.value.sessionId)
          && db.sessions[presented.value.sessionId].userId == presented.value.sub
          && WithinInactivity(db.View(), db.sessions[presented.value.sessionId].lastUsedAt)
    {
      hide Inv, EmailsUnique, OneOutstanding, NormalizeEmail, IsNewestFirst, A.CheckOtp, A.FindByEmail, ToNumber;
      if presented.None? {
        return Rejected(MissingToken), Quiet;
      }
      var token := presented.value;
      if token !in db.issued {
        return Rejected(InvalidToken), Quiet;
      }
      if db.clock / 1000 >= token.exp {
        return Rejected(TokenExpired), Quiet;
      }
      if !Live(db.View(), token.sessionId) || db.sessions[token.sessionId].userId != token.sub {
        return Rejected(SessionInactive), Quiet;
      }
      var policy := GetPolicy(db.env, db.processEnv);
      if db.clock - db.sessions[token.sessionId].lastUsedAt > policy.inactivityTtlSec * 1000 {
        return Rejected(SessionInactive), Quiet;
      }
      reply, event := Granted(token.sub, token.email, token.sessionId, token.role), RequestAccepted(token);
    }
  }
}
