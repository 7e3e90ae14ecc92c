// The serial transition system: every service call is one step, calls come in any order and with any
// arguments, and the clock never goes back.
module Machine {
  import opened Model
  import A = AuthCalls
  import M = AdminCalls

  ghost function Dispatch(s: State, call: Call): Outcome {
    match call
    case Register(email, password, pin, code, emailOk) => A.Register(s, email, password, pin, code, emailOk)
    case VerifyEmail(email, code) => A.VerifyEmail(s, email, code)
    case ResendEmailOtp(email, code, emailOk) => A.ResendEmailOtp(s, email, code, emailOk)
    case Login(email, password) => A.Login(s, email, password)
    case Refresh(token, pin, order) =>
      if IsNewestFirst(s, order) then A.Refresh(s, token, pin, order) else Fail(s, NoSuchOrder)
    case UnlockWithPin(token, pin, order) =>
      if IsNewestFirst(s, order) then A.UnlockWithPin(s, token, pin, order) else Fail(s, NoSuchOrder)
    case Logout(id) => A.Logout(s, id)
    case RequestPasswordReset(email, code, emailOk) => A.RequestPasswordReset(s, email, code, emailOk)
    case ConfirmPasswordReset(email, code, newPassword) => A.ConfirmPasswordReset(s, email, code, newPassword)
    case RegisterBiometric(userId, pin, deviceId, publicKey) => A.RegisterBiometric(s, userId, pin, deviceId, publicKey)
    case UpdateBiometricSetting(userId, deviceId, enabled) => A.UpdateBiometricSetting(s, userId, deviceId, enabled)
    case CreateBiometricChallenge(deviceId) => A.CreateBiometricChallenge(s, deviceId)
    case LoginWithBiometric(deviceId, challenge, signatureOk) =>
      A.LoginWithBiometric(s, deviceId, challenge, signatureOk)
    case Guard(token) => A.Guard(s, token)
    case CreateUser(email, password, pin, role, tier) => M.CreateUser(s, email, password, pin, role, tier)
    case UpdateUser(id, email, role, status, tier) => M.UpdateUser(s, id, email, role, status, tier)
    case UpdateUserLimits(id, tier, daily, monthly) => M.UpdateUserLimits(s, id, tier, daily, monthly)
    case SuspendUser(id) => M.SuspendUser(s, id)
    case ActivateUser(id) => M.ActivateUser(s, id)
    case DeleteUser(id, adminId) => M.DeleteUser(s, id, adminId)
    case SetEnvironmentVariable(key, value) => M.SetEnvironmentVariable(s, key, value)
    case UpdateSessionPolicy(update) => M.UpdateSessionPolicy(s, update)
    case SubmitKyc(userId) => M.SubmitKyc(s, userId)
    case ApproveKyc(id, adminId) => M.ApproveKyc(s, id, adminId)
    case RejectKyc(id, adminId, reason) => M.RejectKyc(s, id, adminId, reason)
  }

  function Advance(s: State, delay: nat): State {
    s.(clock := s.clock + delay)
  }

  ghost function Step(s: State, request: Request): Outcome {
    Dispatch(Advance(s, request.delay), request.call)
  }

  /** A start and an endless script of requests; every finite history is a prefix of some run. */
  datatype Run = Run(processEnv: map<string, string>, epoch: nat, script: nat -> Request)

  /** The state after the first n requests. */
  ghost function StateAt(run: Run, n: nat): State {
    if n == 0 then Init(run.processEnv, run.epoch) else Step(StateAt(run, n - 1), run.script(n - 1)).state
  }

  /** The state in which request n is served: the clock has moved on, nothing else has. */
  ghost function ServedIn(run: Run, n: nat): State {
    Advance(StateAt(run, n), run.script(n).delay)
  }

  ghost function OutcomeAt(run: Run, n: nat): Outcome {
    Step(StateAt(run, n), run.script(n))
  }

  ghost function EventAt(run: Run, n: nat): Event {
    OutcomeAt(run, n).event
  }

  /** The time, in milliseconds, at which request n is served. */
  ghost function TimeAt(run: Run, n: nat): nat {
    ServedIn(run, n).clock
  }
}
