// The steps of the interleaved models, taken without interruption, against the serial calls: a login, the
// guard, the single writes, the entry and the issue of a code, and a biometric login.
module InterleavedSerial {
  import opened Wrappers
  import opened Text
  import opened Model
  import opened AuthCalls
  import A = AuthCalls
  import M = AdminCalls
  import opened Invariants
  import OtpTheorems
  import I = Interleaved
  import C = InterleavedCodes
  import V = InterleavedDevices

  // ----- login -----

  ghost function LoginRest(w: I.World, pid: nat): I.World {
    I.Do(I.Do(I.Do(I.Do(w, I.ReadClock(pid)), I.ReadPolicy(pid)), I.InsertSession(pid)), I.SignToken(pid))
  }

  lemma LoginEnded(w: I.World, pid: nat)
    requires pid in w.processes && w.processes[pid].Ended?
    ensures LoginRest(w, pid).db == w.db
  {
    hide InactivityTtlNow, AccessTtl, IsNewestFirst, FindSession, RevokeAll;
    assert I.Do(w, I.ReadClock(pid)) == w && I.Do(w, I.ReadPolicy(pid)) == w;
    assert I.Do(w, I.InsertSession(pid)) == w && I.Do(w, I.SignToken(pid)) == w;
  }

  lemma LoginReads(w: I.World, pid: nat, u: nat, user: User)
    requires pid in w.processes && w.processes[pid] == I.LoggingIn(u, user)
    ensures var now, ttl, accessTtl := w.db.clock, InactivityTtlNow(w.db), AccessTtl(w.db);
      I.Do(I.Do(w, I.ReadClock(pid)), I.ReadPolicy(pid)) == I.Go(w, pid, I.PricedLogin(u, user, now, ttl, accessTtl))
  {
    hide InactivityTtlNow, AccessTtl, IsNewestFirst, FindSession, RevokeAll;
    assert I.Do(w, I.ReadClock(pid)) == I.Go(w, pid, I.Opening(u, user, w.db.clock));
  }

  lemma LoginWrites(w: I.World, pid: nat, u: nat)
    requires pid in w.processes && u in w.db.users
    requires w.processes[pid]
      == I.PricedLogin(u, w.db.users[u], w.db.clock, InactivityTtlNow(w.db), AccessTtl(w.db))
    ensures I.Do(I.Do(w, I.InsertSession(pid)), I.SignToken(pid)).db
         == A.CreateSession(w.db, u, w.db.users[u], None).state
  {
    hide InactivityTtlNow, AccessTtl, IsNewestFirst, FindSession, RevokeAll;
    var w1 := I.Do(w, I.InsertSession(pid));
    assert w1 == I.StepInsert(w, pid, w.processes[pid]);
  }

  /** The steps of a login leave the rows and the signed token of the serial call, for the holder of the address. */
  lemma LoginIsSerial(w: I.World, pid: nat, u: nat, email: string, password: string)
    requires pid !in w.processes && EmailsUnique(w.db) && Holds(w.db, u, email)
    ensures LoginRest(I.Do(w, I.FindUser(pid, u, password)), pid).db == A.Login(w.db, email, password).state
  {
    hide I.Do, FindByEmail, NormalizeEmail, A.CreateSession, EmailsUnique, InactivityTtlNow, AccessTtl;
    assert FindByEmail(w.db, email) == Some(u) by { Found(w.db, email, u); }
    var w1 := I.Do(w, I.FindUser(pid, u, password));
    FindingUser(w, pid, u, password);
    if w1.processes[pid].Ended? {
      LoginEnded(w1, pid);
    } else {
      LoginReads(w1, pid, u, w.db.users[u]);
      LoginWrites(I.Do(I.Do(w1, I.ReadClock(pid)), I.ReadPolicy(pid)), pid, u);
    }
  }

  lemma Found(s: State, email: string, u: nat)
    requires EmailsUnique(s) && Holds(s, u, email)
    ensures FindByEmail(s, email) == Some(u)
  {
    hide NormalizeEmail;
  }

  lemma FindingUser(w: I.World, pid: nat, u: nat, password: string)
    requires pid !in w.processes && u in w.db.users
    ensures var user := w.db.users[u];
      I.Do(w, I.FindUser(pid, u, password)) ==
        I.Go(w, pid, if ActiveVerified(user) && Matches(password, user.passwordHash)
                     then I.LoggingIn(u, user) else I.Ended)
  {
    hide IsNewestFirst, FindSession, RevokeAll;
  }

  // ----- guard -----

  lemma GuardLooksUp(w: I.World, pid: nat, token: AccessToken)
    requires pid !in w.processes
    ensures var s := w.db;
      var finds := token in s.issued && s.clock / 1000 < token.exp && Live(s, token.sessionId)
                && s.sessions[token.sessionId].userId == token.sub;
      I.Do(I.Do(w, I.Verify(pid, token)), I.LookUp(pid)) ==
        I.Go(w, pid, if finds then I.LookedUp(token, s.sessions[token.sessionId].lastUsedAt) else I.Ended)
  {
    hide IsNewestFirst, FindSession, RevokeAll, InactivityTtlNow, AccessTtl;
    assert I.AsOf(w.db, w.db.clock) == w.db;
    var w1 := I.Do(w, I.Verify(pid, token));
    assert w1 == I.Go(w, pid, if token in w.db.issued && w.db.clock / 1000 < token.exp
                              then I.Verified(token, w.db.clock) else I.Ended);
  }

  lemma GuardDecides(w: I.World, pid: nat)
    requires pid in w.processes && (w.processes[pid].LookedUp? || w.processes[pid].Ended?)
    ensures var t := I.Do(I.Do(w, I.ReadPolicy(pid)), I.Decide(pid));
      t.db == w.db && pid in t.processes
      && (t.processes[pid].Passed? <==>
            w.processes[pid].LookedUp? && WithinInactivity(w.db, w.processes[pid].lastUsedAt))
  {
    hide IsNewestFirst, FindSession, RevokeAll, InactivityTtlNow, AccessTtl;
  }

  /** The steps of the guard let a request through exactly if the serial guard grants it. */
  lemma GuardIsSerial(w: I.World, pid: nat, token: AccessToken)
    requires pid !in w.processes
    ensures var t := I.Do(I.Do(I.Do(I.Do(w, I.Verify(pid, token)), I.LookUp(pid)), I.ReadPolicy(pid)), I.Decide(pid));
      t.db == w.db && pid in t.processes
      && (t.processes[pid].Passed? <==> A.Guard(w.db, Some(token)).reply.Granted?)
  {
    hide I.Do, InactivityTtlNow, AccessTtl;
    GuardLooksUp(w, pid, token);
    GuardDecides(I.Do(I.Do(w, I.Verify(pid, token)), I.LookUp(pid)), pid);
  }

  // ----- single writes -----

  /** The writes of other calls, with the clock read just before, leave the users and sessions of those calls. */
  lemma LogoutIsSerial(w: I.World, id: nat)
    ensures I.Do(w, I.RevokeOne(id, w.db.clock)).db == A.Logout(w.db, id).state
  {
    hide InactivityTtlNow, AccessTtl, IsNewestFirst, FindSession, RevokeAll;
  }

  lemma SuspensionIsSerial(w: I.World, u: nat)
    ensures I.Do(w, I.SuspendWrite(u, w.db.clock)).db == M.SuspendUser(w.db, u).state
  {
    hide InactivityTtlNow, AccessTtl, IsNewestFirst, FindSession, RevokeAll;
  }

  lemma DeletionIsSerial(w: I.World, u: nat, adminId: nat)
    requires u != adminId && u in w.db.users
    ensures var t := M.DeleteUser(w.db, u, adminId).state;
      I.Do(w, I.DeleteWrite(u)).db == w.db.(users := t.users, sessions := t.sessions)
  {
    hide InactivityTtlNow, AccessTtl, IsNewestFirst, FindSession, RevokeAll;
  }

  lemma ResetIsSerial(w: I.World, u: nat, email: string, code: string, newPassword: string)
    requires EmailsUnique(w.db) && Holds(w.db, u, email) && CheckOtp(w.db, u, PasswordReset, code).Right?
    ensures var t := A.ConfirmPasswordReset(w.db, email, code, newPassword).state;
      I.Do(w, I.ResetTransaction(u, newPassword, w.db.clock)).db == w.db.(users := t.users, sessions := t.sessions)
  {
    hide InactivityTtlNow, AccessTtl, IsNewestFirst, FindSession, RevokeAll, CheckOtp, FindByEmail, NormalizeEmail,
      EmailsUnique;
    Found(w.db, email, u);
  }

  // ----- codes -----

  function CodesOf(s: State): C.World {
    C.World(s.otps, s.clock, s.nextId, map[])
  }

  function AfterQuery(s: State, u: nat, purpose: Purpose, text: string, found: Option<nat>): C.World {
    C.Do(C.Do(CodesOf(s), C.Begin(0, u, purpose, text)), C.Query(0, found))
  }

  lemma QueryIsSerial(s: State, u: nat, purpose: Purpose, text: string)
    requires OneOutstanding(s)
    ensures var t := AfterQuery(s, u, purpose, text, Newest(s, Unexpired(s, u, purpose)));
      t.otps == s.otps && 0 in t.handlers
      && t.handlers[0] == match CheckOtp(s, u, purpose, text)
         case NoCode => C.Ended
         case Wrong(id) => C.Holding(id, false)
         case Right(id) => C.Holding(id, true)
  {
    hide Trim, Matches;
    var found := Newest(s, Unexpired(s, u, purpose));
    var p := C.Reading(u, purpose, text, s.clock);
    var w1 := C.Do(CodesOf(s), C.Begin(0, u, purpose, text));
    assert w1.otps == s.otps && w1.handlers[0] == p;
    if found.Some? {
      assert C.Answers(w1, p, found.value);
    } else {
      forall id | id in s.otps
        ensures !C.Selected(w1, p, id)
      {
        if C.Selected(w1, p, id) {
          OtpTheorems.OnlyCandidate(s, Unexpired(s, u, purpose), u, purpose, id);
        }
      }
    }
  }

  /** Entering a code without interruption counts, consumes or leaves the row that the serial call does. */
  lemma EntryIsSerial(s: State, u: nat, purpose: Purpose, text: string)
    requires OneOutstanding(s)
    ensures C.Do(AfterQuery(s, u, purpose, text, Newest(s, Unexpired(s, u, purpose))), C.Write(0, s.clock)).otps
         == match CheckOtp(s, u, purpose, text)
            case NoCode => s.otps
            case Wrong(id) => CountAttempt(s, id).otps
            case Right(id) => Consume(s, id).otps
  {
    hide AfterQuery, CheckOtp, OneOutstanding;
    QueryIsSerial(s, u, purpose, text);
  }

  /** The two writes of an issue leave the codes of the serial issue. */
  lemma IssueIsSerial(s: State, u: nat, purpose: Purpose, code: string)
    ensures var t := C.Do(C.Do(CodesOf(s), C.ConsumeAll(0, u, purpose, code, s.clock)), C.Create(0, s.clock));
      t.otps == A.IssueOtp(s, u, purpose, code).otps && t.nextId == A.IssueOtp(s, u, purpose, code).nextId
  {
  }

  // ----- devices -----

  function DevicesOf(s: State): V.World {
    V.World(s.credentials, s.clock, s.nextId, map[])
  }

  /** A biometric login without interruption leaves the devices of the serial call, for an active, verified owner. */
  lemma BiometricIsSerial(s: State, device: string, challenge: nat, signatureOk: bool)
    requires device in s.credentials ==>
      s.credentials[device].userId in s.users && ActiveVerified(s.users[s.credentials[device].userId])
    ensures var w := V.Do(V.Do(DevicesOf(s), V.Read(0, device, challenge)), V.Check(0, signatureOk));
      var o, t := A.LoginWithBiometric(s, device, challenge, signatureOk), V.Do(w, V.Clear(0));
      t.devices == o.state.credentials && 0 in t.handlers && (t.handlers[0].LoggedIn? <==> o.reply.Tokens?)
  {
    hide InactivityTtlNow, AccessTtl;
  }

  /** So do the writes of the other device calls. */
  lemma ChallengeIsSerial(s: State, device: string)
    requires A.CreateBiometricChallenge(s, device).reply.Challenge?
    ensures V.Do(DevicesOf(s), V.Issue(device)).devices == A.CreateBiometricChallenge(s, device).state.credentials
  {
    hide InactivityTtlNow, AccessTtl;
  }

  lemma EnrolmentIsSerial(s: State, u: nat, pin: string, device: string, publicKey: string)
    requires A.RegisterBiometric(s, u, pin, device, publicKey).reply.Done?
    ensures V.Do(DevicesOf(s), V.Enrol(device, u, publicKey)).devices
         == A.RegisterBiometric(s, u, pin, device, publicKey).state.credentials
  {
    hide InactivityTtlNow, AccessTtl, Matches;
  }

  lemma SettingIsSerial(s: State, u: nat, device: string, enabled: bool)
    requires A.UpdateBiometricSetting(s, u, device, enabled).reply.Done?
    ensures V.Do(DevicesOf(s), V.Change(device, enabled)).devices
         == A.UpdateBiometricSetting(s, u, device, enabled).state.credentials
  {
    hide InactivityTtlNow, AccessTtl;
  }
}
