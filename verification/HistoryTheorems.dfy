// Columns as folds of history, over whole serial runs: which password, PIN, status, limits, key and revocation
// a row holds, in terms of the arguments of the calls that came before, and what that decides.
module HistoryTheorems {
  import opened Wrappers
  import opened Text
  import opened SessionPolicy
  import opened Model
  import opened AuthCalls
  import opened Machine
  import opened Summaries
  import opened Invariants
  import opened Columns
  import opened ScanTheorems
  import opened SessionTheorems
  import opened AnswerTheorems

  // ----- the columns of a user over a run -----

  /** The columns that calls set, apart from the verification of the address. */
  datatype Profile = Profile(
    email: string,
    password: string,
    pin: string,
    status: Status,
    role: Role,
    tier: Tier,
    daily: string,
    monthly: string)

  function ProfileOf(user: User): Profile {
    Profile(user.email, user.passwordHash, user.pinHash, user.status, user.role, user.tier, user.dailyLimitXaf,
            user.monthlyLimitXaf)
  }

  /** What the call that creates a user gives. */
  function Started(call: Call): Profile {
    match call
    case Register(email, password, pin, _, _) =>
      Profile(NormalizeEmail(email), password, pin, Active, RoleUser, Tier1, "0", "0")
    case CreateUser(email, password, pin, role, tier) =>
      Profile(NormalizeEmail(email), password, pin, Active, role.GetOr(RoleUser), tier.GetOr(Tier1), "0", "0")
    case _ => Profile("", "", "", Active, RoleUser, Tier1, "0", "0")
  }

  /** What a call sets anew. */
  function Changed(s: State, call: Call, o: Outcome, u: nat, p: Profile): Profile {
    Profile(NewEmail(call, o, u).GetOr(p.email), NewPassword(s, call, o, u).GetOr(p.password), p.pin,
            NewStatus(call, o, u).GetOr(p.status), NewRole(call, o, u).GetOr(p.role), NewTier(call, o, u).GetOr(p.tier),
            NewDaily(call, o, u).GetOr(p.daily), NewMonthly(call, o, u).GetOr(p.monthly))
  }

  /** What the first n requests gave and set for this user, the latest of each column. */
  ghost function Given(run: Run, u: nat, n: nat): Profile {
    if n == 0 then Profile("", "", "", Active, RoleUser, Tier1, "0", "0")
    else if Creates(EventAt(run, n - 1), u) then Started(run.script(n - 1).call)
    else Changed(ServedIn(run, n - 1), run.script(n - 1).call, OutcomeAt(run, n - 1), u, Given(run, u, n - 1))
  }

  lemma RowOrigin(s: State, call: Call, u: nat)
    requires FreshIds(s) && u in Dispatch(s, call).state.users
    ensures (u in s.users && !Creates(Dispatch(s, call).event, u))
        || (u !in s.users && Creates(Dispatch(s, call).event, u))
  {
    hide Dispatch, FreshIds, SessionRow, OtpRow, DeviceRow, ReviewRow, EventFacts, EmailFree;
    CallFollows(s, call, u, "");
  }

  lemma ProfileStep(s: State, call: Call, u: nat, p: Profile)
    requires FreshIds(s) && EmailsUnique(s) && RowsOwned(s) && u in Dispatch(s, call).state.users
    requires u in s.users ==> ProfileOf(s.users[u]) == p
    ensures var o := Dispatch(s, call);
      ProfileOf(o.state.users[u]) == if Creates(o.event, u) then Started(call) else Changed(s, call, o, u, p)
  {
    hide Dispatch, FreshIds, EmailsUnique, RowsOwned, Creates, NewPassword, NewStatus, NewEmail, NewRole, NewTier,
      NewDaily, NewMonthly, RevocationFollows, DeviceFollows, CodeFollows, NormalizeEmail;
    RowOrigin(s, call, u);
    CallTracks(s, call, u, 0, "");
  }

  /**
   * Every user row holds what was last given: the password of the creation or of the last successful reset, the
   * PIN of the creation, and the address, status, role, tier and limits last set.
   */
  lemma {:induction false} ColumnsFromHistory(run: Run, u: nat, n: nat)
    requires u in StateAt(run, n).users
    ensures ProfileOf(StateAt(run, n).users[u]) == Given(run, u, n)
  {
    hide Dispatch, Inv, FreshIds, EmailsUnique, RowsOwned, OneOutstanding, VerificationCodes, OtpRowsInRange,
      DrawnEarlier, Changed, Started, Creates, ProfileOf;
    if n > 0 {
      var s, call := ServedIn(run, n - 1), run.script(n - 1).call;
      Reachable(run, n - 1);
      InvParts(s);
      if u in s.users {
        ColumnsFromHistory(run, u, n - 1);
      }
      ProfileStep(s, call, u, Given(run, u, n - 1));
    }
  }

  /** The user was created verified, or a verification of theirs has succeeded. */
  ghost function VerifiedSoFar(run: Run, u: nat, n: nat): bool {
    if n == 0 then false
    else if Creates(EventAt(run, n - 1), u) then EventAt(run, n - 1).UserCreated?
    else VerifiesEmail(EventAt(run, n - 1), u) || VerifiedSoFar(run, u, n - 1)
  }

  lemma VerifiedStep(s: State, call: Call, u: nat)
    requires FreshIds(s) && u in Dispatch(s, call).state.users
    ensures var o := Dispatch(s, call);
      o.state.users[u].emailVerifiedAt.Some? <==>
        if Creates(o.event, u) then o.event.UserCreated?
        else VerifiesEmail(o.event, u) || (u in s.users && s.users[u].emailVerifiedAt.Some?)
  {
    hide Dispatch, FreshIds, SessionRow, OtpRow, DeviceRow, ReviewRow, EventFacts, EmailFree;
    CallFollows(s, call, u, "");
  }

  /** An address is verified exactly by its creation through an administrator or by a code. */
  lemma {:induction false} VerifiedFromHistory(run: Run, u: nat, n: nat)
    requires u in StateAt(run, n).users
    ensures StateAt(run, n).users[u].emailVerifiedAt.Some? <==> VerifiedSoFar(run, u, n)
  {
    hide Dispatch, Inv, FreshIds, Creates, VerifiesEmail;
    if n > 0 {
      RunIsFresh(run, n - 1);
      RowOrigin(ServedIn(run, n - 1), run.script(n - 1).call, u);
      VerifiedStep(ServedIn(run, n - 1), run.script(n - 1).call, u);
      if u in StateAt(run, n - 1).users {
        VerifiedFromHistory(run, u, n - 1);
      }
    }
  }

  /** Exactly when a login is answered tokens, and that they open a session of that user. */
  lemma {:induction false} LoginExactlyWhen(run: Run, n: nat, u: nat, email: string, password: string)
    requires run.script(n).call == Call.Login(email, password) && Holds(ServedIn(run, n), u, email)
    ensures OutcomeAt(run, n).reply.Tokens? <==>
      && Given(run, u, n).status == Active && VerifiedSoFar(run, u, n)
      && password == Given(run, u, n).password
    ensures OutcomeAt(run, n).reply.Tokens? ==> OpensSession(ServedIn(run, n), OutcomeAt(run, n), u, None)
  {
    hide Dispatch, Inv, FreshIds, EmailsUnique, RowsOwned, OneOutstanding, VerificationCodes, OtpRowsInRange,
      DrawnEarlier, NormalizeEmail, OpensSession, Given, VerifiedSoFar;
    Reachable(run, n);
    InvParts(ServedIn(run, n));
    LoginAnswers(ServedIn(run, n), email, password, u);
    ColumnsFromHistory(run, u, n);
    VerifiedFromHistory(run, u, n);
    OpensMeansTokens(ServedIn(run, n), OutcomeAt(run, n), u);
  }

  lemma OpensMeansTokens(s: State, o: Outcome, u: nat)
    ensures OpensSession(s, o, u, None) ==> o.reply.Tokens?
  {
  }

  /**
   * Exactly when a refresh token that was answered before is good for a refresh or an unlock: its session is
   * within the first fifty, the owner is active, the PIN is the one given at creation, and the session was not
   * idle for too long under the policy in force.
   */
  lemma {:induction false} RefreshExactlyWhen(run: Run, i: nat, n: nat, token: nat, pin: string, id: nat,
                                              order: seq<nat>, k: nat)
    requires i < n && Answered(OutcomeAt(run, i), token, id)
    requires IsNewestFirst(ServedIn(run, n), order) && At(order, id, k)
    requires run.script(n).call in {Call.Refresh(token, pin, order), Call.UnlockWithPin(token, pin, order)}
    ensures id in ServedIn(run, n).sessions
    ensures var s := ServedIn(run, n);
      var row := s.sessions[id];
      OutcomeAt(run, n).reply.Tokens? <==>
        && k < 50 && Given(run, row.userId, n).status == Active && pin == Given(run, row.userId, n).pin
        && s.clock - row.lastUsedAt <= InactivityTtlNow(s) * 1000
    ensures OutcomeAt(run, n).reply.Tokens? ==> MovesSession(ServedIn(run, n), OutcomeAt(run, n), token, id)
  {
    hide Dispatch, Inv, FreshIds, EmailsUnique, OneOutstanding, VerificationCodes, OtpRowsInRange, DrawnEarlier,
      FindSession, Answered, IsNewestFirst, Seconds, MovesSession, Given, FirstHolding, NoneHolding;
    var s := ServedIn(run, n);
    Reachable(run, n);
    InvParts(s);
    AnsweredTokenFinds(run, i, n, token, id, order, k);
    OnlyHolder(run, i, n, token, id, order, k);
    assert s.users == StateAt(run, n).users;
    ColumnsFromHistory(run, s.sessions[id].userId, n);
    if k < 50 {
      RefreshAnswers(s, token, pin, order, k);
      UnlockAnswers(s, token, pin, order, k);
      MovesMeansTokens(s, OutcomeAt(run, n), token, id);
    } else {
      UnknownToken(s, token, pin, order);
    }
  }

  lemma MovesMeansTokens(s: State, o: Outcome, token: nat, id: nat)
    ensures MovesSession(s, o, token, id) ==> o.reply.Tokens?
  {
  }

  /** The session is the only one on the whole listing that holds the token. */
  lemma {:induction false} OnlyHolder(run: Run, i: nat, n: nat, token: nat, id: nat, order: seq<nat>, k: nat)
    requires i < n && Answered(OutcomeAt(run, i), token, id)
    requires IsNewestFirst(ServedIn(run, n), order) && At(order, id, k)
    ensures id in ServedIn(run, n).sessions
    ensures k < 50 ==> FirstHolding(ServedIn(run, n), token, order, k)
    ensures k >= 50 ==> NoneHolding(ServedIn(run, n), token, order)
  {
    hide Dispatch, Inv, FreshIds, EmailsUnique, OneOutstanding, VerificationCodes, OtpRowsInRange, RowsOwned, Answered;
    var s := ServedIn(run, n);
    Reachable(run, i);
    AnswerNamesSession(ServedIn(run, i), run.script(i).call, token, id);
    assert StateAt(run, i + 1) == OutcomeAt(run, i).state;
    assert order[k] in order && Live(s, id);
    HashStays(run, id, i + 1, n);
    Reachable(run, n);
    InvParts(s);
    OneHolder(s, token, id, order, k);
  }

  lemma OneHolder(s: State, token: nat, id: nat, order: seq<nat>, k: nat)
    requires DrawnEarlier(s) && IsNewestFirst(s, order) && At(order, id, k) && HoldsToken(s, token, id)
    ensures k < 50 ==> FirstHolding(s, token, order, k)
    ensures k >= 50 ==> NoneHolding(s, token, order)
  {
    assert forall j | 0 <= j < |order| && HoldsToken(s, token, order[j]) :: order[j] == id;
  }

  // ----- revocation -----

  ghost predicate RevokedBetween(run: Run, id: nat, i: nat, n: nat) {
    exists j: nat :: i < j < n && id in ServedIn(run, j).sessions
      && Revokes(ServedIn(run, j), run.script(j).call, OutcomeAt(run, j), id)
  }

  lemma OpenedUnrevoked(s: State, call: Call, id: nat)
    requires FreshIds(s) && Opens(Dispatch(s, call).event, id)
    ensures var t := Dispatch(s, call).state; id in t.sessions && t.sessions[id].revokedAt.None?
  {
    hide Dispatch, FreshIds, UserRow, OtpRow, DeviceRow, ReviewRow, Seconds;
    CallFollows(s, call, id, "");
  }

  /**
   * A session that exists is revoked if and only if, since it was opened, it was logged out, its owner was
   * suspended, or its owner's password was reset.
   */
  lemma {:induction false} RevokedExactlyWhen(run: Run, id: nat, i: nat, n: nat)
    requires i < n && Opens(EventAt(run, i), id) && id in StateAt(run, n).sessions
    ensures StateAt(run, n).sessions[id].revokedAt.Some? <==> RevokedBetween(run, id, i, n)
    decreases n
  {
    hide Dispatch, Inv, FreshIds, EmailsUnique, RowsOwned, OneOutstanding, VerificationCodes, OtpRowsInRange,
      DrawnEarlier, Revokes, Opens, RevokedBetween;
    var s, call := ServedIn(run, n - 1), run.script(n - 1).call;
    Reachable(run, n - 1);
    InvParts(s);
    BetweenStep(run, id, i, n);
    if n == i + 1 {
      OpenedUnrevoked(s, call, id);
    } else {
      OpenedIsDrawn(run, id, i, n - 1);
      HashStep(s, call, id);
      RevokedExactlyWhen(run, id, i, n - 1);
      CallRevokes(s, call, id);
    }
  }

  lemma BetweenStep(run: Run, id: nat, i: nat, n: nat)
    requires i < n
    ensures RevokedBetween(run, id, i, n) <==>
      && n - 1 > i
      && (RevokedBetween(run, id, i, n - 1)
          || (id in ServedIn(run, n - 1).sessions
              && Revokes(ServedIn(run, n - 1), run.script(n - 1).call, OutcomeAt(run, n - 1), id)))
  {
    hide Dispatch, Revokes, OutcomeAt, ServedIn;
  }

  lemma {:induction false} OpenedIsDrawn(run: Run, id: nat, i: nat, n: nat)
    requires i < n && Opens(EventAt(run, i), id)
    ensures id < StateAt(run, n).nextId
  {
    hide Dispatch, Inv, FreshIds, Opens;
    RunIsFresh(run, i);
    OpenedUnrevoked(ServedIn(run, i), run.script(i).call, id);
    IdDrawn(run, id, i + 1, n);
  }

  // ----- biometric devices -----

  /** The public key of the last enrolment of this device. */
  ghost function KeyGiven(run: Run, device: string, n: nat): string {
    if n == 0 then ""
    else if Enrols(run.script(n - 1).call, OutcomeAt(run, n - 1), device) then run.script(n - 1).call.publicKey
    else KeyGiven(run, device, n - 1)
  }

  /** The setting last stored for this device; an enrolment switches it on. */
  ghost function SettingGiven(run: Run, device: string, n: nat): bool {
    if n == 0 then false
    else if Enrols(run.script(n - 1).call, OutcomeAt(run, n - 1), device) then true
    else if SetsDevice(run.script(n - 1).call, OutcomeAt(run, n - 1), device) then run.script(n - 1).call.enabled
    else SettingGiven(run, device, n - 1)
  }

  /** A device holds the key of its last enrolment and the setting last stored. */
  lemma {:induction false} DeviceFromHistory(run: Run, device: string, n: nat)
    requires device in StateAt(run, n).credentials
    ensures var row := StateAt(run, n).credentials[device];
      row.publicKey == KeyGiven(run, device, n) && row.enabled == SettingGiven(run, device, n)
  {
    hide Dispatch, Inv, FreshIds, EmailsUnique, RowsOwned, OneOutstanding, VerificationCodes, OtpRowsInRange,
      DrawnEarlier, Enrols, SetsDevice, ColumnsFollow, RevocationFollows;
    if n > 0 {
      Reachable(run, n - 1);
      InvParts(ServedIn(run, n - 1));
      CallTracks(ServedIn(run, n - 1), run.script(n - 1).call, 0, 0, device);
      if device in StateAt(run, n - 1).credentials {
        DeviceFromHistory(run, device, n - 1);
      }
    }
  }
}
