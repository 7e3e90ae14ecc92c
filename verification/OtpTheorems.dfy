// One-time codes over whole serial runs: how often they can be guessed, how often they can be used, and
// why looking at the newest code only is enough.
module OtpTheorems {
  import opened Wrappers
  import opened Text
  import opened Model
  import opened AuthCalls
  import opened Machine
  import opened Summaries
  import opened Invariants
  import opened Columns

  // ----- counting along a run -----

  predicate Compares(e: Event, u: nat, purpose: Purpose) {
    e.CodeCompared? && e.user == u && e.purpose == purpose
  }

  /** The event adds code id for this user and purpose. */
  predicate Issues(e: Event, id: nat, u: nat, purpose: Purpose) {
    e == CodeIssued(id, u, purpose) || (e == UserRegistered(u, id) && purpose == EmailVerification)
  }

  predicate IssuesFor(e: Event, u: nat, purpose: Purpose) {
    (e.CodeIssued? || e.UserRegistered?) && Issues(e, e.otp, u, purpose)
  }

  /** Code comparisons made for a user and purpose by the first n requests. */
  ghost function Comparisons(run: Run, u: nat, purpose: Purpose, n: nat): nat {
    if n == 0 then 0 else
      Comparisons(run, u, purpose, n - 1) + if Compares(EventAt(run, n - 1), u, purpose) then 1 else 0
  }

  /** Successful ones among them. */
  ghost function Successes(run: Run, u: nat, purpose: Purpose, n: nat): nat {
    if n == 0 then 0 else
      Successes(run, u, purpose, n - 1)
      + if Compares(EventAt(run, n - 1), u, purpose) && EventAt(run, n - 1).ok then 1 else 0
  }

  /** Codes issued to a user for a purpose by the first n requests. */
  ghost function Issued(run: Run, u: nat, purpose: Purpose, n: nat): nat {
    if n == 0 then 0 else
      Issued(run, u, purpose, n - 1) + if IssuesFor(EventAt(run, n - 1), u, purpose) then 1 else 0
  }

  /** Comparisons of one particular code with the given result. */
  ghost function Tries(run: Run, id: nat, ok: bool, n: nat): nat {
    if n == 0 then 0 else
      Tries(run, id, ok, n - 1) + if ComparesCode(EventAt(run, n - 1), id, ok) then 1 else 0
  }

  ghost predicate HasOutstanding(s: State, u: nat, purpose: Purpose) {
    exists id :: id in s.otps && Unconsumed(s.otps[id], u, purpose)
  }

  lemma {:induction false} RunHasOneOutstanding(run: Run, n: nat)
    ensures FreshIds(ServedIn(run, n)) && OneOutstanding(ServedIn(run, n))
  {
    hide Dispatch;
    Reachable(run, n);
  }

  // ----- the newest code is the only one -----

  /** A scan of all outstanding, unexpired codes with attempts left would accept the text. */
  ghost predicate AnyAccepts(s: State, u: nat, purpose: Purpose, code: string) {
    exists id :: Selectable(s, u, purpose, id) && s.otps[id].attempts < OTP_MAX_ATTEMPTS
              && Matches(Trim(code), s.otps[id].codeHash)
  }

  lemma OnlyCandidate(s: State, candidates: set<nat>, u: nat, purpose: Purpose, id: nat)
    requires OneOutstanding(s)
    requires id in candidates && forall k | k in candidates :: k in s.otps && Unconsumed(s.otps[k], u, purpose)
    ensures Newest(s, candidates) == Some(id)
  {
    assert IsNewest(s, candidates, id);
  }

  /** With a single outstanding code, checking the newest row accepts exactly what scanning all rows would. */
  lemma NewestRefinesAny(s: State, u: nat, purpose: Purpose, code: string)
    requires OneOutstanding(s)
    ensures CheckOtp(s, u, purpose, code).Right? <==> AnyAccepts(s, u, purpose, code)
  {
    if AnyAccepts(s, u, purpose, code) {
      var id :| Selectable(s, u, purpose, id) && s.otps[id].attempts < OTP_MAX_ATTEMPTS
             && Matches(Trim(code), s.otps[id].codeHash);
      OnlyCandidate(s, Unexpired(s, u, purpose), u, purpose, id);
    }
  }

  // ----- conservation -----

  /** The counts of failed and successful comparisons agree with the code's row. */
  ghost predicate Accounts(s: State, id: nat, failed: nat, used: nat) {
    && failed + used <= OTP_MAX_ATTEMPTS && used <= 1
    && (id >= s.nextId ==> failed == 0 && used == 0)
    && (id in s.otps ==> s.otps[id].attempts == failed && (used == 1 ==> s.otps[id].consumedAt.Some?))
  }

  predicate ComparesCode(e: Event, id: nat, ok: bool) {
    e.CodeCompared? && e.otp == id && e.ok == ok
  }

  lemma AccountsStep(s: State, call: Call, id: nat, failed: nat, used: nat)
    requires FreshIds(s) && Accounts(s, id, failed, used)
    ensures var o := Dispatch(s, call);
      Accounts(o.state, id, failed + (if ComparesCode(o.event, id, false) then 1 else 0),
                            used + (if ComparesCode(o.event, id, true) then 1 else 0))
  {
    hide Dispatch, UserRow, SessionRow, DeviceRow, ReviewRow;
    CallFollows(s, call, id, "");
  }

  lemma {:induction false} CodeAccounts(run: Run, id: nat, n: nat)
    ensures Accounts(StateAt(run, n), id, Tries(run, id, false, n), Tries(run, id, true, n))
  {
    hide Dispatch, Inv, FreshIds;
    if n > 0 {
      CodeAccounts(run, id, n - 1);
      RunIsFresh(run, n - 1);
      AccountsStep(ServedIn(run, n - 1), run.script(n - 1).call, id, Tries(run, id, false, n - 1),
          Tries(run, id, true, n - 1));
    }
  }

  /** Where an existing code came from. */
  ghost predicate IssuedAt(run: Run, id: nat, otp: Otp, i: nat) {
    && Issues(EventAt(run, i), id, otp.userId, otp.purpose)
    && otp.createdAt == TimeAt(run, i) && otp.expiresAt == TimeAt(run, i) + OTP_TTL_MS
  }

  predicate SameCode(a: Otp, b: Otp) {
    a.userId == b.userId && a.purpose == b.purpose && a.createdAt == b.createdAt && a.expiresAt == b.expiresAt
  }

  lemma CodeStep(s: State, call: Call, id: nat)
    requires FreshIds(s)
    ensures var o := Dispatch(s, call);
      id in o.state.otps ==>
        || (id in s.otps && SameCode(s.otps[id], o.state.otps[id]))
        || (Issues(o.event, id, o.state.otps[id].userId, o.state.otps[id].purpose)
            && o.state.otps[id].createdAt == s.clock && o.state.otps[id].expiresAt == s.clock + OTP_TTL_MS)
  {
    hide Dispatch, UserRow, SessionRow, DeviceRow, ReviewRow;
    CallFollows(s, call, id, "");
  }

  lemma {:induction false} CodeOrigin(run: Run, id: nat, n: nat)
    requires id in StateAt(run, n).otps
    ensures exists i: nat :: i < n && IssuedAt(run, id, StateAt(run, n).otps[id], i)
  {
    hide Dispatch, Inv, FreshIds, Issues;
    RunIsFresh(run, n - 1);
    CodeStep(ServedIn(run, n - 1), run.script(n - 1).call, id);
    if id in StateAt(run, n - 1).otps && SameCode(StateAt(run, n - 1).otps[id], StateAt(run, n).otps[id]) {
      CodeOrigin(run, id, n - 1);
      var i: nat :| i < n - 1 && IssuedAt(run, id, StateAt(run, n - 1).otps[id], i);
      assert IssuedAt(run, id, StateAt(run, n).otps[id], i);
    } else {
      assert IssuedAt(run, id, StateAt(run, n).otps[id], n - 1);
    }
  }

  /** A code is compared only for the user and purpose it was issued for, within ten minutes of its issue. */
  lemma {:induction false} ComparedOnlyForOwner(run: Run, n: nat)
    requires EventAt(run, n).CodeCompared?
    ensures var e := EventAt(run, n);
      exists i: nat :: i < n && Issues(EventAt(run, i), e.otp, e.user, e.purpose)
                    && TimeAt(run, n) < TimeAt(run, i) + 600000
  {
    hide Dispatch, Inv, FreshIds, UserRow, SessionRow, DeviceRow, ReviewRow, OtpRow, Issues;
    var e := EventAt(run, n);
    RunFollows(run, n, e.otp, "");
    CodeOrigin(run, e.otp, n);
    var i: nat :| i < n && IssuedAt(run, e.otp, StateAt(run, n).otps[e.otp], i);
  }

  /** At most five comparisons of one code, at most one of them successful; failures are what `attempts` counts. */
  lemma {:induction false} ConservationOfUses(run: Run, id: nat, n: nat)
    ensures Tries(run, id, false, n) + Tries(run, id, true, n) <= 5
    ensures Tries(run, id, true, n) <= 1
    ensures id in StateAt(run, n).otps ==> StateAt(run, n).otps[id].attempts == Tries(run, id, false, n)
  {
    hide Dispatch;
    CodeAccounts(run, id, n);
  }

  lemma SuccessLeavesNothing(s: State, call: Call, u: nat, purpose: Purpose)
    requires FreshIds(s) && OneOutstanding(s)
    ensures var o := Dispatch(s, call);
      Compares(o.event, u, purpose) && o.event.ok ==>
        HasOutstanding(s, u, purpose) && !HasOutstanding(o.state, u, purpose)
  {
    hide Dispatch, UserRow, SessionRow, DeviceRow, ReviewRow;
    var o := Dispatch(s, call);
    if Compares(o.event, u, purpose) && o.event.ok {
      CallFollows(s, call, o.event.otp, "");
      assert Unconsumed(s.otps[o.event.otp], u, purpose);
      forall id | id in o.state.otps
        ensures !Unconsumed(o.state.otps[id], u, purpose)
      {
        CallFollows(s, call, id, "");
      }
    }
  }

  /** In every reachable state; and a success leaves nothing outstanding for that user and purpose. */
  lemma {:induction false} AcceptAnyAlongRun(run: Run, n: nat, u: nat, purpose: Purpose, code: string)
    ensures CheckOtp(ServedIn(run, n), u, purpose, code).Right? <==> AnyAccepts(ServedIn(run, n), u, purpose, code)
    ensures Compares(EventAt(run, n), u, purpose) && EventAt(run, n).ok ==>
        !HasOutstanding(StateAt(run, n + 1), u, purpose)
  {
    hide Dispatch, Inv, FreshIds, OneOutstanding, CheckOtp, AnyAccepts;
    RunHasOneOutstanding(run, n);
    NewestRefinesAny(ServedIn(run, n), u, purpose, code);
    SuccessLeavesNothing(ServedIn(run, n), run.script(n).call, u, purpose);
  }

  lemma OutstandingCode(s: State, call: Call, u: nat, purpose: Purpose, id: nat)
    requires FreshIds(s)
    requires id in Dispatch(s, call).state.otps && Unconsumed(Dispatch(s, call).state.otps[id], u, purpose)
    ensures IssuesFor(Dispatch(s, call).event, u, purpose) || (id in s.otps && Unconsumed(s.otps[id], u, purpose))
  {
    hide Dispatch, FreshIds, UserRow, SessionRow, DeviceRow, ReviewRow, EventFacts;
    CallFollows(s, call, id, "");
  }

  lemma OutstandingOnlyIssued(s: State, call: Call, u: nat, purpose: Purpose)
    requires FreshIds(s)
    ensures var o := Dispatch(s, call);
      HasOutstanding(o.state, u, purpose) ==> HasOutstanding(s, u, purpose) || IssuesFor(o.event, u, purpose)
  {
    hide Dispatch, FreshIds, Unconsumed, IssuesFor;
    var o := Dispatch(s, call);
    if id :| id in o.state.otps && Unconsumed(o.state.otps[id], u, purpose) {
      OutstandingCode(s, call, u, purpose, id);
    }
  }

  lemma {:induction false} SuccessesAndOutstanding(run: Run, u: nat, purpose: Purpose, n: nat)
    ensures Successes(run, u, purpose, n) + (if HasOutstanding(StateAt(run, n), u, purpose) then 1 else 0)
         <= Issued(run, u, purpose, n)
  {
    hide Dispatch, Inv, FreshIds, OneOutstanding, Compares, IssuesFor;
    if n > 0 {
      SuccessesAndOutstanding(run, u, purpose, n - 1);
      RunHasOneOutstanding(run, n - 1);
      assert HasOutstanding(ServedIn(run, n - 1), u, purpose) == HasOutstanding(StateAt(run, n - 1), u, purpose);
      SuccessLeavesNothing(ServedIn(run, n - 1), run.script(n - 1).call, u, purpose);
      OutstandingOnlyIssued(ServedIn(run, n - 1), run.script(n - 1).call, u, purpose);
      IssueIsNoComparison(EventAt(run, n - 1), u, purpose);
    }
  }

  lemma IssueIsNoComparison(e: Event, u: nat, purpose: Purpose)
    ensures !(Compares(e, u, purpose) && IssuesFor(e, u, purpose))
    ensures Compares(e, u, purpose) ==> e.CodeCompared?
  {
  }

  /** No more successful password resets than reset codes issued to that user. */
  lemma {:induction false} ResetsBoundedByCodes(run: Run, u: nat, n: nat)
    ensures Successes(run, u, PasswordReset, n) <= Issued(run, u, PasswordReset, n)
  {
    hide Dispatch;
    SuccessesAndOutstanding(run, u, PasswordReset, n);
  }

  // ----- a reissue retires the codes before it -----

  /** Code id, if its row still exists, belongs to this user and purpose. */
  predicate BelongsTo(s: State, id: nat, u: nat, purpose: Purpose) {
    id < s.nextId && (id in s.otps ==> s.otps[id].userId == u && s.otps[id].purpose == purpose)
  }

  predicate Retired(s: State, id: nat) {
    id < s.nextId && (id in s.otps ==> s.otps[id].consumedAt.Some?)
  }

  lemma CodeLife(s: State, call: Call, id: nat, u: nat, purpose: Purpose)
    requires FreshIds(s)
    ensures var o := Dispatch(s, call);
      && (Issues(o.event, id, u, purpose) || BelongsTo(s, id, u, purpose) ==> BelongsTo(o.state, id, u, purpose))
      && (Retired(s, id) || (BelongsTo(s, id, u, purpose) && IssuesFor(o.event, u, purpose)) ==> Retired(o.state, id))
      && (Retired(s, id) ==> !(o.event.CodeCompared? && o.event.otp == id))
  {
    hide Dispatch, UserRow, SessionRow, DeviceRow, ReviewRow, RetryAfterSec;
    CallFollows(s, call, id, "");
  }

  lemma {:induction false} CodeLives(run: Run, id: nat, u: nat, purpose: Purpose, i: nat, n: nat)
    requires i < n && Issues(EventAt(run, i), id, u, purpose)
    ensures BelongsTo(StateAt(run, n), id, u, purpose)
    ensures forall j: nat | i < j < n && IssuesFor(EventAt(run, j), u, purpose) :: Retired(StateAt(run, n), id)
    decreases n
  {
    hide Dispatch, Inv, FreshIds, Issues, IssuesFor, BelongsTo, Retired;
    RunIsFresh(run, n - 1);
    CodeLife(ServedIn(run, n - 1), run.script(n - 1).call, id, u, purpose);
    if n - 1 > i {
      CodeLives(run, id, u, purpose, i, n - 1);
      LifeWhenServed(StateAt(run, n - 1), run.script(n - 1).delay, id, u, purpose);
    }
  }

  lemma LifeWhenServed(s: State, delay: nat, id: nat, u: nat, purpose: Purpose)
    ensures BelongsTo(Advance(s, delay), id, u, purpose) == BelongsTo(s, id, u, purpose)
    ensures Retired(Advance(s, delay), id) == Retired(s, id)
  {
  }

  /** Once a newer code is issued for the same user and purpose, an older one is never compared again. */
  lemma {:induction false} OnlyLatestCodeCompared(run: Run, id: nat, u: nat, purpose: Purpose, i: nat, j: nat, n: nat)
    requires i < j < n && Issues(EventAt(run, i), id, u, purpose) && IssuesFor(EventAt(run, j), u, purpose)
    ensures !(EventAt(run, n).CodeCompared? && EventAt(run, n).otp == id)
  {
    hide Dispatch, Inv, FreshIds, Issues, IssuesFor, BelongsTo, Retired;
    CodeLives(run, id, u, purpose, i, n);
    LifeWhenServed(StateAt(run, n), run.script(n).delay, id, u, purpose);
    RunIsFresh(run, n);
    CodeLife(ServedIn(run, n), run.script(n).call, id, u, purpose);
  }

  // ----- exactly which codes are accepted -----

  /** No code was issued for this user and purpose after request i and before request n. */
  ghost predicate NoNewerIssue(run: Run, u: nat, purpose: Purpose, i: nat, n: nat) {
    forall j: nat | i < j < n :: !IssuesFor(EventAt(run, j), u, purpose)
  }

  /** The row of an issued code, except for the two columns that change. */
  predicate IsCode(otp: Otp, u: nat, purpose: Purpose, hash: string, at: nat) {
    otp == Otp(u, purpose, hash, at, at + OTP_TTL_MS, otp.consumedAt, otp.attempts)
  }

  /** While its user exists the code is there, and it is consumed if and only if `retired`. */
  predicate CodeStands(s: State, id: nat, u: nat, purpose: Purpose, hash: string, at: nat, retired: bool) {
    && u < s.nextId && id < s.nextId
    && (u in s.users ==>
          id in s.otps && IsCode(s.otps[id], u, purpose, hash, at) && (s.otps[id].consumedAt.Some? <==> retired))
  }

  lemma CodeStandsStarts(s: State, call: Call, id: nat, u: nat, purpose: Purpose)
    requires FreshIds(s) && Issues(Dispatch(s, call).event, id, u, purpose)
    ensures id in Dispatch(s, call).state.otps
    ensures CodeStands(Dispatch(s, call).state, id, u, purpose, Dispatch(s, call).state.otps[id].codeHash, s.clock,
        false)
  {
    hide Dispatch, UserRow, SessionRow, DeviceRow, ReviewRow, RetryAfterSec;
    CallFollows(s, call, id, "");
  }

  /** A code is consumed by the issue of another for the same user and purpose, and by its own success. */
  lemma CodeStandsStep(s: State, call: Call, id: nat, u: nat, purpose: Purpose, hash: string, at: nat, retired: bool)
    requires FreshIds(s) && CodeStands(s, id, u, purpose, hash, at, retired)
    ensures var o := Dispatch(s, call);
      CodeStands(o.state, id, u, purpose, hash, at,
                 retired || IssuesFor(o.event, u, purpose) || ComparesCode(o.event, id, true))
  {
    hide Dispatch, SessionRow, DeviceRow, ReviewRow, RetryAfterSec, EmailFree, FreshIds;
    CallFollows(s, call, id, "");
    CallFollows(s, call, u, "");
  }

  lemma {:induction false} CodeStandsAlong(run: Run, id: nat, u: nat, purpose: Purpose, i: nat, n: nat)
    requires i < n && Issues(EventAt(run, i), id, u, purpose)
    ensures id in StateAt(run, i + 1).otps
    ensures CodeStands(StateAt(run, n), id, u, purpose, StateAt(run, i + 1).otps[id].codeHash, TimeAt(run, i),
                       !NoNewerIssue(run, u, purpose, i, n) || Tries(run, id, true, n) > 0)
    decreases n
  {
    hide Dispatch, Inv, FreshIds, Issues, IssuesFor, ComparesCode, CodeStands, NoNewerIssue;
    var s, call := ServedIn(run, n - 1), run.script(n - 1).call;
    RunIsFresh(run, n - 1);
    if n == i + 1 {
      CodeStandsStarts(s, call, id, u, purpose);
      IssuedOnlyNow(run, id, u, purpose, i);
      NewerIssueStep(run, u, purpose, i, n);
    } else {
      CodeStandsAlong(run, id, u, purpose, i, n - 1);
      var hash := StateAt(run, i + 1).otps[id].codeHash;
      var retired := !NoNewerIssue(run, u, purpose, i, n - 1) || Tries(run, id, true, n - 1) > 0;
      CodeStandsWhenServed(StateAt(run, n - 1), run.script(n - 1).delay, id, u, purpose, hash, TimeAt(run, i), retired);
      CodeStandsStep(s, call, id, u, purpose, hash, TimeAt(run, i), retired);
      NewerIssueStep(run, u, purpose, i, n);
    }
  }

  lemma NewerIssueStep(run: Run, u: nat, purpose: Purpose, i: nat, n: nat)
    requires i < n
    ensures NoNewerIssue(run, u, purpose, i, n) <==>
      n == i + 1 || (NoNewerIssue(run, u, purpose, i, n - 1) && !IssuesFor(EventAt(run, n - 1), u, purpose))
  {
    hide EventAt, IssuesFor;
  }

  lemma CodeStandsWhenServed(s: State, delay: nat, id: nat, u: nat, purpose: Purpose, hash: string, at: nat,
      retired: bool)
    ensures CodeStands(Advance(s, delay), id, u, purpose, hash, at, retired)
        <==> CodeStands(s, id, u, purpose, hash, at, retired)
  {
  }

  /** A code just issued has never been compared. */
  lemma {:induction false} IssuedOnlyNow(run: Run, id: nat, u: nat, purpose: Purpose, i: nat)
    requires Issues(EventAt(run, i), id, u, purpose)
    ensures Tries(run, id, true, i + 1) == 0
  {
    hide Dispatch, Inv, FreshIds;
    RunIsFresh(run, i);
    CodeAccounts(run, id, i);
    IssuedIdIsNew(ServedIn(run, i), run.script(i).call, id, u, purpose);
  }

  lemma IssuedIdIsNew(s: State, call: Call, id: nat, u: nat, purpose: Purpose)
    requires FreshIds(s) && Issues(Dispatch(s, call).event, id, u, purpose)
    ensures id >= s.nextId
  {
    hide Dispatch, FreshIds, UserRow, OtpRow, SessionRow, DeviceRow, ReviewRow, RetryAfterSec;
    CallFollows(s, call, id, "");
  }

  /** The code issued by request i is still good at request n, as far as history tells. */
  ghost predicate StillGood(run: Run, id: nat, u: nat, purpose: Purpose, i: nat, n: nat) {
    && NoNewerIssue(run, u, purpose, i, n)
    && Tries(run, id, true, n) == 0
    && Tries(run, id, false, n) < 5
    && TimeAt(run, n) < TimeAt(run, i) + 600000
  }

  /** The code drawn by the call of a request. */
  ghost function CodeOf(run: Run, i: nat): string {
    DrawnCode(run.script(i).call).GetOr("")
  }

  lemma {:induction false} IssuedCodeIsDrawn(run: Run, id: nat, u: nat, purpose: Purpose, i: nat)
    requires Issues(EventAt(run, i), id, u, purpose)
    ensures DrawnCode(run.script(i).call).Some?
    ensures id in StateAt(run, i + 1).otps && StateAt(run, i + 1).otps[id].codeHash == CodeOf(run, i)
  {
    hide Dispatch, Inv, FreshIds, EmailsUnique, RowsOwned, OneOutstanding, VerificationCodes, OtpRowsInRange,
        DrawnEarlier;
    Reachable(run, i);
    InvParts(ServedIn(run, i));
    CallIssues(ServedIn(run, i), run.script(i).call);
    assert StateAt(run, i + 1) == OutcomeAt(run, i).state;
  }

  /**
   * Exactly when a code is accepted, in terms of what happened before: its user still exists, the trimmed text
   * is the code the issuing call drew, no newer one was issued for the same user and purpose, it was never
   * used, it failed fewer than five times, and it is younger than ten minutes.
   */
  lemma {:induction false} AcceptedExactlyWhen(run: Run, id: nat, u: nat, purpose: Purpose, text: string, i: nat,
      n: nat)
    requires i < n && Issues(EventAt(run, i), id, u, purpose)
    ensures CheckOtp(ServedIn(run, n), u, purpose, text) == Right(id) <==>
      u in ServedIn(run, n).users && Trim(text) == CodeOf(run, i) && StillGood(run, id, u, purpose, i, n)
  {
    hide Dispatch, Inv, FreshIds, OneOutstanding, Issues, NoNewerIssue, CheckOtp, Trim;
    IssuedCodeIsDrawn(run, id, u, purpose, i);
    CodeStandsAlong(run, id, u, purpose, i, n);
    CodeAccounts(run, id, n);
    RunHasOneOutstanding(run, n);
    SelectableIsChecked(ServedIn(run, n), u, purpose, text, id);
    CodesAreOwned(run, n, id);
  }

  lemma {:induction false} CodesAreOwned(run: Run, n: nat, id: nat)
    ensures var s := ServedIn(run, n); id in s.otps ==> s.otps[id].userId in s.users
  {
    hide Dispatch;
    Reachable(run, n);
  }

  lemma SelectableIsChecked(s: State, u: nat, purpose: Purpose, text: string, id: nat)
    requires OneOutstanding(s)
    ensures CheckOtp(s, u, purpose, text) == Right(id) <==>
      && Selectable(s, u, purpose, id) && s.otps[id].attempts < OTP_MAX_ATTEMPTS
      && Matches(Trim(text), s.otps[id].codeHash)
  {
    if Selectable(s, u, purpose, id) {
      OnlyCandidate(s, Unexpired(s, u, purpose), u, purpose, id);
    }
  }

  /** The same for the call itself: which code verifies an address. */
  lemma {:induction false} VerifiedExactlyWhen(run: Run, id: nat, u: nat, email: string, text: string, i: nat, n: nat)
    requires i < n && Issues(EventAt(run, i), id, u, EmailVerification)
    requires run.script(n).call == Call.VerifyEmail(email, text)
    requires u in ServedIn(run, n).users && ServedIn(run, n).users[u].email == NormalizeEmail(email)
    ensures OutcomeAt(run, n).reply.Done? && EventAt(run, n) == CodeCompared(id, u, EmailVerification, true) <==>
      Trim(text) == CodeOf(run, i) && StillGood(run, id, u, EmailVerification, i, n)
  {
    hide Dispatch, Inv, FreshIds, Issues, StillGood, CheckOtp, Trim, NormalizeEmail, CodeOf;
    AcceptedExactlyWhen(run, id, u, EmailVerification, text, i, n);
    Reachable(run, n);
    VerifyChecks(ServedIn(run, n), u, email, text, id);
  }

  lemma VerifyChecks(s: State, u: nat, email: string, text: string, id: nat)
    requires Inv(s) && u in s.users && s.users[u].email == NormalizeEmail(email)
    ensures var o := Dispatch(s, Call.VerifyEmail(email, text));
      o.reply.Done? && o.event == CodeCompared(id, u, EmailVerification, true)
      <==> CheckOtp(s, u, EmailVerification, text) == Right(id)
  {
    hide NormalizeEmail, Trim, FreshIds, RowsOwned, OneOutstanding, VerificationCodes, OtpRowsInRange, DrawnEarlier;
    assert FindByEmail(s, email) == Some(u);
  }

  /** And which code resets a password. */
  lemma {:induction false} ResetExactlyWhen(run: Run, id: nat, u: nat, email: string, text: string, newPassword: string,
                                            i: nat, n: nat)
    requires i < n && Issues(EventAt(run, i), id, u, PasswordReset)
    requires run.script(n).call == Call.ConfirmPasswordReset(email, text, newPassword)
    requires u in ServedIn(run, n).users && ServedIn(run, n).users[u].email == NormalizeEmail(email)
    ensures OutcomeAt(run, n).reply.Done? && EventAt(run, n) == CodeCompared(id, u, PasswordReset, true) <==>
      Trim(text) == CodeOf(run, i) && StillGood(run, id, u, PasswordReset, i, n)
    ensures OutcomeAt(run, n).reply.Done? ==>
      u in StateAt(run, n + 1).users && StateAt(run, n + 1).users[u].passwordHash == newPassword
  {
    hide Dispatch, Inv, FreshIds, Issues, StillGood, CheckOtp, Trim, NormalizeEmail, CodeOf;
    AcceptedExactlyWhen(run, id, u, PasswordReset, text, i, n);
    Reachable(run, n);
    ResetChecks(ServedIn(run, n), u, email, text, newPassword, id);
    assert StateAt(run, n + 1) == OutcomeAt(run, n).state;
  }

  lemma ResetChecks(s: State, u: nat, email: string, text: string, newPassword: string, id: nat)
    requires Inv(s) && u in s.users && s.users[u].email == NormalizeEmail(email)
    ensures var o := Dispatch(s, Call.ConfirmPasswordReset(email, text, newPassword));
      && (o.reply.Done? && o.event == CodeCompared(id, u, PasswordReset, true)
          <==> CheckOtp(s, u, PasswordReset, text) == Right(id))
      && (o.reply.Done? ==> u in o.state.users && o.state.users[u].passwordHash == newPassword)
  {
    hide NormalizeEmail, Trim, FreshIds, RowsOwned, OneOutstanding, VerificationCodes, OtpRowsInRange, DrawnEarlier,
      RevokeAll, CheckOtp;
    assert FindByEmail(s, email) == Some(u);
  }

  /** Two codes a minute apart; the first is entered after the second was sent. */
  function OutOfOrder(k: nat): Request {
    match k
    case 0 => Request(0, Call.Register("ada@example.com", "password", "1234", "111111", true))
    case 1 => Request(60000, Call.ResendEmailOtp("ada@example.com", "222222", true))
    case _ => Request(0, Call.VerifyEmail("ada@example.com", "111111"))
  }

  /**
   * The documented promise that any unexpired unused code is accepted fails in this run: the first code is
   * unexpired and was never compared, and is refused because a newer one was issued.
   */
  lemma {:induction false} OlderUnusedCodeIsRefused()
    ensures var run := Run(map[], 0, OutOfOrder);
      && EventAt(run, 0) == UserRegistered(0, 1)
      && 1 in StateAt(run, 1).otps && Matches(Trim("111111"), StateAt(run, 1).otps[1].codeHash)
      && Tries(run, 1, true, 2) == Tries(run, 1, false, 2) == 0
      && TimeAt(run, 2) < TimeAt(run, 0) + OTP_TTL_MS
      && run.script(2).call == Call.VerifyEmail("ada@example.com", "111111")
      && OutcomeAt(run, 2).reply == Rejected(InvalidOtp)
      && !NoNewerIssue(run, 0, EmailVerification, 0, 2)
  {
    hide Dispatch, NormalizeEmail, RetryAfterSec, CheckOtp, AfterRegistration, AfterResend;
    var run := Run(map[], 0, OutOfOrder);
    RegistrationOfAda();
    assert StateAt(run, 0) == ServedIn(run, 0) == Init(map[], 0);
    assert StateAt(run, 1) == AfterRegistration();
    ResendToAda();
    assert ServedIn(run, 1) == Advance(AfterRegistration(), 60000);
    assert StateAt(run, 2) == AfterResend();
    FirstCodeOfAda();
    assert ServedIn(run, 2) == Advance(AfterResend(), 0) == AfterResend();
    assert IssuesFor(EventAt(run, 1), 0, EmailVerification);
    assert Tries(run, 1, true, 1) == Tries(run, 1, false, 1) == 0;
    TrimOfDigits("111111");
  }

  function Ada(): User {
    User(NormalizeEmail("ada@example.com"), "password", "1234", None, Active, RoleUser, Tier1, "0", "0")
  }

  function AfterRegistration(): State {
    Init(map[], 0).(users := map[0 := Ada()], nextId := 2,
                    otps := map[1 := Otp(0, EmailVerification, "111111", 0, OTP_TTL_MS, None, 0)])
  }

  function AfterResend(): State {
    AfterRegistration().(clock := 60000, nextId := 3,
      otps := map[1 := Otp(0, EmailVerification, "111111", 0, OTP_TTL_MS, Some(60000), 0),
                  2 := Otp(0, EmailVerification, "222222", 60000, 60000 + OTP_TTL_MS, None, 0)])
  }

  lemma RegistrationOfAda()
    ensures Dispatch(Init(map[], 0), OutOfOrder(0).call)
         == Outcome(AfterRegistration(), OtpChallenge(OTP_RESEND_COOLDOWN_SEC), UserRegistered(0, 1))
    ensures AfterRegistration().clock == 0 && 1 in AfterRegistration().otps
    ensures AfterRegistration().otps[1].codeHash == "111111"
  {
    hide NormalizeEmail;
  }

  lemma FindsAda(s: State)
    requires s.users == map[0 := Ada()]
    ensures FindByEmail(s, "ada@example.com") == Some(0)
  {
    hide NormalizeEmail;
    assert s.users[0].email == NormalizeEmail("ada@example.com");
  }

  lemma ResendToAda()
    ensures Dispatch(Advance(AfterRegistration(), 60000), OutOfOrder(1).call)
         == Outcome(AfterResend(), OtpChallenge(OTP_RESEND_COOLDOWN_SEC), CodeIssued(2, 0, EmailVerification))
  {
    hide NormalizeEmail, FindByEmail;
    var s := Advance(AfterRegistration(), 60000);
    FindsAda(s);
    OnlyCandidate(s, Outstanding(s, 0, EmailVerification), 0, EmailVerification, 1);
  }

  lemma FirstCodeOfAda()
    ensures var o := Dispatch(AfterResend(), OutOfOrder(2).call);
      o.reply == Rejected(InvalidOtp) && o.event == CodeCompared(2, 0, EmailVerification, false)
    ensures AfterResend().clock == 60000
  {
    hide NormalizeEmail, FindByEmail, CheckOtp;
    FindsAda(AfterResend());
    ComparedWithSecondCode();
  }

  lemma ComparedWithSecondCode()
    ensures CheckOtp(AfterResend(), 0, EmailVerification, "111111") == Wrong(2)
  {
    hide NormalizeEmail, Trim;
    var s := AfterResend();
    OnlyCandidate(s, Unexpired(s, 0, EmailVerification), 0, EmailVerification, 2);
    TrimOfDigits("111111");
  }

  // ----- guessing rate -----

  /** A reissue is possible only when the outstanding code is at least a full minute old. */
  lemma CooldownFloor(s: State, u: nat, id: nat)
    requires OneOutstanding(s) && id in s.otps && Unconsumed(s.otps[id], u, EmailVerification)
    requires RetryAfterSec(s, u, EmailVerification) == 0
    ensures s.clock - s.otps[id].createdAt >= 60000
  {
    OnlyCandidate(s, Outstanding(s, u, EmailVerification), u, EmailVerification, id);
  }

  ghost predicate Pace(s: State, u: nat, t0: nat, comparisons: nat, issued: nat) {
    && u < s.nextId && issued >= 1 && comparisons <= 5 * issued
    && s.clock >= t0 + 60000 * (issued - 1)
    && (u in s.users && s.users[u].emailVerifiedAt.None? ==>
          exists id :: id in s.otps && CurrentCode(s.otps[id], u, t0, comparisons, issued))
  }

  /** The outstanding code absorbs the comparisons beyond those of the codes before it. */
  predicate CurrentCode(otp: Otp, u: nat, t0: nat, comparisons: nat, issued: nat) {
    && Unconsumed(otp, u, EmailVerification)
    && comparisons <= 5 * (issued - 1) + otp.attempts
    && otp.createdAt >= t0 + 60000 * (issued - 1)
  }

  function One(b: bool): nat {
    if b then 1 else 0
  }

  lemma PaceStarts(s: State, call: Call, u: nat)
    requires FreshIds(s)
    requires Dispatch(s, call).event.UserRegistered? && Dispatch(s, call).event.user == u
    ensures u >= s.nextId && Pace(Dispatch(s, call).state, u, s.clock, 0, 1)
  {
    hide Dispatch, SessionRow, DeviceRow, ReviewRow;
    var o := Dispatch(s, call);
    CallFollows(s, call, o.event.otp, "");
    assert CurrentCode(o.state.otps[o.event.otp], u, s.clock, 0, 1);
  }

  /** A reissue: the old code was current and at least a minute old; the new one is current now. */
  lemma PaceIssue(s: State, call: Call, u: nat, t0: nat, c: nat, k: nat)
    requires FreshIds(s) && OneOutstanding(s) && Pace(s, u, t0, c, k)
    requires IssuesFor(Dispatch(s, call).event, u, EmailVerification)
    ensures Pace(Dispatch(s, call).state, u, t0, c, k + 1)
  {
    hide Dispatch, SessionRow, DeviceRow, ReviewRow, FreshIds, OneOutstanding, EmailFree, RetryAfterSec;
    var o := Dispatch(s, call);
    CallFollows(s, call, u, "");
    CallFollows(s, call, o.event.otp, "");
    var id :| id in s.otps && CurrentCode(s.otps[id], u, t0, c, k);
    CooldownFloor(s, u, id);
    assert CurrentCode(o.state.otps[o.event.otp], u, t0, c, k + 1);
  }

  /** A comparison: it is one of the current code. */
  lemma PaceCompare(s: State, call: Call, u: nat, t0: nat, c: nat, k: nat)
    requires FreshIds(s) && OneOutstanding(s) && VerificationCodes(s) && Pace(s, u, t0, c, k)
    requires Compares(Dispatch(s, call).event, u, EmailVerification)
    ensures Pace(Dispatch(s, call).state, u, t0, c + 1, k)
  {
    hide Dispatch, SessionRow, DeviceRow, ReviewRow, FreshIds, OneOutstanding, EmailFree, RetryAfterSec;
    var o := Dispatch(s, call);
    CallFollows(s, call, u, "");
    CallFollows(s, call, o.event.otp, "");
    var id :| id in s.otps && CurrentCode(s.otps[id], u, t0, c, k);
    SameOutstanding(s, o.event.otp, id);
    assert !o.event.ok ==> CurrentCode(o.state.otps[id], u, t0, c + 1, k);
  }

  /** Anything else leaves the current code as it is. */
  lemma PaceOther(s: State, call: Call, u: nat, t0: nat, c: nat, k: nat)
    requires FreshIds(s) && OneOutstanding(s) && Pace(s, u, t0, c, k)
    requires !Compares(Dispatch(s, call).event, u, EmailVerification)
    requires !IssuesFor(Dispatch(s, call).event, u, EmailVerification)
    ensures Pace(Dispatch(s, call).state, u, t0, c, k)
  {
    hide Dispatch, SessionRow, DeviceRow, ReviewRow, FreshIds, OneOutstanding, EmailFree, RetryAfterSec;
    var o := Dispatch(s, call);
    CallFollows(s, call, u, "");
    if u in o.state.users && o.state.users[u].emailVerifiedAt.None? {
      var id :| id in s.otps && CurrentCode(s.otps[id], u, t0, c, k);
      CallFollows(s, call, id, "");
      assert CurrentCode(o.state.otps[id], u, t0, c, k);
    }
  }

  lemma PaceStep(s: State, call: Call, u: nat, t0: nat, c: nat, k: nat)
    requires FreshIds(s) && OneOutstanding(s) && VerificationCodes(s) && Pace(s, u, t0, c, k)
    ensures var o := Dispatch(s, call);
      Pace(o.state, u, t0, c + One(Compares(o.event, u, EmailVerification)),
          k + One(IssuesFor(o.event, u, EmailVerification)))
  {
    hide Dispatch, FreshIds, OneOutstanding, VerificationCodes, Pace;
    var e := Dispatch(s, call).event;
    IssueIsNoComparison(e, u, EmailVerification);
    if IssuesFor(e, u, EmailVerification) {
      PaceIssue(s, call, u, t0, c, k);
    } else if Compares(e, u, EmailVerification) {
      PaceCompare(s, call, u, t0, c, k);
    } else {
      PaceOther(s, call, u, t0, c, k);
    }
  }

  /** A user id not yet drawn has no history. */
  lemma NoHistoryStep(s: State, call: Call, u: nat)
    requires FreshIds(s) && u >= Dispatch(s, call).state.nextId
    ensures !Compares(Dispatch(s, call).event, u, EmailVerification)
        && !IssuesFor(Dispatch(s, call).event, u, EmailVerification)
    ensures u >= s.nextId
  {
    hide Dispatch, UserRow, SessionRow, DeviceRow, ReviewRow, OtpRow;
    CallFollows(s, call, 0, "");
  }

  lemma {:induction false} NoHistory(run: Run, u: nat, n: nat)
    requires u >= StateAt(run, n).nextId
    ensures Comparisons(run, u, EmailVerification, n) == 0 && Issued(run, u, EmailVerification, n) == 0
  {
    hide Dispatch, Inv, FreshIds, Compares, IssuesFor;
    if n > 0 {
      RunIsFresh(run, n - 1);
      NoHistoryStep(ServedIn(run, n - 1), run.script(n - 1).call, u);
      NoHistory(run, u, n - 1);
    }
  }

  lemma {:induction false} PaceKept(run: Run, u: nat, i: nat, n: nat)
    requires i < n && EventAt(run, i).UserRegistered? && EventAt(run, i).user == u
    ensures Pace(StateAt(run, n), u, TimeAt(run, i), Comparisons(run, u, EmailVerification, n),
        Issued(run, u, EmailVerification, n))
    decreases n
  {
    hide Dispatch, Inv, FreshIds, EmailsUnique, RowsOwned, OneOutstanding, VerificationCodes, OtpRowsInRange,
      DrawnEarlier, Compares, IssuesFor;
    var s, call := ServedIn(run, n - 1), run.script(n - 1).call;
    Reachable(run, n - 1);
    InvParts(s);
    if n == i + 1 {
      PaceStarts(s, call, u);
      NoHistory(run, u, i);
      RegistrationIssues(EventAt(run, i), u);
    } else {
      PaceKept(run, u, i, n - 1);
      PaceStep(s, call, u, TimeAt(run, i), Comparisons(run, u, EmailVerification, n - 1),
          Issued(run, u, EmailVerification, n - 1));
    }
  }

  lemma RegistrationIssues(e: Event, u: nat)
    requires e.UserRegistered? && e.user == u
    ensures IssuesFor(e, u, EmailVerification) && !Compares(e, u, EmailVerification)
  {
  }

  /**
   * For a user registered at request i, the verification codes compared by the first n requests number at
   * most five for every full minute since registration, plus five.
   */
  lemma {:induction false} GuessingRate(run: Run, u: nat, i: nat, n: nat)
    requires i < n && EventAt(run, i).UserRegistered? && EventAt(run, i).user == u
    ensures Comparisons(run, u, EmailVerification, n) <= 5 * (1 + (StateAt(run, n).clock - TimeAt(run, i)) / 60000)
  {
    hide Dispatch;
    PaceKept(run, u, i, n);
  }
}
