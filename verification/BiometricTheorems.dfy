// Biometric devices over whole serial runs: the stored challenge is decided by the last event that
// touched the device, a challenge is good for one login, and a device stays with its owner.
module BiometricTheorems {
  import opened Wrappers
  import opened SessionPolicy
  import opened Model
  import opened AuthCalls
  import opened Machine
  import opened Summaries
  import opened Invariants

  /** The last of the first n requests that touched the device. */
  ghost function LastTouch(run: Run, device: string, n: nat): Option<nat> {
    if n == 0 then None
    else if Touches(EventAt(run, n - 1), device) then Some(n - 1)
    else LastTouch(run, device, n - 1)
  }

  lemma {:induction false} LastTouchIsLast(run: Run, device: string, n: nat)
    ensures var r := LastTouch(run, device, n);
      && (r.Some? ==> r.value < n && Touches(EventAt(run, r.value), device))
      && forall k: nat | k < n && Touches(EventAt(run, k), device) :: r.Some? && k <= r.value
  {
    hide Dispatch, Touches;
    if n > 0 {
      LastTouchIsLast(run, device, n - 1);
    }
  }

  ghost predicate Stores(s: State, device: string, c: nat, expiresAt: nat) {
    device in s.credentials && s.credentials[device].challenge == Some(c)
    && s.credentials[device].challengeExpiresAt == Some(expiresAt)
  }

  ghost predicate StoresNothing(s: State, device: string) {
    device in s.credentials ==> s.credentials[device].challenge.None?
  }

  lemma StoreStep(s: State, call: Call, device: string)
    requires FreshIds(s)
    ensures var o := Dispatch(s, call);
      if !Touches(o.event, device) then
        (device in o.state.credentials <==> device in s.credentials)
        && (device in s.credentials ==> o.state.credentials[device] == s.credentials[device])
      else if o.event.ChallengeIssued? then Stores(o.state, device, o.event.challenge, s.clock + CHALLENGE_TTL_MS)
      else StoresNothing(o.state, device)
  {
    hide Dispatch, UserRow, SessionRow, OtpRow, ReviewRow, EventFacts, Seconds;
    CallFollows(s, call, 0, device);
  }

  /**
   * A challenge is stored exactly when the last event that touched the device was its issue; it then expires
   * five minutes after that.
   */
  lemma {:induction false} ChallengeFromHistory(run: Run, device: string, n: nat)
    ensures var s, last := StateAt(run, n), LastTouch(run, device, n);
      if last.Some? && EventAt(run, last.value).ChallengeIssued? then
        Stores(s, device, EventAt(run, last.value).challenge, TimeAt(run, last.value) + 300000)
      else StoresNothing(s, device)
  {
    hide Dispatch, Inv, FreshIds, Touches;
    if n > 0 {
      ChallengeFromHistory(run, device, n - 1);
      RunIsFresh(run, n - 1);
      StoreStep(ServedIn(run, n - 1), run.script(n - 1).call, device);
    }
  }

  // ----- one login per challenge -----

  predicate LoginBy(e: Event, device: string, c: nat) {
    e.SessionOpened? && e.via == Some(Proof(device, c))
  }

  lemma LoginNeedsStored(s: State, call: Call, device: string, c: nat)
    requires FreshIds(s) && LoginBy(Dispatch(s, call).event, device, c)
    ensures ChallengeAccepted(s, device, c)
  {
    hide Dispatch, UserRow, SessionRow, OtpRow, ReviewRow, EventFacts, Seconds;
    CallFollows(s, call, 0, device);
  }

  /**
   * A biometric login answers the device's last event, the issue of that very challenge less than five minutes
   * before.
   */
  lemma {:induction false} LoginAnswersChallenge(run: Run, device: string, c: nat, n: nat)
    requires LoginBy(EventAt(run, n), device, c)
    ensures var last := LastTouch(run, device, n);
      last.Some? && EventAt(run, last.value) == ChallengeIssued(device, c)
      && TimeAt(run, n) < TimeAt(run, last.value) + 300000
  {
    hide Dispatch, Inv, FreshIds, LoginBy, Seconds;
    RunIsFresh(run, n);
    LoginNeedsStored(ServedIn(run, n), run.script(n).call, device, c);
    ChallengeFromHistory(run, device, n);
    LastTouchIsLast(run, device, n);
  }

  lemma IssueIsFresh(s: State, call: Call, device: string, c: nat)
    requires FreshIds(s) && Dispatch(s, call).event == ChallengeIssued(device, c)
    ensures c == s.nextId
  {
    hide Dispatch, UserRow, SessionRow, OtpRow, ReviewRow, DeviceRow, Seconds;
    CallFollows(s, call, 0, device);
  }

  lemma {:induction false} IdsGrow(run: Run, i: nat, n: nat)
    requires i <= n
    ensures StateAt(run, i).nextId <= StateAt(run, n).nextId
    decreases n
  {
    hide Dispatch, Inv, FreshIds, EventFacts, UserRow, SessionRow, OtpRow, ReviewRow, DeviceRow;
    if i < n {
      IdsGrow(run, i, n - 1);
      RunFollows(run, n - 1, 0, "");
    }
  }

  /** Two logins never answer the same challenge. */
  lemma {:induction false} OneLoginPerChallenge(run: Run, device: string, other: string, c: nat, j: nat, n: nat)
    requires LoginBy(EventAt(run, j), device, c) && LoginBy(EventAt(run, n), other, c)
    ensures j == n
  {
    hide Dispatch, Inv, FreshIds, LoginBy, Seconds;
    if j < n {
      LoginsDiffer(run, device, other, c, j, n);
    } else if n < j {
      LoginsDiffer(run, other, device, c, n, j);
    }
  }

  /** A challenge is drawn once: two issues of the same value are the same request. */
  lemma {:induction false} IssuedOnce(run: Run, device: string, other: string, c: nat, i: nat, j: nat)
    requires i < j && EventAt(run, i) == ChallengeIssued(device, c)
    ensures EventAt(run, j) != ChallengeIssued(other, c)
  {
    hide Dispatch, Inv, FreshIds, EventFacts, UserRow, SessionRow, OtpRow, ReviewRow, DeviceRow, Seconds;
    RunIsFresh(run, i);
    IssueIsFresh(ServedIn(run, i), run.script(i).call, device, c);
    RunIsFresh(run, j);
    if EventAt(run, j) == ChallengeIssued(other, c) {
      IssueIsFresh(ServedIn(run, j), run.script(j).call, other, c);
      IssueDraws(ServedIn(run, i), run.script(i).call, device, c);
      IdsGrow(run, i + 1, j);
    }
  }

  lemma IssueDraws(s: State, call: Call, device: string, c: nat)
    requires FreshIds(s) && Dispatch(s, call).event == ChallengeIssued(device, c)
    ensures Dispatch(s, call).state.nextId == c + 1
  {
    hide Dispatch, UserRow, SessionRow, OtpRow, ReviewRow, DeviceRow, Seconds;
    CallFollows(s, call, 0, device);
  }

  lemma {:induction false} LoginsDiffer(run: Run, device: string, other: string, c: nat, j: nat, n: nat)
    requires j < n && LoginBy(EventAt(run, j), device, c)
    ensures !LoginBy(EventAt(run, n), other, c)
  {
    hide Dispatch, Inv, FreshIds, Seconds;
    if LoginBy(EventAt(run, n), other, c) {
      LoginAnswersChallenge(run, device, c, j);
      LoginAnswersChallenge(run, other, c, n);
      LastTouchIsLast(run, device, j);
      LastTouchIsLast(run, other, n);
      var i, k := LastTouch(run, device, j).value, LastTouch(run, other, n).value;
      if i < k {
        IssuedOnce(run, device, other, c, i, k);
      } else if k < i {
        IssuedOnce(run, other, device, c, k, i);
      }
    }
  }

  // ----- ownership of a device -----

  ghost predicate OwnedBy(s: State, device: string, u: nat) {
    device in s.credentials && s.credentials[device].userId == u
  }

  lemma OwnerStep(s: State, call: Call, device: string, u: nat)
    requires FreshIds(s) && OwnedBy(s, device, u) && u in Dispatch(s, call).state.users
    ensures OwnedBy(Dispatch(s, call).state, device, u)
  {
    hide Dispatch, SessionRow, OtpRow, ReviewRow, EventFacts, Seconds;
    CallFollows(s, call, u, device);
  }

  lemma UserStep(s: State, call: Call, u: nat)
    requires FreshIds(s) && u < s.nextId && u in Dispatch(s, call).state.users
    ensures u in s.users
  {
    hide Dispatch, SessionRow, OtpRow, ReviewRow, DeviceRow, Seconds;
    CallFollows(s, call, u, "");
  }

  lemma {:induction false} KeepsOwner(run: Run, device: string, u: nat, i: nat, n: nat)
    requires i <= n && OwnedBy(StateAt(run, i), device, u) && u in StateAt(run, n).users && u < StateAt(run, i).nextId
    ensures OwnedBy(StateAt(run, n), device, u)
    decreases n
  {
    hide Dispatch, Inv, FreshIds, OwnedBy;
    if i < n {
      var s, call := ServedIn(run, n - 1), run.script(n - 1).call;
      Reachable(run, n - 1);
      InvParts(s);
      IdsGrow(run, i, n - 1);
      UserStep(s, call, u);
      KeepsOwner(run, device, u, i, n - 1);
      OwnedWhenServed(StateAt(run, n - 1), run.script(n - 1).delay, device, u);
      OwnerStep(s, call, device, u);
    }
  }

  lemma OwnedWhenServed(s: State, delay: nat, device: string, u: nat)
    ensures OwnedBy(Advance(s, delay), device, u) == OwnedBy(s, device, u)
  {
  }

  /** A registered device keeps its owner for as long as that user exists. */
  lemma {:induction false} DeviceKeepsOwner(run: Run, device: string, u: nat, i: nat, n: nat)
    requires i <= n && OwnedBy(StateAt(run, i), device, u) && u in StateAt(run, n).users
    ensures OwnedBy(StateAt(run, n), device, u)
  {
    hide Dispatch, Inv, FreshIds;
    Reachable(run, i);
    InvParts(StateAt(run, i));
    KeepsOwner(run, device, u, i, n);
  }
}
