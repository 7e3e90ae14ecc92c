// Review of identity documents over whole serial runs, and how it agrees with the user's tier.
module ReviewTheorems {
  import opened SessionPolicy
  import opened Model
  import opened Machine
  import opened Summaries
  import opened Invariants

  ghost predicate Decided(s: State, id: nat, row: Submission) {
    id < s.nextId && (id in s.submissions ==> s.submissions[id] == row)
  }

  lemma DecidedStep(s: State, call: Call, id: nat, row: Submission)
    requires FreshIds(s) && row.review != Pending && Decided(s, id, row)
    ensures var o := Dispatch(s, call);
      Decided(o.state, id, row) && !(o.event.TierPromoted? && o.event.submission == id)
  {
    hide Dispatch, UserRow, SessionRow, OtpRow, DeviceRow, EventFacts, Seconds;
    CallFollows(s, call, id, "");
  }

  /** An approved or rejected submission keeps its whole row for as long as it exists, and promotes nobody again. */
  lemma {:induction false} DecisionIsFinal(run: Run, id: nat, i: nat, n: nat)
    requires i <= n && id in StateAt(run, i).submissions && StateAt(run, i).submissions[id].review != Pending
    ensures Decided(StateAt(run, n), id, StateAt(run, i).submissions[id])
    ensures forall k: nat | i <= k < n :: !(EventAt(run, k).TierPromoted? && EventAt(run, k).submission == id)
    decreases n
  {
    hide Dispatch, Inv, FreshIds;
    if i == n {
      Reachable(run, i);
      InvParts(StateAt(run, i));
    } else {
      DecisionIsFinal(run, id, i, n - 1);
      RunIsFresh(run, n - 1);
      DecidedStep(ServedIn(run, n - 1), run.script(n - 1).call, id, StateAt(run, i).submissions[id]);
    }
  }

  /** Deciding a submission, or trying to. */
  predicate Decides(call: Call, id: nat) {
    (call.ApproveKyc? || call.RejectKyc?) && call.id == id
  }

  lemma DecidedAgain(s: State, call: Call, id: nat, row: Submission)
    requires row.review != Pending && Decided(s, id, row) && Decides(call, id)
    ensures var o := Dispatch(s, call);
      && o.state == s && o.event == Quiet
      && (o.reply.Done? <==> id in s.submissions && row.review == Approved && call.ApproveKyc?)
  {
    hide Seconds, Upserts, IsNewestFirst;
  }

  /**
   * Once a submission is decided, no later approval or rejection of it changes anything, limits edited since
   * included; and it succeeds only as the repeated approval of an approved submission that still exists.
   */
  lemma {:induction false} DecidingAgainChangesNothing(run: Run, id: nat, i: nat, n: nat)
    requires i <= n && id in StateAt(run, i).submissions && StateAt(run, i).submissions[id].review != Pending
    requires Decides(run.script(n).call, id)
    ensures StateAt(run, n + 1) == ServedIn(run, n)
    ensures OutcomeAt(run, n).reply.Done? <==>
      id in ServedIn(run, n).submissions && StateAt(run, i).submissions[id].review == Approved
          && run.script(n).call.ApproveKyc?
  {
    hide Dispatch, Inv, FreshIds;
    DecisionIsFinal(run, id, i, n);
    DecidedAgain(ServedIn(run, n), run.script(n).call, id, StateAt(run, i).submissions[id]);
  }

  predicate Promotes(e: Event, id: nat) {
    e.TierPromoted? && e.submission == id
  }

  lemma PromotionDecides(s: State, call: Call, id: nat)
    requires FreshIds(s) && Promotes(Dispatch(s, call).event, id)
    ensures var t := Dispatch(s, call).state; id in t.submissions && t.submissions[id].review == Approved
  {
    hide Dispatch, UserRow, SessionRow, OtpRow, DeviceRow, EventFacts, Seconds;
    CallFollows(s, call, id, "");
  }

  /** Each submission promotes its user at most once. */
  lemma {:induction false} PromotesAtMostOnce(run: Run, id: nat, i: nat, n: nat)
    requires i < n && Promotes(EventAt(run, i), id)
    ensures !Promotes(EventAt(run, n), id)
  {
    hide Dispatch, Inv, FreshIds;
    RunIsFresh(run, i);
    PromotionDecides(ServedIn(run, i), run.script(i).call, id);
    DecisionIsFinal(run, id, i + 1, n + 1);
  }

  // ----- tier -----

  ghost predicate ApprovedFor(s: State, id: nat, u: nat) {
    id in s.submissions && s.submissions[id].userId == u && s.submissions[id].review == Approved
  }

  ghost predicate HasApproved(s: State, u: nat) {
    exists id :: ApprovedFor(s, id, u)
  }

  /** The user is in the second tier exactly when one of their submissions is approved. */
  ghost predicate TierAgrees(s: State, u: nat) {
    u in s.users ==> (s.users[u].tier == Tier2 <==> HasApproved(s, u))
  }

  /** One submission: it is approved for the user afterwards if it was before, or is the one just promoted. */
  lemma ApprovedStep(s: State, call: Call, id: nat, u: nat)
    requires FreshIds(s)
    ensures var o := Dispatch(s, call);
      !(o.event.UserDeleted? && o.event.user == u) ==>
        (ApprovedFor(o.state, id, u) <==> ApprovedFor(s, id, u) || (Promotes(o.event, id) && o.event.user == u))
  {
    hide Dispatch, UserRow, SessionRow, OtpRow, DeviceRow, EventFacts, FreshIds, Seconds;
    CallFollows(s, call, id, "");
  }

  lemma ApprovalStep(s: State, call: Call, u: nat)
    requires FreshIds(s)
    ensures var o := Dispatch(s, call);
      !(o.event.UserDeleted? && o.event.user == u) ==>
        (HasApproved(o.state, u) <==> HasApproved(s, u) || (o.event.TierPromoted? && o.event.user == u))
  {
    hide Dispatch, FreshIds, ApprovedFor;
    var o := Dispatch(s, call);
    if id :| ApprovedFor(s, id, u) {
      ApprovedStep(s, call, id, u);
    }
    if o.event.TierPromoted? {
      ApprovedStep(s, call, o.event.submission, u);
    }
    if id :| ApprovedFor(o.state, id, u) {
      ApprovedStep(s, call, id, u);
    }
  }

  lemma TierStep(s: State, call: Call, u: nat)
    requires FreshIds(s) && RowsOwned(s) && TierAgrees(s, u) && u < s.nextId
    requires !(EditsTier(call, u) && Dispatch(s, call).reply.Done?)
    ensures TierAgrees(Dispatch(s, call).state, u) && u < Dispatch(s, call).state.nextId
  {
    hide Dispatch, SessionRow, OtpRow, DeviceRow, ReviewRow, HasApproved, RowsOwned, Seconds;
    ApprovalStep(s, call, u);
    CallFollows(s, call, u, "");
  }

  lemma TierStarts(s: State, call: Call, u: nat)
    requires FreshIds(s) && RowsOwned(s)
    requires Dispatch(s, call).event.UserRegistered? && Dispatch(s, call).event.user == u
    ensures TierAgrees(Dispatch(s, call).state, u) && u < Dispatch(s, call).state.nextId
  {
    hide Dispatch, SessionRow, OtpRow, DeviceRow, ReviewRow, Seconds;
    ApprovalStep(s, call, u);
    CallFollows(s, call, u, "");
  }

  lemma TierWhenServed(s: State, delay: nat, u: nat)
    ensures TierAgrees(Advance(s, delay), u) == TierAgrees(s, u)
  {
    assert forall id :: ApprovedFor(Advance(s, delay), id, u) == ApprovedFor(s, id, u);
  }

  /**
   * A self-registered user whose tier no administrator has edited is in the second tier if and only if they
   * have an approved submission.
   */
  lemma {:induction false} TierMatchesReview(run: Run, u: nat, i: nat, n: nat)
    requires i < n && EventAt(run, i).UserRegistered? && EventAt(run, i).user == u
    requires forall k: nat | i < k < n :: !(EditsTier(run.script(k).call, u) && OutcomeAt(run, k).reply.Done?)
    ensures TierAgrees(StateAt(run, n), u) && u < StateAt(run, n).nextId
    decreases n
  {
    hide Dispatch, Inv, FreshIds, EmailsUnique, RowsOwned, OneOutstanding, VerificationCodes, OtpRowsInRange,
      DrawnEarlier, TierAgrees, EditsTier;
    var s, call := ServedIn(run, n - 1), run.script(n - 1).call;
    Reachable(run, n - 1);
    InvParts(s);
    if n == i + 1 {
      TierStarts(s, call, u);
    } else {
      TierMatchesReview(run, u, i, n - 1);
      TierWhenServed(StateAt(run, n - 1), run.script(n - 1).delay, u);
      TierStep(s, call, u);
    }
  }
}
