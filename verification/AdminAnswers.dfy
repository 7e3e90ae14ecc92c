// What the calls of the admin and review services answer, and what they write, in terms of their arguments.
module AdminAnswers {
  import opened Wrappers
  import opened Text
  import opened SessionPolicy
  import opened Model
  import opened AuthCalls
  import opened Machine
  import opened Summaries
  import opened AnswerTheorems

  /** Only this user's row changed, and the call is Done. */
  predicate WritesUser(s: State, o: Outcome, u: nat) {
    && o.reply == Done && u in s.users && u in o.state.users
    && o.state.users == s.users[u := o.state.users[u]]
  }

  lemma CreateUserAnswers(s: State, email: string, password: string, pin: string, role: Option<Role>,
      tier: Option<Tier>)
    requires FreshIds(s)
    ensures var o := Dispatch(s, Call.CreateUser(email, password, pin, role, tier));
      if !Unheld(s, email) then Refused(s, o, EmailTaken)
      else
        && o.reply == Done && o.event.UserCreated? && o.event.user !in s.users && o.event.user in o.state.users
        && o.state == s.(users := s.users[o.event.user := o.state.users[o.event.user]], nextId := o.state.nextId)
        && (var user := o.state.users[o.event.user];
            && user.email == NormalizeEmail(email) && user.passwordHash == password && user.pinHash == pin
            && user.emailVerifiedAt == Some(s.clock) && user.status == Active
            && user.role == role.GetOr(RoleUser) && user.tier == tier.GetOr(Tier1)
            && user.dailyLimitXaf == user.monthlyLimitXaf == "0")
  {
    hide Seconds, NormalizeEmail, FindByEmail;
    if Unheld(s, email) {
      NobodyIsFound(s, email);
    }
  }

  ghost predicate HeldByOther(s: State, id: nat, email: string) {
    exists u :: u in s.users && u != id && s.users[u].email == email
  }

  /** A change of address is refused exactly when another user holds the new one. */
  lemma UpdateUserAnswers(s: State, id: nat, newEmail: Option<string>, role: Option<Role>, status: Option<Status>,
      tier: Option<Tier>)
    ensures var o := Dispatch(s, Call.UpdateUser(id, newEmail, role, status, tier));
      if id !in s.users then Refused(s, o, UserNotFound)
      else if newEmail.Some? && HeldByOther(s, id, NormalizeEmail(newEmail.value)) then Refused(s, o, EmailTaken)
      else WritesUser(s, o, id) && o.state == s.(users := o.state.users)
  {
    hide Seconds, NormalizeEmail;
  }

  lemma UserAnswers(s: State, id: nat, tier: Option<Tier>, dailyXaf: Option<string>, monthlyXaf: Option<string>)
    ensures var o := Dispatch(s, Call.UpdateUserLimits(id, tier, dailyXaf, monthlyXaf));
      if id !in s.users then Refused(s, o, UserNotFound)
      else WritesUser(s, o, id) && o.state == s.(users := o.state.users)
    ensures var o := Dispatch(s, Call.ActivateUser(id));
      if id !in s.users then Refused(s, o, UserNotFound)
      else WritesUser(s, o, id) && o.state == s.(users := o.state.users)
    ensures var o := Dispatch(s, Call.SuspendUser(id));
      if id !in s.users then Refused(s, o, UserNotFound)
      else WritesUser(s, o, id) && o.state == s.(users := o.state.users, sessions := o.state.sessions)
           && o.event == UserSuspended(id)
  {
    hide Seconds, RevokeAll;
  }

  /** A row of this user, or of another, in a table from which this user's rows were removed. */
  lemma DeleteAnswers(s: State, id: nat, adminId: nat)
    ensures var o := Dispatch(s, Call.DeleteUser(id, adminId));
      if id == adminId then Refused(s, o, OwnAccount)
      else if id !in s.users then Refused(s, o, UserNotFound)
      else
        && o.reply == Done
        && (forall u :: u in o.state.users <==> u in s.users && u != id)
        && (forall u | u in o.state.users :: o.state.users[u] == s.users[u])
        && (forall k :: k in o.state.sessions <==> k in s.sessions && s.sessions[k].userId != id)
        && (forall k | k in o.state.sessions :: o.state.sessions[k] == s.sessions[k])
        && (forall k :: k in o.state.otps <==> k in s.otps && s.otps[k].userId != id)
        && (forall k | k in o.state.otps :: o.state.otps[k] == s.otps[k])
        && (forall d :: d in o.state.credentials <==> d in s.credentials && s.credentials[d].userId != id)
        && (forall d | d in o.state.credentials :: o.state.credentials[d] == s.credentials[d])
        && (forall k :: k in o.state.submissions <==> k in s.submissions && s.submissions[k].userId != id)
        && (forall k | k in o.state.submissions :: o.state.submissions[k] == s.submissions[k])
  {
    hide Seconds;
  }

  // ----- review -----

  /** Only this submission's row changed. */
  predicate WritesSubmission(s: State, o: Outcome, id: nat) {
    && o.reply == Done && id in o.state.submissions
    && o.state.submissions == s.submissions[id := o.state.submissions[id]]
  }

  /** A submission of an existing user is stored as pending, with nothing decided. */
  lemma SubmitAnswers(s: State, u: nat)
    requires FreshIds(s)
    ensures var o := Dispatch(s, Call.SubmitKyc(u));
      if u !in s.users then Refused(s, o, ForeignKeyViolation)
      else
        && s.nextId !in s.submissions && WritesSubmission(s, o, s.nextId)
        && o.state == s.(submissions := o.state.submissions, nextId := o.state.nextId)
        && (var row := o.state.submissions[s.nextId];
            && row.userId == u && row.review == Pending && row.reason.None? && row.reviewedBy.None?
            && row.reviewedAt.None?)
  {
    hide Seconds;
  }

  /**
   * An approval decides a pending submission and promotes its user to the second tier with 5 000 000 a day and
   * 50 000 000 a month.
   */
  lemma ApproveAnswers(s: State, id: nat, adminId: nat)
    requires forall k | k in s.submissions :: s.submissions[k].userId in s.users
    ensures var o := Dispatch(s, Call.ApproveKyc(id, adminId));
      if id !in s.submissions then Refused(s, o, SubmissionNotFound)
      else match s.submissions[id].review
        case RejectedReview => Refused(s, o, AlreadyRejected)
        case Approved => o.reply == Done && o.state == s && o.event == Quiet
        case Pending =>
          var u := s.submissions[id].userId;
          && WritesSubmission(s, o, id) && WritesUser(s, o, u)
          && o.state == s.(submissions := o.state.submissions, users := o.state.users)
          && o.state.submissions[id] == Submission(u, Approved, None, Some(adminId), Some(s.clock))
          && o.state.users[u].tier == Tier2
          && o.state.users[u].dailyLimitXaf == "5000000" && o.state.users[u].monthlyLimitXaf == "50000000"
          && o.event == TierPromoted(id, u)
  {
    hide Seconds;
  }

  /** A rejection decides a pending submission, with the reason given, and touches no user. */
  lemma RejectAnswers(s: State, id: nat, adminId: nat, reason: Option<string>)
    ensures var o := Dispatch(s, Call.RejectKyc(id, adminId, reason));
      if id !in s.submissions then Refused(s, o, SubmissionNotFound)
      else match s.submissions[id].review
        case RejectedReview => Refused(s, o, AlreadyRejected)
        case Approved => Refused(s, o, AlreadyApproved)
        case Pending =>
          && WritesSubmission(s, o, id) && o.state == s.(submissions := o.state.submissions)
          && (var row := o.state.submissions[id];
              && row.userId == s.submissions[id].userId && row.review == RejectedReview
              && row.reason == (if reason.Some? then reason else s.submissions[id].reason)
              && row.reviewedBy == Some(adminId) && row.reviewedAt == Some(s.clock))
  {
    hide Seconds;
  }
}
