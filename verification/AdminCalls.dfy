// What each call of src/admin/admin.service.ts and src/kyc/kyc.service.ts does, as a function of the
// state in which it runs. AdminService.dfy carries the calls out step by step and is proved equal.
module AdminCalls {
  import opened Wrappers
  import opened Text
  import opened SessionPolicy
  import opened Model
  import opened AuthCalls

  const TIER_2_DAILY_XAF := "5000000"
  const TIER_2_MONTHLY_XAF := "50000000"

  ghost function CreateUser(s: State, email: string, password: string, pin: string,
                            role: Option<Role>, tier: Option<Tier>): Outcome {
    if FindByEmail(s, email).Some? then Fail(s, EmailTaken)
    else
      var user := User(NormalizeEmail(email), password, pin, Some(s.clock), Active,
                       role.GetOr(RoleUser), tier.GetOr(Tier1), "0", "0");
      Outcome(s.(users := s.users[s.nextId := user], nextId := s.nextId + 1), Done, UserCreated(s.nextId))
  }

  /** The e-mail column is unique: a change to an address another user holds is refused by the database. */
  ghost predicate EmailHeldByOther(s: State, id: nat, email: string) {
    exists u :: u in s.users && u != id && s.users[u].email == email
  }

  ghost function UpdateUser(s: State, id: nat, newEmail: Option<string>, role: Option<Role>,
                            status: Option<Status>, tier: Option<Tier>): Outcome {
    if id !in s.users then Fail(s, UserNotFound)
    else if newEmail.Some? && EmailHeldByOther(s, id, NormalizeEmail(newEmail.value)) then Fail(s, EmailTaken)
    else
      var user := s.users[id];
      var user1 := user.(email := if newEmail.Some? then NormalizeEmail(newEmail.value) else user.email,
                         role := role.GetOr(user.role),
                         status := status.GetOr(user.status),
                         tier := tier.GetOr(user.tier));
      Outcome(s.(users := s.users[id := user1]), Done, Quiet)
  }

  function UpdateUserLimits(s: State, id: nat, tier: Option<Tier>, dailyXaf: Option<string>,
                            monthlyXaf: Option<string>): Outcome {
    if id !in s.users then Fail(s, UserNotFound)
    else
      var user := s.users[id];
      var user1 := user.(tier := tier.GetOr(user.tier),
                         dailyLimitXaf := dailyXaf.GetOr(user.dailyLimitXaf),
                         monthlyLimitXaf := monthlyXaf.GetOr(user.monthlyLimitXaf));
      Outcome(s.(users := s.users[id := user1]), Done, Quiet)
  }

  /** One nested write: the status and every unrevoked session of the user. */
  function SuspendUser(s: State, id: nat): Outcome {
    if id !in s.users then Fail(s, UserNotFound)
    else Outcome(s.(users := s.users[id := s.users[id].(status := Disabled)],
                    sessions := RevokeAll(s.sessions, id, s.clock)),
                 Done, UserSuspended(id))
  }

  function ActivateUser(s: State, id: nat): Outcome {
    if id !in s.users then Fail(s, UserNotFound)
    else Outcome(s.(users := s.users[id := s.users[id].(status := Active)]), Done, Quiet)
  }

  function DevicesOf(s: State, id: nat): set<string> {
    set d | d in s.credentials && s.credentials[d].userId == id
  }

  /** The foreign keys cascade: all rows of the user go with the user row. */
  function DeleteUser(s: State, id: nat, adminId: nat): Outcome {
    if id == adminId then Fail(s, OwnAccount)
    else if id !in s.users then Fail(s, UserNotFound)
    else Outcome(s.(users := s.users - {id},
                    sessions := map k | k in s.sessions && s.sessions[k].userId != id :: s.sessions[k],
                    otps := map k | k in s.otps && s.otps[k].userId != id :: s.otps[k],
                    credentials := map d | d in s.credentials && s.credentials[d].userId != id :: s.credentials[d],
                    submissions := map k | k in s.submissions && s.submissions[k].userId != id :: s.submissions[k]),
                 Done, UserDeleted(id, DevicesOf(s, id)))
  }

  function SetEnvironmentVariable(s: State, key: string, value: string): Outcome {
    Outcome(s.(env := s.env[key := value]), Done, Quiet)
  }

  function UpdateSessionPolicy(s: State, update: Update): Outcome {
    Outcome(s.(env := Upserts(s.env, Entries(update))), Done, Quiet)
  }

  // ----- review of identity documents -----

  function SubmitKyc(s: State, userId: nat): Outcome {
    if userId !in s.users then Fail(s, ForeignKeyViolation)
    else Outcome(s.(submissions := s.submissions[s.nextId := Submission(userId, Pending, None, None, None)],
                    nextId := s.nextId + 1),
                 Done, Quiet)
  }

  /** findForAdmin: the row, unless it is missing or already rejected. */
  function ReviewError(s: State, id: nat): Option<Error> {
    if id !in s.submissions then Some(SubmissionNotFound)
    else if s.submissions[id].review == RejectedReview then Some(AlreadyRejected)
    else None
  }

  /** One transaction: the submission becomes approved and its user is promoted with fixed limits. */
  function ApproveKyc(s: State, id: nat, adminId: nat): Outcome {
    if ReviewError(s, id).Some? then Fail(s, ReviewError(s, id).value)
    else if s.submissions[id].review == Approved then Outcome(s, Done, Quiet)
    else
      var row := s.submissions[id];
      if row.userId !in s.users then Fail(s, UserNotFound)
      else
        var user := s.users[row.userId].(tier := Tier2,
                                         dailyLimitXaf := TIER_2_DAILY_XAF, monthlyLimitXaf := TIER_2_MONTHLY_XAF);
        var row1 := Submission(row.userId, Approved, None, Some(adminId), Some(s.clock));
        Outcome(s.(submissions := s.submissions[id := row1],
                   users := s.users[row.userId := user]),
                Done, TierPromoted(id, row.userId))
  }

  function RejectKyc(s: State, id: nat, adminId: nat, reason: Option<string>): Outcome {
    if ReviewError(s, id).Some? then Fail(s, ReviewError(s, id).value)
    else if s.submissions[id].review == Approved then Fail(s, AlreadyApproved)
    else
      var row := s.submissions[id];
      // an omitted reason leaves the column as it is
      Outcome(s.(submissions := s.submissions[id := Submission(row.userId, RejectedReview,
                   if reason.Some? then reason else row.reason, Some(adminId), Some(s.clock))]),
              Done, Quiet)
  }
}
