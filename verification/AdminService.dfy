// src/admin/admin.service.ts, src/kyc/kyc.service.ts and the writes of src/auth/session-policy.service.ts
// carried out on the tables; each method is proved equal to its call in AdminCalls.
module AdminService {
  import opened Wrappers
  import opened Text
  import opened SessionPolicy
  import opened Model
  import A = AuthCalls
  import M = AdminCalls
  import D = Database
  import opened Machine
  import opened Invariants
  import opened SessionTheorems

  class SessionPolicyService {
    const db: D.Database

    constructor (db: D.Database)
      ensures this.db == db
    {
      this.db := db;
    }

    /** One upsert per supplied field. */
    method UpdatePolicy(update: Update) returns (policy: Policy)
      requires Inv(db.View())
      modifies db
      ensures db.View() == Dispatch(old(db.View()), Call.UpdateSessionPolicy(update)).state
      ensures Inv(db.View())
      ensures policy == GetPolicy(db.env, db.processEnv)
      ensures forall field :: policy.Get(field) == Requested(GetPolicy(old(db.env), db.processEnv), update, field)
    {
      hide Inv, EmailsUnique, RowsOwned, OneOutstanding, Decimal, Key, Clamp, Seconds, GetPolicy, Entries, Dispatch;
      ghost var s := db.View();
      KeptByCall(s, Call.UpdateSessionPolicy(update));
      UpdateCall(s, update);
      var entries := Entries(update);
      for i := 0 to |entries|
        invariant db.View() == s.(env := Upserts(s.env, entries[..i]))
      {
        assert entries[..i + 1][..i] == entries[..i];
        var e := entries[i];
        db.env := db.env[Key(e.field) := Decimal(Clamp(e.field, e.value))];
      }
      assert entries[..|entries|] == entries;
      policy := GetPolicy(db.env, db.processEnv);
      forall field
        ensures policy.Get(field) == Requested(GetPolicy(s.env, s.processEnv), update, field)
      {
        UpdateReadsBack(s.env, s.processEnv, update, field);
      }
    }
  }

  lemma UpdateCall(s: State, update: Update)
    ensures Dispatch(s, Call.UpdateSessionPolicy(update)).state == s.(env := Upserts(s.env, Entries(update)))
  {
    hide Upserts, Entries;
  }

  /** Of the tables, only the user rows changed, and of those only this one. */
  predicate OnlyUserRow(s: State, t: State, id: nat) {
    t == s.(users := t.users) && id in s.users && id in t.users && t.users == s.users[id := t.users[id]]
  }

  class AdminService {
    const db: D.Database

    constructor (db: D.Database)
      ensures this.db == db
    {
      this.db := db;
    }

    method CreateUser(email: string, password: string, pin: string, role: Option<Role>, tier: Option<Tier>)
      returns (reply: Reply, ghost event: Event)
      requires Inv(db.View())
      modifies db
      ensures Outcome(db.View(), reply, event)
          == Dispatch(old(db.View()), Call.CreateUser(email, password, pin, role, tier))
      ensures Inv(db.View())
    {
      hide Inv, EmailsUnique, OneOutstanding, RowsOwned, NormalizeEmail, Seconds, IsNewestFirst, A.CheckOtp;
      KeptByCall(db.View(), Call.CreateUser(email, password, pin, role, tier));
      var existing := db.FindUserByEmail(email);
      if existing.Some? {
        return Rejected(EmailTaken), Quiet;
      }
      var id := db.nextId;
      db.users := db.users[id := User(NormalizeEmail(email), password, pin, Some(db.clock), Active,
                                      role.GetOr(RoleUser), tier.GetOr(Tier1), "0", "0")];
      db.nextId := id + 1;
      reply, event := Done, UserCreated(id);
    }

    method UpdateUser(id: nat, newEmail: Option<string>, role: Option<Role>, status: Option<Status>, tier: Option<Tier>)
      returns (reply: Reply, ghost event: Event)
      requires Inv(db.View())
      modifies db
      ensures Outcome(db.View(), reply, event)
          == Dispatch(old(db.View()), Call.UpdateUser(id, newEmail, role, status, tier))
      ensures Inv(db.View())
      ensures !reply.Done? ==> db.View() == old(db.View())
      ensures reply.Done? ==> OnlyUserRow(old(db.View()), db.View(), id)
      ensures reply.Done? ==>
          var before, after := old(db.users)[id], db.users[id];
          && after.email == (if newEmail.Some? then NormalizeEmail(newEmail.value) else before.email)
          && after.role == role.GetOr(before.role) && after.status == status.GetOr(before.status)
          && after.tier == tier.GetOr(before.tier)
          && after == before.(email := after.email, role := after.role, status := after.status, tier := after.tier)
    {
      hide Inv, EmailsUnique, OneOutstanding, RowsOwned, NormalizeEmail, Seconds, IsNewestFirst, A.CheckOtp;
      KeptByCall(db.View(), Call.UpdateUser(id, newEmail, role, status, tier));
      event := Quiet;
      if id !in db.users {
        return Rejected(UserNotFound), event;
      }
      var user := db.users[id];
      if newEmail.Some? {
        var address := NormalizeEmail(newEmail.value);
        if u :| u in db.users && u != id && db.users[u].email == address {
          assert M.EmailHeldByOther(db.View(), id, address);
          return Rejected(EmailTaken), event;
        }
        user := user.(email := address);
      }
      if role.Some? { user := user.(role := role.value); }
      if status.Some? { user := user.(status := status.value); }
      if tier.Some? { user := user.(tier := tier.value); }
      db.users := db.users[id := user];
      reply := Done;
    }

    method UpdateUserLimits(id: nat, tier: Option<Tier>, dailyXaf: Option<string>, monthlyXaf: Option<string>)
      returns (reply: Reply, ghost event: Event)
      requires Inv(db.View())
      modifies db
      ensures Outcome(db.View(), reply, event)
          == Dispatch(old(db.View()), Call.UpdateUserLimits(id, tier, dailyXaf, monthlyXaf))
      ensures Inv(db.View())
      ensures !reply.Done? ==> db.View() == old(db.View())
      ensures reply.Done? ==> OnlyUserRow(old(db.View()), db.View(), id)
      ensures reply.Done? ==>
          var before, after := old(db.users)[id], db.users[id];
          && after.tier == tier.GetOr(before.tier)
          && after.dailyLimitXaf == dailyXaf.GetOr(before.dailyLimitXaf)
          && after.monthlyLimitXaf == monthlyXaf.GetOr(before.monthlyLimitXaf)
          && after == before.(tier := after.tier, dailyLimitXaf := after.dailyLimitXaf,
                              monthlyLimitXaf := after.monthlyLimitXaf)
    {
      hide Inv, EmailsUnique, OneOutstanding, RowsOwned, NormalizeEmail, Seconds, IsNewestFirst, A.CheckOtp;
      KeptByCall(db.View(), Call.UpdateUserLimits(id, tier, dailyXaf, monthlyXaf));
      event := Quiet;
      if id !in db.users {
        return Rejected(UserNotFound), event;
      }
      var user := db.users[id];
      if tier.Some? { user := user.(tier := tier.value); }
      if dailyXaf.Some? { user := user.(dailyLimitXaf := dailyXaf.value); }
      if monthlyXaf.Some? { user := user.(monthlyLimitXaf := monthlyXaf.value); }
      db.users := db.users[id := user];
      reply := Done;
    }

    method SuspendUser(id: nat) returns (reply: Reply, ghost event: Event)
      requires Inv(db.View())
      modifies db
      ensures Outcome(db.View(), reply, event) == Dispatch(old(db.View()), Call.SuspendUser(id))
      ensures Inv(db.View())
      ensures reply.Done? ==> id in db.users && db.users[id].status == Disabled && AllRevoked(db.View(), id)
    {
      hide Inv, EmailsUnique, OneOutstanding, RowsOwned, NormalizeEmail, Seconds, IsNewestFirst, A.CheckOtp;
      KeptByCall(db.View(), Call.SuspendUser(id));
      if id !in db.users {
        return Rejected(UserNotFound), Quiet;
      }
      db.users := db.users[id := db.users[id].(status := Disabled)];
      db.sessions := A.RevokeAll(db.sessions, id, db.clock);
      reply, event := Done, UserSuspended(id);
    }

    method ActivateUser(id: nat) returns (reply: Reply, ghost event: Event)
      requires Inv(db.View())
      modifies db
      ensures Outcome(db.View(), reply, event) == Dispatch(old(db.View()), Call.ActivateUser(id))
      ensures Inv(db.View())
      ensures db.sessions == old(db.sessions)
      ensures reply.Done? ==>
          OnlyUserRow(old(db.View()), db.View(), id) && db.users[id] == old(db.users)[id].(status := Active)
    {
      hide Inv, EmailsUnique, OneOutstanding, RowsOwned, NormalizeEmail, Seconds, IsNewestFirst, A.CheckOtp;
      KeptByCall(db.View(), Call.ActivateUser(id));
      event := Quiet;
      if id !in db.users {
        return Rejected(UserNotFound), event;
      }
      db.users := db.users[id := db.users[id].(status := Active)];
      reply := Done;
    }

    method DeleteUser(id: nat, adminId: nat) returns (reply: Reply, ghost event: Event)
      requires Inv(db.View())
      modifies db
      ensures Outcome(db.View(), reply, event) == Dispatch(old(db.View()), Call.DeleteUser(id, adminId))
      ensures Inv(db.View())
      ensures reply.Done? ==> id !in db.users && forall k | k in db.sessions :: db.sessions[k].userId != id
    {
      hide Inv, EmailsUnique, RowsOwned, OneOutstanding, Seconds, NormalizeEmail, A.CheckOtp, A.FindByEmail;
      KeptByCall(db.View(), Call.DeleteUser(id, adminId));
      if id == adminId {
        return Rejected(OwnAccount), Quiet;
      }
      if id !in db.users {
        return Rejected(UserNotFound), Quiet;
      }
      event := UserDeleted(id, M.DevicesOf(db.View(), id));
      db.DeleteUserRow(id);
      reply := Done;
    }

    method UpdateEnvironmentVariable(key: string, value: string) returns (reply: Reply, ghost event: Event)
      requires Inv(db.View())
      modifies db
      ensures Outcome(db.View(), reply, event) == Dispatch(old(db.View()), Call.SetEnvironmentVariable(key, value))
      ensures Inv(db.View())
      ensures db.View() == old(db.View()).(env := db.env) && key in db.env && db.env[key] == value
      ensures forall other | other != key :: (other in db.env <==> other in old(db.env))
      ensures forall other | other != key && other in db.env :: db.env[other] == old(db.env)[other]
    {
      hide Inv, EmailsUnique, OneOutstanding, RowsOwned, NormalizeEmail, Seconds, IsNewestFirst, A.CheckOtp;
      KeptByCall(db.View(), Call.SetEnvironmentVariable(key, value));
      db.env := db.env[key := value];
      reply, event := Done, Quiet;
    }
  }

  class KycService {
    const db: D.Database

    constructor (db: D.Database)
      ensures this.db == db
    {
      this.db := db;
    }

    method Submit(userId: nat) returns (reply: Reply, ghost event: Event)
      requires Inv(db.View())
      modifies db
      ensures Outcome(db.View(), reply, event) == Dispatch(old(db.View()), Call.SubmitKyc(userId))
      ensures Inv(db.View())
    {
      hide Inv, EmailsUnique, OneOutstanding, RowsOwned, NormalizeEmail, Seconds, IsNewestFirst, A.CheckOtp;
      KeptByCall(db.View(), Call.SubmitKyc(userId));
      event := Quiet;
      if userId !in db.users {
        return Rejected(ForeignKeyViolation), event;
      }
      db.submissions := db.submissions[db.nextId := Submission(userId, Pending, None, None, None)];
      db.nextId := db.nextId + 1;
      reply := Done;
    }

    method FindForAdmin(id: nat) returns (error: Option<Error>)
      ensures error.None? <==> id in db.submissions && db.submissions[id].review != RejectedReview
      ensures error == Some(SubmissionNotFound) <==> id !in db.submissions
      ensures error.None? || error.value in {SubmissionNotFound, AlreadyRejected}
    {
      if id !in db.submissions {
        return Some(SubmissionNotFound);
      }
      if db.submissions[id].review == RejectedReview {
        return Some(AlreadyRejected);
      }
      error := None;
    }

    method Approve(id: nat, adminId: nat) returns (reply: Reply, ghost event: Event)
      requires Inv(db.View())
      modifies db
      ensures Outcome(db.View(), reply, event) == Dispatch(old(db.View()), Call.ApproveKyc(id, adminId))
      ensures Inv(db.View())
      ensures reply.Done? ==> id in db.submissions && db.submissions[id].review == Approved
    {
      hide Inv, EmailsUnique, OneOutstanding, NormalizeEmail, Seconds, IsNewestFirst, A.CheckOtp;
      KeptByCall(db.View(), Call.ApproveKyc(id, adminId));
      var error := FindForAdmin(id);
      if error.Some? {
        return Rejected(error.value), Quiet;
      }
      var row := db.submissions[id];
      if row.review == Approved {
        return Done, Quiet;
      }
      db.submissions := db.submissions[id :=
        row.(review := Approved, reason := None, reviewedBy := Some(adminId), reviewedAt := Some(db.clock))];
      var user := db.users[row.userId];
      db.users := db.users[row.userId :=
        user.(tier := Tier2, dailyLimitXaf := M.TIER_2_DAILY_XAF, monthlyLimitXaf := M.TIER_2_MONTHLY_XAF)];
      reply, event := Done, TierPromoted(id, row.userId);
    }

    method Reject(id: nat, adminId: nat, reason: Option<string>) returns (reply: Reply, ghost event: Event)
      requires Inv(db.View())
      modifies db
      ensures Outcome(db.View(), reply, event) == Dispatch(old(db.View()), Call.RejectKyc(id, adminId, reason))
      ensures Inv(db.View())
      ensures reply.Done? ==> id in db.submissions && db.submissions[id].review == RejectedReview
    {
      hide Inv, EmailsUnique, OneOutstanding, RowsOwned, NormalizeEmail, Seconds, IsNewestFirst, A.CheckOtp;
      KeptByCall(db.View(), Call.RejectKyc(id, adminId, reason));
      event := Quiet;
      var error := FindForAdmin(id);
      if error.Some? {
        return Rejected(error.value), event;
      }
      var row := db.submissions[id];
      if row.review == Approved {
        return Rejected(AlreadyApproved), event;
      }
      row := row.(review := RejectedReview, reviewedBy := Some(adminId), reviewedAt := Some(db.clock));
      if reason.Some? { row := row.(reason := reason); }
      db.submissions := db.submissions[id := row];
      reply := Done;
    }
  }
}
