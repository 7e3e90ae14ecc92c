// The tables of prisma/schema.prisma as one mutable object, with the lookups the services make in it.
module Database {
  import opened Wrappers
  import opened Text
  import opened Model
  import opened AuthCalls
  import M = AdminCalls
  import opened Invariants

  class Database {
    var users: map<nat, User>
    var sessions: map<nat, Session>
    var otps: map<nat, Otp>
    var credentials: map<string, Credential>
    var submissions: map<nat, Submission>
    var env: map<string, string>
    const processEnv: map<string, string>
    var issued: set<AccessToken>
    var clock: nat
    var nextId: nat

    function View(): State
      reads this
    {
      State(users, sessions, otps, credentials, submissions, env, processEnv, issued, clock, nextId)
    }

    constructor (processEnv: map<string, string>, epoch: nat)
      ensures View() == Init(processEnv, epoch)
      ensures Inv(View())
    {
      users, sessions, otps, credentials, submissions, env := map[], map[], map[], map[], map[], map[];
      this.processEnv, issued, clock, nextId := processEnv, {}, epoch, 0;
    }

    /** user.findUnique by e-mail */
    method FindUserByEmail(email: string) returns (r: Option<nat>)
      requires EmailsUnique(View())
      ensures r == FindByEmail(View(), email)
    {
      var address := NormalizeEmail(email);
      if u :| u in users && users[u].email == address {
        r := Some(u);
      } else {
        r := None;
      }
    }

    /** otpCode.findFirst of a user and purpose, unconsumed, optionally unexpired only, newest first */
    method FindNewestOtp(userId: nat, purpose: Purpose, unexpiredOnly: bool) returns (r: Option<nat>)
      requires OneOutstanding(View())
      ensures r == Newest(View(), if unexpiredOnly then Unexpired(View(), userId, purpose)
                                  else Outstanding(View(), userId, purpose))
    {
      var rows := set id | id in otps && Unconsumed(otps[id], userId, purpose)
          && (unexpiredOnly ==> otps[id].expiresAt > clock);
      assert rows == if unexpiredOnly then Unexpired(View(), userId, purpose) else Outstanding(View(), userId, purpose);
      if id :| id in rows && forall other | other in rows :: otps[other].createdAt <= otps[id].createdAt {
        assert IsNewest(View(), rows, id);
        r := Some(id);
      } else {
        r := None;
        assert forall id :: !IsNewest(View(), rows, id);
      }
    }

    /** user.delete; the foreign keys cascade */
    method DeleteUserRow(id: nat)
      requires id in users
      modifies this
      ensures forall adminId | adminId != id :: View() == M.DeleteUser(old(View()), id, adminId).state
    {
      users, sessions, otps, credentials, submissions :=
        users - {id},
        map k | k in sessions && sessions[k].userId != id :: sessions[k],
        map k | k in otps && otps[k].userId != id :: otps[k],
        map d | d in credentials && credentials[d].userId != id :: credentials[d],
        map k | k in submissions && submissions[k].userId != id :: submissions[k];
    }

    /** session.findMany of the live sessions, newest first; ties are left in any order */
    method FindLiveNewestFirst() returns (order: seq<nat>)
      ensures IsNewestFirst(View(), order)
    {
      order := [];
      var rest := set id | id in sessions && Live(View(), id);
      ghost var live := rest;
      while rest != {}
        invariant rest <= live && forall id :: id in live <==> Live(View(), id)
        invariant forall id :: id in order <==> id in live && id !in rest
        invariant forall i | 0 <= i < |order| :: order[i] in sessions
        invariant forall i, j | 0 <= i < j < |order| :: order[i] != order[j]
        invariant forall i, id | 0 <= i < |order| && id in rest ::
            sessions[order[i]].createdAt >= sessions[id].createdAt
        invariant forall i, j | 0 <= i < j < |order| :: sessions[order[i]].createdAt >= sessions[order[j]].createdAt
      {
        NewestExists(sessions, rest);
        var next :| next in rest && forall id | id in rest :: sessions[id].createdAt <= sessions[next].createdAt;
        order, rest := order + [next], rest - {next};
      }
    }
  }

  lemma {:induction false} NewestExists(sessions: map<nat, Session>, ids: set<nat>)
    requires ids != {} && ids <= sessions.Keys
    ensures exists n :: n in ids && forall id | id in ids :: sessions[id].createdAt <= sessions[n].createdAt
    decreases ids
  {
    var x :| x in ids;
    if ids != {x} {
      NewestExists(sessions, ids - {x});
      var n :| n in ids - {x} && forall id | id in ids - {x} :: sessions[id].createdAt <= sessions[n].createdAt;
      var best := if sessions[n].createdAt >= sessions[x].createdAt then n else x;
      assert forall id | id in ids :: sessions[id].createdAt <= sessions[best].createdAt;
    }
  }
}
