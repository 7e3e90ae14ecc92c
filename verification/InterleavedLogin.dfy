// Logins against a suspension, with every database call and every reading of the clock as a step of its own: a
// login past its checks inserts its session whatever has happened to the user row since, and the guard never
// reads the status.
module InterleavedLogin {
  import opened Wrappers
  import opened SessionPolicy
  import opened Model
  import opened AuthCalls
  import opened Interleaved
  import opened InterleavedLapse

  /** The login has passed its checks on the row of this user and has not inserted its session yet. */
  predicate LogsIn(p: Process, u: nat) {
    (p.LoggingIn? || p.Opening? || p.PricedLogin?) && p.userId == u
  }

  /** As a suspension leaves the user: not active, and no session unrevoked. */
  predicate ShutOut(s: State, u: nat) {
    && u < s.nextId
    && (u in s.users ==> s.users[u].status == Disabled)
    && (forall id | id in s.sessions && s.sessions[id].userId == u :: s.sessions[id].revokedAt.Some?)
  }

  ghost predicate HasUnrevoked(s: State, u: nat) {
    exists id :: id in s.sessions && s.sessions[id].userId == u && s.sessions[id].revokedAt.None?
  }

  /** A login is in flight that can still insert a session. */
  ghost predicate CanReturn(w: World, u: nat) {
    u in w.db.users && exists pid :: pid in w.processes && LogsIn(w.processes[pid], u)
  }

  predicate Reactivates(a: Action, u: nat) {
    a.EditUser? && a.userId == u && a.user.status == Model.Active
  }

  predicate LeavesInactive(plan: seq<Action>, u: nat) {
    forall k | 0 <= k < |plan| :: !Reactivates(plan[k], u)
  }

  lemma SuspensionShutsOut(w: World, u: nat, at: nat)
    requires Sound(w) && u in w.db.users
    ensures ShutOut(Do(w, SuspendWrite(u, at)).db, u)
  {
    hide IsNewestFirst, FindSession, Live, ProcessOk, OwnerOk, TokenOk;
  }

  // ----- one step -----

  lemma StaysShutOut(w: World, a: Action, u: nat)
    requires Sound(w) && ShutOut(w.db, u) && !CanReturn(w, u) && !Reactivates(a, u)
    ensures ShutOut(Do(w, a).db, u)
  {
    hide IsNewestFirst, FindSession, Live, ProcessOk, OwnerOk, TokenOk, Matches, StepFind, StepPin, StepClock,
      StepInactivity, StepPolicy, TokenOf;
    if a.InsertSession? && a.pid in w.processes {
      assert LogsIn(w.processes[a.pid], u) ==> u !in w.db.users;
    }
  }

  lemma StaysAway(w: World, a: Action, u: nat, pid: nat)
    requires Sound(w) && ShutOut(w.db, u) && pid in Do(w, a).processes && LogsIn(Do(w, a).processes[pid], u)
    ensures pid in w.processes && LogsIn(w.processes[pid], u)
  {
    hide IsNewestFirst, FindSession, Live, ProcessOk, OwnerOk, TokenOk, Matches, InactivityTtlNow, AccessTtl, TokenOf,
      RevokeAll;
  }

  lemma StaysUnable(w: World, a: Action, u: nat)
    requires Sound(w) && ShutOut(w.db, u) && !CanReturn(w, u) && !Reactivates(a, u)
    ensures ShutOut(Do(w, a).db, u) && !CanReturn(Do(w, a), u)
  {
    hide Do, Sound, ShutOut, LogsIn;
    StaysShutOut(w, a, u);
    if CanReturn(Do(w, a), u) {
      var pid :| pid in Do(w, a).processes && LogsIn(Do(w, a).processes[pid], u);
      StaysAway(w, a, u, pid);
      NoNewUser(w, a, u);
    }
  }

  lemma NoNewUser(w: World, a: Action, u: nat)
    requires Sound(w) && ShutOut(w.db, u) && u in Do(w, a).db.users
    ensures u in w.db.users
  {
    hide Do;
    DoKeepsUser(w, a, u);
  }

  // ----- exactly when -----

  lemma {:induction false} PlanStaysUnable(w: World, u: nat, plan: seq<Action>)
    requires Sound(w) && ShutOut(w.db, u) && !CanReturn(w, u) && LeavesInactive(plan, u)
    ensures !HasUnrevoked(Perform(w, plan).db, u)
    decreases |plan|
  {
    hide Do, Sound, CanReturn, Reactivates;
    if plan != [] {
      assert !Reactivates(plan[0], u);
      StaysUnable(w, plan[0], u);
      DoKeepsSound(w, plan[0]);
      PlanStaysUnable(Do(w, plan[0]), u, plan[1..]);
    }
  }

  lemma LoginEnds(w: World, u: nat, pid: nat)
    requires Sound(w) && u in w.db.users && pid in w.processes && LogsIn(w.processes[pid], u)
    ensures HasUnrevoked(Do(Do(Do(w, ReadClock(pid)), ReadPolicy(pid)), InsertSession(pid)).db, u)
  {
    hide Do;
    ClockStep(w, u, pid);
    var w1 := Do(w, ReadClock(pid));
    PolicyStep(w1, u, pid);
    InsertStep(Do(w1, ReadPolicy(pid)), u, pid);
  }

  lemma ClockStep(w: World, u: nat, pid: nat)
    requires pid in w.processes && LogsIn(w.processes[pid], u)
    ensures var t := Do(w, ReadClock(pid));
      t.db == w.db && pid in t.processes && LogsIn(t.processes[pid], u) && !t.processes[pid].LoggingIn?
  {
  }

  lemma PolicyStep(w: World, u: nat, pid: nat)
    requires pid in w.processes && LogsIn(w.processes[pid], u) && !w.processes[pid].LoggingIn?
    ensures var t := Do(w, ReadPolicy(pid));
      t.db == w.db && pid in t.processes && LogsIn(t.processes[pid], u) && t.processes[pid].PricedLogin?
  {
    hide InactivityTtlNow, AccessTtl;
  }

  lemma InsertStep(w: World, u: nat, pid: nat)
    requires pid in w.processes && LogsIn(w.processes[pid], u) && w.processes[pid].PricedLogin? && u in w.db.users
    ensures HasUnrevoked(Do(w, InsertSession(pid)).db, u)
  {
    var t := Do(w, InsertSession(pid)).db;
    assert w.db.nextId in t.sessions && t.sessions[w.db.nextId].userId == u;
  }

  /**
   * From a reachable world in which a user is shut out, steps that do not reactivate the user can lead to an
   * unrevoked session of theirs if and only if the user still exists and a login of theirs is in flight.
   */
  lemma {:induction false} ReturnsExactlyWhen(run: Schedule, i: nat, u: nat)
    requires ShutOut(WorldAt(run, i).db, u)
    ensures CanReturn(WorldAt(run, i), u) <==>
      exists plan :: LeavesInactive(plan, u) && HasUnrevoked(Perform(WorldAt(run, i), plan).db, u)
  {
    hide Do, Sound, ShutOut, HasUnrevoked, LogsIn;
    var w := WorldAt(run, i);
    SoundAlong(run, i);
    if CanReturn(w, u) {
      var pid :| pid in w.processes && LogsIn(w.processes[pid], u);
      var plan := [ReadClock(pid), ReadPolicy(pid), InsertSession(pid)];
      LoginEnds(w, u, pid);
      assert Perform(w, plan) == Do(Do(Do(w, ReadClock(pid)), ReadPolicy(pid)), InsertSession(pid)) by {
        PerformNext(w, ReadClock(pid), [ReadPolicy(pid), InsertSession(pid)]);
        PerformNext(Do(w, ReadClock(pid)), ReadPolicy(pid), [InsertSession(pid)]);
        PerformOne(Do(Do(w, ReadClock(pid)), ReadPolicy(pid)), InsertSession(pid));
        assert plan == [ReadClock(pid)] + [ReadPolicy(pid), InsertSession(pid)];
        assert plan[1..] == [ReadPolicy(pid)] + [InsertSession(pid)];
      }
      assert LeavesInactive(plan, u);
    } else {
      forall plan | LeavesInactive(plan, u)
        ensures !HasUnrevoked(Perform(w, plan).db, u)
      {
        PlanStaysUnable(w, u, plan);
      }
    }
  }

  lemma {:induction false} UnableAlong(run: Schedule, u: nat, i: nat, n: nat)
    requires i <= n && ShutOut(WorldAt(run, i).db, u) && !CanReturn(WorldAt(run, i), u)
    requires forall k: nat | i <= k < n :: !Reactivates(run.actions(k), u)
    ensures ShutOut(WorldAt(run, n).db, u) && !CanReturn(WorldAt(run, n), u)
    decreases n
  {
    hide Do, Sound, ShutOut, CanReturn, Reactivates;
    if i < n {
      UnableAlong(run, u, i, n - 1);
      SoundAlong(run, n - 1);
      StaysUnable(WorldAt(run, n - 1), run.actions(n - 1), u);
    }
  }

  /** A suspension with no login of the user in flight holds until reactivation: no guard lookup ever succeeds. */
  lemma {:induction false} SuspensionHolds(run: Schedule, u: nat, at: nat, i: nat, n: nat, token: AccessToken, now: nat)
    requires i < n && run.actions(i) == SuspendWrite(u, at) && u in WorldAt(run, i).db.users
    requires forall pid | pid in WorldAt(run, i).processes :: !LogsIn(WorldAt(run, i).processes[pid], u)
    requires forall k: nat | i < k < n :: !Reactivates(run.actions(k), u)
    ensures token.sub == u ==> !LookupFinds(WorldAt(run, n).db, token, now)
  {
    hide Do, Sound, Reactivates, LogsIn;
    SoundAlong(run, i);
    SuspensionShutsOut(WorldAt(run, i), u, at);
    SuspensionMovesNothing(WorldAt(run, i), u, at);
    UnableAlong(run, u, i + 1, n);
  }

  lemma SuspensionMovesNothing(w: World, u: nat, at: nat)
    ensures Do(w, SuspendWrite(u, at)).processes == w.processes
  {
  }

  // ----- a login that outlives a suspension -----

  /** Grace's login is past its checks when she is suspended; it goes on, and its token is used. */
  function Outlives(k: nat): Action {
    match k
    case 0 => InsertUser(Grace())
    case 1 => FindUser(0, 0, "password")
    case 2 => SuspendWrite(0, 0)
    case 3 => ReadClock(0)
    case 4 => ReadPolicy(0)
    case 5 => InsertSession(0)
    case 6 => SignToken(0)
    case 7 => Verify(1, HerToken())
    case 8 => LookUp(1)
    case 9 => ReadPolicy(1)
    case _ => Decide(1)
  }

  function HerToken(): AccessToken {
    AccessToken(0, Grace().email, 1, RoleUser, 0, Default(AccessTokenTtl))
  }

  function SuspendedGrace(): State {
    Init(map[], 0).(users := map[0 := Grace().(status := Disabled)], nextId := 1)
  }

  function WithSession(): State {
    SuspendedGrace().(sessions := map[1 := Session(0, 2, 0, 0, Default(InactivityTtl) * 1000, None)], nextId := 3)
  }

  lemma SuspendedMeanwhile()
    ensures Do(Do(Registered(), FindUser(0, 0, "password")), SuspendWrite(0, 0))
         == World(SuspendedGrace(), map[0 := LoggingIn(0, Grace())])
  {
    hide Seconds;
    LoginFinds();
    assert RevokeAll(map[], 0, 0) == map[];
  }

  lemma GoesOn()
    ensures Do(Do(Do(Do(World(SuspendedGrace(), map[0 := LoggingIn(0, Grace())]), ReadClock(0)), ReadPolicy(0)),
                  InsertSession(0)), SignToken(0))
         == Inserted()
  {
    hide Seconds, IsNewestFirst, FindSession, RevokeAll;
    DefaultPolicy(SuspendedGrace());
    var w := World(SuspendedGrace(), map[0 := LoggingIn(0, Grace())]);
    assert Do(w, ReadClock(0)) == Go(w, 0, Opening(0, Grace(), 0));
    var w2 := Go(w, 0, PricedLogin(0, Grace(), 0, Default(InactivityTtl), Default(AccessTokenTtl)));
    assert Do(Do(w, ReadClock(0)), ReadPolicy(0)) == w2;
    assert Do(w2, InsertSession(0))
        == World(WithSession(), map[0 := Signing(1, 0, Grace(), Default(AccessTokenTtl))]);
  }

  function Inserted(): World {
    World(WithSession().(issued := {HerToken()}), map[0 := Ended])
  }

  lemma IsFound()
    ensures Do(Do(Inserted(), Verify(1, HerToken())), LookUp(1)) == Go(Inserted(), 1, LookedUp(HerToken(), 0))
  {
    hide Seconds, IsNewestFirst, FindSession, RevokeAll;
    assert Do(Inserted(), Verify(1, HerToken())) == Go(Inserted(), 1, Verified(HerToken(), 0));
  }

  lemma IsJudged()
    ensures Do(Do(Go(Inserted(), 1, LookedUp(HerToken(), 0)), ReadPolicy(1)), Decide(1))
         == Go(Inserted(), 1, Passed(HerToken()))
  {
    hide Seconds, IsNewestFirst, FindSession, RevokeAll;
    DefaultPolicy(Inserted().db);
    assert Do(Go(Inserted(), 1, LookedUp(HerToken(), 0)), ReadPolicy(1))
        == Go(Inserted(), 1, Judging(HerToken(), 0, Default(InactivityTtl)));
  }

  lemma {:induction false} OutlivesWorlds()
    ensures var run := Schedule(map[], 0, Outlives);
      && WorldAt(run, 3) == World(SuspendedGrace(), map[0 := LoggingIn(0, Grace())])
      && WorldAt(run, 11) == Go(Inserted(), 1, Passed(HerToken()))
  {
    hide Do, Registered, SuspendedGrace, WithSession, Inserted, HerToken, Grace, Go, Seconds;
    var run := Schedule(map[], 0, Outlives);
    LoginFinds();
    SuspendedMeanwhile();
    GoesOn();
    IsFound();
    IsJudged();
    assert WorldAt(run, 1) == Do(WorldAt(run, 0), Outlives(0));
    assert WorldAt(run, 2) == Do(WorldAt(run, 1), Outlives(1));
    assert WorldAt(run, 3) == Do(WorldAt(run, 2), Outlives(2));
    assert WorldAt(run, 4) == Do(WorldAt(run, 3), Outlives(3));
    assert WorldAt(run, 5) == Do(WorldAt(run, 4), Outlives(4));
    assert WorldAt(run, 6) == Do(WorldAt(run, 5), Outlives(5));
    assert WorldAt(run, 7) == Do(WorldAt(run, 6), Outlives(6));
    assert WorldAt(run, 8) == Do(WorldAt(run, 7), Outlives(7));
    assert WorldAt(run, 9) == Do(WorldAt(run, 8), Outlives(8));
    assert WorldAt(run, 10) == Do(WorldAt(run, 9), Outlives(9));
    assert WorldAt(run, 11) == Do(WorldAt(run, 10), Outlives(10));
  }

  /** From the empty tables: a suspended user's request is let through, by a session inserted after the suspension. */
  lemma {:induction false} LoginOutlivesSuspension()
    ensures var run := Schedule(map[], 0, Outlives);
      && ShutOut(WorldAt(run, 3).db, 0) && run.actions(2) == SuspendWrite(0, 0)
      && (forall k: nat :: !Reactivates(run.actions(k), 0))
      && var w := WorldAt(run, 11);
         && 0 in w.db.users && w.db.users[0].status == Disabled
         && 1 in w.processes && w.processes[1] == Passed(HerToken()) && HerToken().sub == 0
  {
    hide Do, WorldAt, Seconds;
    OutlivesWorlds();
  }
}
