// When a session that has lapsed can still come back, with every database call and every reading of the clock
// as a step of its own: exactly which readings held by the requests in flight make it possible.
module InterleavedLapse {
  import opened Wrappers
  import opened Text
  import opened SessionPolicy
  import opened Model
  import opened AuthCalls
  import opened Interleaved

  const MAX_MS := MAX_INACTIVITY_TTL_SEC * 1000

  /** The two columns that decide whether a session has lapsed. */
  datatype Times = Times(lastUsedAt: nat, expiresAt: int)

  function TimesOf(s: State, id: nat): Times
    requires id in s.sessions
  {
    Times(s.sessions[id].lastUsedAt, s.sessions[id].expiresAt)
  }

  predicate OwnersPin(s: State, id: nat, pin: string)
    requires id in s.sessions
  {
    s.sessions[id].userId in s.users && Matches(pin, s.users[s.sessions[id].userId].pinHash)
  }

  /** A touch at `now` under the most generous policy, unless the row it goes by is idle for too long even then. */
  function Touch(lastUsedAt: nat, now: nat): Option<Times> {
    if now - lastUsedAt <= MAX_MS then Some(Times(now, now + MAX_MS)) else None
  }

  /**
   * What a request in flight can at best write to the session: a request that has not asked yet goes by the
   * times `t` the row has when it asks, any other by what it has read.
   */
  function Writes(s: State, p: Process, id: nat, t: Times): Option<Times>
    requires id in s.sessions
  {
    match p
    case Asking(kind, refreshToken, pin, now) =>
      if refreshToken == s.sessions[id].refreshHash && OwnersPin(s, id, pin) && t.expiresAt > now then
        Touch(t.lastUsedAt, if kind.ByUnlock? then s.clock else now)
      else None
    case Found(kind, pin, i, row, user, now) =>
      if i == id && OwnersPin(s, id, pin) && ActiveVerified(user) then
        Touch(row.lastUsedAt, if kind.ByUnlock? then s.clock else now)
      else None
    case Unlocking(i, row, _) => if i == id then Touch(row.lastUsedAt, s.clock) else None
    case Timed(i, row, _, now) => if i == id then Touch(row.lastUsedAt, now) else None
    case Admitted(i, _, _, now) => if i == id then Some(Times(now, now + MAX_MS)) else None
    case Priced(i, _, _, now, ttlSec, _) => if i == id then Some(Times(now, now + ttlSec * 1000)) else None
    case _ => None
  }

  function WritesOf(w: World, pid: nat, id: nat, t: Times): Option<Times>
    requires id in w.db.sessions
  {
    if pid in w.processes then Writes(w.db, w.processes[pid], id, t) else None
  }

  /**
   * Starting from a row with times `t`, these requests can write one after the other, each going by what the
   * one before it wrote, and the expiry written last still lies ahead.
   */
  predicate Revives(w: World, id: nat, t: Times, pids: seq<nat>)
    requires id in w.db.sessions
    decreases |pids|
  {
    if pids == [] then t.expiresAt > w.db.clock
    else
      var x := WritesOf(w, pids[0], id, t);
      x.Some? && Revives(w, id, x.value, pids[1..])
  }

  ghost predicate Distinct(pids: seq<nat>) {
    forall i, j | 0 <= i < j < |pids| :: pids[i] != pids[j]
  }

  /** Unrevoked, and live or with requests in flight that can make it so. */
  ghost predicate CanBeLive(w: World, id: nat) {
    && id in w.db.sessions && w.db.sessions[id].revokedAt.None?
    && exists pids :: Distinct(pids) && Revives(w, id, TimesOf(w.db, id), pids)
  }

  // ----- no step makes more possible -----

  predicate NoLater(t: Times, u: Times) {
    t.lastUsedAt <= u.lastUsedAt && t.expiresAt <= u.expiresAt
  }

  lemma LaterWrites(w: World, id: nat, t: Times, u: Times, pid: nat)
    requires id in w.db.sessions && NoLater(t, u) && WritesOf(w, pid, id, t).Some?
    ensures WritesOf(w, pid, id, u) == WritesOf(w, pid, id, t)
  {
  }

  /** A row touched later, or living longer, opens at least as much. */
  lemma {:induction false} LaterRevives(w: World, id: nat, t: Times, u: Times, pids: seq<nat>)
    requires id in w.db.sessions && NoLater(t, u) && Revives(w, id, t, pids)
    ensures Revives(w, id, u, pids)
  {
    hide WritesOf;
    if pids != [] {
      LaterWrites(w, id, t, u, pids[0]);
    }
  }

  /** The rest of a chain is a chain from the times it starts with. */
  lemma {:induction false} ChainFrom(w: World, id: nat, t: Times, pids: seq<nat>, j: nat) returns (u: Times)
    requires id in w.db.sessions && Revives(w, id, t, pids) && j <= |pids|
    ensures Revives(w, id, u, pids[j..])
    decreases |pids|
  {
    hide WritesOf;
    u := t;
    if j > 0 {
      u := ChainFrom(w, id, WritesOf(w, pids[0], id, t).value, pids[1..], j - 1);
      assert pids[1..][j - 1..] == pids[j..];
    }
  }

  /** What the request can write after the step it could write before, or it needs a row that is live anyway. */
  ghost predicate Covered(w: World, w1: World, id: nat, pid: nat)
    requires id in w.db.sessions && id in w1.db.sessions
  {
    forall t :: WritesOf(w1, pid, id, t).Some? ==>
      || t.expiresAt > w.db.clock
      || (WritesOf(w, pid, id, t).Some?
          && (WritesOf(w, pid, id, t).value.expiresAt > w.db.clock
              || NoLater(WritesOf(w1, pid, id, t).value, WritesOf(w, pid, id, t).value)))
  }

  /** Then a chain after the step contains, as a prefix, a chain before it. */
  lemma {:induction false} ChainBefore(w: World, w1: World, id: nat, t: Times, pids: seq<nat>) returns (k: nat)
    requires id in w.db.sessions && id in w1.db.sessions && w.db.clock <= w1.db.clock
    requires forall i | 0 <= i < |pids| :: Covered(w, w1, id, pids[i])
    requires Revives(w1, id, t, pids)
    ensures k <= |pids| && Revives(w, id, t, pids[..k])
    decreases |pids|
  {
    hide WritesOf;
    k := 0;
    if pids != [] && t.expiresAt <= w.db.clock {
      var x, y := WritesOf(w1, pids[0], id, t), WritesOf(w, pids[0], id, t);
      assert Covered(w, w1, id, pids[0]) && x.Some?;
      if y.value.expiresAt > w.db.clock {
        k := 1;
        assert pids[..1][1..] == [];
      } else {
        forall i | 0 <= i < |pids[1..]|
          ensures Covered(w, w1, id, pids[1..][i])
        {
          assert Covered(w, w1, id, pids[i + 1]);
        }
        var k1 := ChainBefore(w, w1, id, x.value, pids[1..]);
        LaterRevives(w, id, x.value, y.value, pids[1..][..k1]);
        k := k1 + 1;
        assert pids[..k][1..] == pids[1..][..k1];
      }
    }
  }

  /** What a chain goes by apart from the processes. */
  ghost predicate SameGround(s: State, t: State, id: nat)
    requires id in s.sessions && id in t.sessions
  {
    && t.sessions[id].refreshHash == s.sessions[id].refreshHash
    && (forall pin :: OwnersPin(t, id, pin) ==> OwnersPin(s, id, pin))
  }

  lemma GroundKept(w: World, a: Action, id: nat)
    requires Sound(w) && id < w.db.nextId && id in Do(w, a).db.sessions
    ensures id in w.db.sessions && SameGround(w.db, Do(w, a).db, id)
  {
    hide Do;
    DoKeepsSession(w, a, id);
    assert OwnerOk(w.db, id);
    DoKeepsUser(w, a, w.db.sessions[id].userId);
  }

  lemma UnmovedCovered(w: World, w1: World, id: nat, pid: nat)
    requires id in w.db.sessions && id in w1.db.sessions && SameGround(w.db, w1.db, id) && w.db.clock <= w1.db.clock
    requires pid in w.processes && pid in w1.processes && w1.processes[pid] == w.processes[pid]
    ensures Covered(w, w1, id, pid)
  {
    hide Matches, ActiveVerified;
  }

  predicate Moved(w: World, w1: World, pid: nat) {
    pid in w.processes && (pid !in w1.processes || w1.processes[pid] != w.processes[pid])
  }

  predicate Queries(w: World, a: Action, pid: nat) {
    a.FindSessions? && a.pid == pid && pid in w.processes && w.processes[pid].Asking?
  }

  /** Which step of its own a process moves by; after any other it has nothing left to write by. */
  lemma OwnStep(w: World, a: Action, pid: nat)
    requires Moved(w, Do(w, a), pid)
    ensures pid in Do(w, a).processes
    ensures var p, p1 := w.processes[pid], Do(w, a).processes[pid];
      match p
      case Asking(_, _, _, _) =>
        Queries(w, a, pid) && Do(w, a).db == w.db && p1 == StepFind(w, pid, p, a.order).processes[pid]
      case Found(_, _, _, _, _, _) => Do(w, a).db == w.db && p1 == StepPin(w, pid, p).processes[pid]
      case Unlocking(_, _, _) => Do(w, a).db == w.db && p1 == StepClock(w, pid, p).processes[pid]
      case Timed(_, _, _, _) => Do(w, a).db == w.db && p1 == StepInactivity(w, pid, p).processes[pid]
      case Admitted(_, _, _, _) => Do(w, a).db == w.db && p1 == StepPolicy(w, pid, p).processes[pid]
      case _ => Harmless(p1)
  {
    hide Do, Harmless, StepFind, StepPin, StepClock, StepInactivity, StepPolicy;
    ProcessStays(w, a, pid);
    match w.processes[pid] {
      case Asking(_, _, _, _) => ReadingStepOf(w, a, pid);
      case Found(_, _, _, _, _, _) => ReadingStepOf(w, a, pid);
      case Unlocking(_, _, _) => ReadingStepOf(w, a, pid);
      case Timed(_, _, _, _) => ReadingStepOf(w, a, pid);
      case Admitted(_, _, _, _) => ReadingStepOf(w, a, pid);
      case _ => OtherStepOf(w, a, pid);
    }
  }

  lemma ProcessStays(w: World, a: Action, pid: nat)
    requires pid in w.processes
    ensures pid in Do(w, a).processes
  {
    hide IsNewestFirst, FindSession, RevokeAll, TokenOf, Live, InactivityTtlNow, AccessTtl, Matches;
  }

  lemma ReadingStepOf(w: World, a: Action, pid: nat)
    requires Moved(w, Do(w, a), pid) && pid in Do(w, a).processes && Stage(w.processes[pid]) <= 4
    ensures Do(w, a).db == w.db
    ensures var p, p1 := w.processes[pid], Do(w, a).processes[pid];
      match p
      case Asking(_, _, _, _) => Queries(w, a, pid) && p1 == StepFind(w, pid, p, a.order).processes[pid]
      case Found(_, _, _, _, _, _) => p1 == StepPin(w, pid, p).processes[pid]
      case Unlocking(_, _, _) => p1 == StepClock(w, pid, p).processes[pid]
      case Timed(_, _, _, _) => p1 == StepInactivity(w, pid, p).processes[pid]
      case Admitted(_, _, _, _) => p1 == StepPolicy(w, pid, p).processes[pid]
      case _ => true
  {
    hide IsNewestFirst, FindSession, RevokeAll, TokenOf, Live, InactivityTtlNow, AccessTtl, Matches;
  }

  lemma OtherStepOf(w: World, a: Action, pid: nat)
    requires Moved(w, Do(w, a), pid) && pid in Do(w, a).processes && Stage(w.processes[pid]) > 4
    ensures Harmless(Do(w, a).processes[pid])
  {
    hide IsNewestFirst, FindSession, RevokeAll, TokenOf, Live, InactivityTtlNow, AccessTtl, Matches;
  }

  /** A process that writes no existing session, now or later. */
  predicate Harmless(p: Process) {
    p.LoggingIn? || p.Opening? || p.PricedLogin? || p.Signing? || p.Verified? || p.LookedUp? || p.Judging? || p.Passed?
    || p.Ended?
  }

  /** The process moved on by a step of its own, other than its query. */
  lemma MovedCovered(w: World, a: Action, id: nat, pid: nat)
    requires Sound(w) && id in w.db.sessions && id in Do(w, a).db.sessions
    requires Moved(w, Do(w, a), pid) && !w.processes[pid].Asking?
    ensures Covered(w, Do(w, a), id, pid)
  {
    hide Do, RevokeAll, TokenOf, Live, AccessTtl, IdsDrawn, OwnerOk, TokenOk, Matches, ActiveVerified;
    OwnStep(w, a, pid);
    assert ProcessOk(w.db, w.processes[pid]);
  }

  lemma Begins(w: World, a: Action, pid: nat)
    requires pid !in w.processes && pid in Do(w, a).processes
    ensures var p1 := Do(w, a).processes[pid]; Harmless(p1) || (p1.Asking? && p1.now == w.db.clock)
  {
    hide IsNewestFirst, FindSession, RevokeAll, TokenOf, Live, InactivityTtlNow, AccessTtl, Matches;
  }

  /** A process that has just begun asks by the clock as it is: what it finds is live anyway. */
  lemma BegunCovered(w: World, a: Action, id: nat, pid: nat)
    requires id in w.db.sessions && id in Do(w, a).db.sessions && pid !in w.processes
    ensures Covered(w, Do(w, a), id, pid)
  {
    hide Do, Matches;
    if pid in Do(w, a).processes {
      Begins(w, a, pid);
    }
  }

  /** The query of a process in a chain read the row as it is, so before the query it could go by that row. */
  lemma QueryBefore(w: World, a: Action, id: nat, pid: nat, t: Times)
    requires id in w.db.sessions && id in Do(w, a).db.sessions
    requires Moved(w, Do(w, a), pid) && w.processes[pid].Asking? && WritesOf(Do(w, a), pid, id, t).Some?
    ensures WritesOf(w, pid, id, TimesOf(w.db, id)) == WritesOf(Do(w, a), pid, id, t)
  {
    hide Do, RevokeAll, TokenOf, Matches;
    OwnStep(w, a, pid);
    var s, now := w.db, w.processes[pid].now;
    assert Page(a.order) == a.order || Page(a.order) == a.order[..SCAN_LIMIT];
    assert forall k | k in Page(a.order) :: k in a.order;
    assert IsNewestFirst(AsOf(s, now), a.order) ==> forall k | k in a.order :: Live(AsOf(s, now), k);
  }

  lemma OtherwiseCovered(w: World, a: Action, id: nat, pid: nat)
    requires Sound(w) && id < w.db.nextId && id in Do(w, a).db.sessions
    requires !(Queries(w, a, pid) && Moved(w, Do(w, a), pid))
    ensures id in w.db.sessions && Covered(w, Do(w, a), id, pid)
  {
    hide Do, Covered, Sound, SameGround, Queries;
    GroundKept(w, a, id);
    ClockMovesOn(w, a);
    if pid !in w.processes {
      BegunCovered(w, a, id, pid);
    } else if !Moved(w, Do(w, a), pid) {
      UnmovedCovered(w, Do(w, a), id, pid);
    } else {
      OwnStep(w, a, pid);
      MovedCovered(w, a, id, pid);
    }
  }

  lemma ClockMovesOn(w: World, a: Action)
    requires Sound(w)
    ensures w.db.clock <= Do(w, a).db.clock
  {
    hide Do;
    DoKeepsSession(w, a, 0);
  }

  /** A step that is no query of the chain leaves the chain, or a prefix, as it was. */
  lemma OtherBefore(w: World, a: Action, id: nat, t: Times, pids: seq<nat>) returns (k: nat)
    requires Sound(w) && id < w.db.nextId && id in Do(w, a).db.sessions
    requires forall i | 0 <= i < |pids| :: !(Queries(w, a, pids[i]) && Moved(w, Do(w, a), pids[i]))
    requires Revives(Do(w, a), id, t, pids)
    ensures id in w.db.sessions && k <= |pids| && Revives(w, id, t, pids[..k])
  {
    hide Do, Covered, Sound, Queries, Moved, SameGround;
    ClockMovesOn(w, a);
    GroundKept(w, a, id);
    forall i | 0 <= i < |pids|
      ensures Covered(w, Do(w, a), id, pids[i])
    {
      OtherwiseCovered(w, a, id, pids[i]);
    }
    k := ChainBefore(w, Do(w, a), id, t, pids);
  }

  /** A query of the chain: what follows it is a chain from the row as it is. */
  lemma QueryChain(w: World, a: Action, id: nat, t: Times, pids: seq<nat>, j: nat) returns (chain: seq<nat>)
    requires Sound(w) && id < w.db.nextId && id in Do(w, a).db.sessions && Distinct(pids)
    requires Revives(Do(w, a), id, t, pids) && j < |pids| && Queries(w, a, pids[j])
    requires Moved(w, Do(w, a), pids[j])
    ensures id in w.db.sessions && Distinct(chain) && Revives(w, id, TimesOf(w.db, id), chain)
  {
    hide Do, Sound, WritesOf, SameGround;
    GroundKept(w, a, id);
    var pid, w1 := pids[j], Do(w, a);
    var u := ChainFrom(w1, id, t, pids, j);
    assert pids[j..][0] == pid && pids[j..][1..] == pids[j + 1..];
    QueryBefore(w, a, id, pid, u);
    var x := WritesOf(w1, pid, id, u).value;
    var k := OtherBefore(w, a, id, x, pids[j + 1..]);
    chain := [pid] + pids[j + 1..][..k];
    assert chain[1..] == pids[j + 1..][..k];
  }

  lemma WriterLeaves(w: World, a: Action, id: nat, t: Times)
    requires a.WriteSession? && a.pid in w.processes && w.processes[a.pid].Priced? && id in Do(w, a).db.sessions
    ensures WritesOf(Do(w, a), a.pid, id, t).None?
  {
    hide IsNewestFirst, FindSession, RevokeAll, TokenOf, Live, InactivityTtlNow, AccessTtl, Matches;
  }

  /** The write of a process over the session: put it in front of the chain. */
  lemma WriteChain(w: World, a: Action, id: nat, pids: seq<nat>) returns (chain: seq<nat>)
    requires Sound(w) && id < w.db.nextId && id in Do(w, a).db.sessions && Distinct(pids)
    requires WritesThis(w, a, id)
    requires Revives(Do(w, a), id, TimesOf(Do(w, a).db, id), pids)
    ensures id in w.db.sessions && Distinct(chain) && Revives(w, id, TimesOf(w.db, id), chain)
  {
    hide Do, Sound, WritesOf, SameGround;
    GroundKept(w, a, id);
    if j :| 0 <= j < |pids| && pids[j] == a.pid {
      var u := ChainFrom(Do(w, a), id, TimesOf(Do(w, a).db, id), pids, j);
      WriterLeaves(w, a, id, u);
      assert false;
    }
    var k := OtherBefore(w, a, id, TimesOf(Do(w, a).db, id), pids);
    chain := [a.pid] + pids[..k];
    assert chain[1..] == pids[..k];
    WrittenTimes(w, a, id);
  }

  lemma WrittenTimes(w: World, a: Action, id: nat)
    requires WritesThis(w, a, id)
    requires id in w.db.sessions
    ensures id in Do(w, a).db.sessions
    ensures WritesOf(w, a.pid, id, TimesOf(w.db, id)) == Some(TimesOf(Do(w, a).db, id))
  {
  }

  predicate WritesThis(w: World, a: Action, id: nat) {
    a.WriteSession? && a.pid in w.processes && w.processes[a.pid].Priced? && w.processes[a.pid].id == id
  }

  lemma OtherTimes(w: World, a: Action, id: nat)
    requires Sound(w) && id in w.db.sessions && id in Do(w, a).db.sessions && !WritesThis(w, a, id)
    ensures TimesOf(Do(w, a).db, id) == TimesOf(w.db, id)
  {
    hide Do, WritesSessions;
    if WritesSessions(a) {
      OtherWriterTimes(w, a, id);
    } else {
      OthersLeaveSessions(w, a);
    }
  }

  lemma OtherWriterTimes(w: World, a: Action, id: nat)
    requires IdsDrawn(w.db) && id in w.db.sessions && id in Do(w, a).db.sessions
    requires WritesSessions(a) && !WritesThis(w, a, id)
    ensures TimesOf(Do(w, a).db, id) == TimesOf(w.db, id)
  {
    hide IsNewestFirst, FindSession, TokenOf, Live, InactivityTtlNow, AccessTtl, Matches, StepFind, StepPin, StepClock,
      StepInactivity, StepPolicy;
  }

  lemma UnrevokedBefore(w: World, a: Action, id: nat)
    requires Sound(w) && id < w.db.nextId && id in Do(w, a).db.sessions && Do(w, a).db.sessions[id].revokedAt.None?
    ensures id in w.db.sessions && w.db.sessions[id].revokedAt.None?
  {
    hide Do;
    DoKeepsSession(w, a, id);
  }

  /** No step makes a session that cannot be live any more into one that can. */
  lemma CanBeLiveBefore(w: World, a: Action, id: nat)
    requires Sound(w) && id < w.db.nextId && CanBeLive(Do(w, a), id)
    ensures CanBeLive(w, id)
  {
    hide Do, Sound, Revives, Distinct;
    var w1 := Do(w, a);
    UnrevokedBefore(w, a, id);
    var pids :| Distinct(pids) && Revives(w1, id, TimesOf(w1.db, id), pids);
    if WritesThis(w, a, id) {
      var chain := WriteChain(w, a, id, pids);
    } else {
      OtherTimes(w, a, id);
      if j :| 0 <= j < |pids| && Queries(w, a, pids[j]) && Moved(w, w1, pids[j]) {
        var chain := QueryChain(w, a, id, TimesOf(w1.db, id), pids, j);
      } else {
        var k := OtherBefore(w, a, id, TimesOf(w.db, id), pids);
        PrefixDistinct(pids, k);
      }
    }
  }

  lemma PrefixDistinct(pids: seq<nat>, k: nat)
    requires Distinct(pids) && k <= |pids|
    ensures Distinct(pids[..k])
  {
  }

  // ----- and every chain can be run -----

  /** The world after some more steps. */
  ghost function Perform(w: World, plan: seq<Action>): World
    decreases |plan|
  {
    if plan == [] then w else Perform(Do(w, plan[0]), plan[1..])
  }

  lemma {:induction false} PerformBoth(w: World, first: seq<Action>, second: seq<Action>)
    ensures Perform(w, first + second) == Perform(Perform(w, first), second)
    decreases |first|
  {
    hide Do;
    if first == [] {
      assert first + second == second;
    } else {
      assert (first + second)[0] == first[0] && (first + second)[1..] == first[1..] + second;
      PerformBoth(Do(w, first[0]), first[1..], second);
    }
  }

  lemma PerformOne(w: World, a: Action)
    ensures Perform(w, [a]) == Do(w, a)
  {
    hide Do;
    assert Perform(Do(w, a), [a][1..]) == Do(w, a);
  }

  lemma PerformNext(w: World, a: Action, plan: seq<Action>)
    ensures Perform(w, [a] + plan) == Perform(Do(w, a), plan)
  {
    hide Do;
    assert ([a] + plan)[1..] == plan;
  }

  /** The most generous policy is in force, the owner is active, and no other session is unrevoked. */
  ghost predicate Calm(w: World, id: nat) {
    && Sound(w)
    && id in w.db.sessions && w.db.sessions[id].revokedAt.None?
    && InactivityTtlNow(w.db) == MAX_INACTIVITY_TTL_SEC
    && w.db.sessions[id].userId in w.db.users && ActiveVerified(w.db.users[w.db.sessions[id].userId])
    && forall other | other in w.db.sessions && other != id :: w.db.sessions[other].revokedAt.Some?
  }

  /** In a calm world each step of the request leaves what it can write as it was. */
  lemma AskingStep(w: World, id: nat, pid: nat)
    requires Calm(w, id) && pid in w.processes && w.processes[pid].Asking?
    requires WritesOf(w, pid, id, TimesOf(w.db, id)).Some?
    ensures var t := Do(w, FindSessions(pid, [id]));
      && t.db == w.db && pid in t.processes && t.processes == w.processes[pid := t.processes[pid]]
      && WritesOf(t, pid, id, TimesOf(w.db, id)) == WritesOf(w, pid, id, TimesOf(w.db, id))
      && t.processes[pid].Found?
  {
    hide RevokeAll, TokenOf, InactivityTtlNow, AccessTtl, Matches, Sound;
    var p := w.processes[pid];
    assert IsNewestFirst(AsOf(w.db, p.now), [id]);
    assert Page([id]) == [id];
    assert FindSession(w.db, p.refreshToken, [id]) == Some(id);
  }

  lemma FlightStep(w: World, id: nat, pid: nat, k: nat)
    requires Calm(w, id) && pid in w.processes && 1 <= k <= 4 && k <= Stage(w.processes[pid])
    requires WritesOf(w, pid, id, TimesOf(w.db, id)).Some?
    ensures var t := Do(w, StepOf(pid, [id], k));
      && t.db == w.db && pid in t.processes && t.processes == w.processes[pid := t.processes[pid]]
      && WritesOf(t, pid, id, TimesOf(w.db, id)) == WritesOf(w, pid, id, TimesOf(w.db, id))
      && k + 1 <= Stage(t.processes[pid])
  {
    hide IsNewestFirst, FindSession, RevokeAll, TokenOf, InactivityTtlNow, AccessTtl, IdsDrawn, OwnerOk, TokenOk,
      Matches, Live;
    assert ProcessOk(w.db, w.processes[pid]);
  }

  lemma ReadingPart(w: World, id: nat, pid: nat, k: nat)
    requires Calm(w, id) && pid in w.processes && k <= 4 && k <= Stage(w.processes[pid])
    requires WritesOf(w, pid, id, TimesOf(w.db, id)).Some?
    ensures var t := Do(w, StepOf(pid, [id], k));
      && t.db == w.db && pid in t.processes && t.processes == w.processes[pid := t.processes[pid]]
      && WritesOf(t, pid, id, TimesOf(w.db, id)) == WritesOf(w, pid, id, TimesOf(w.db, id))
      && k + 1 <= Stage(t.processes[pid]) && Calm(t, id)
  {
    hide Do, Sound, WritesOf, InactivityTtlNow;
    DoKeepsSound(w, StepOf(pid, [id], k));
    if k > 0 {
      FlightStep(w, id, pid, k);
    } else if w.processes[pid].Asking? {
      AskingStep(w, id, pid);
    } else {
      NothingToAsk(w, pid, id);
    }
  }

  lemma NothingToAsk(w: World, pid: nat, id: nat)
    requires pid in w.processes && !w.processes[pid].Asking?
    ensures Do(w, FindSessions(pid, [id])) == w
    ensures w.processes == w.processes[pid := w.processes[pid]] && 1 <= Stage(w.processes[pid])
  {
  }

  /** The world after the write of a request: the times of the session have changed and its process has moved on. */
  ghost predicate After(w: World, t: World, id: nat, pid: nat, x: Times) {
    && id in w.db.sessions && pid in t.processes && t.processes == w.processes[pid := t.processes[pid]]
    && t.db == w.db.(sessions := w.db.sessions[id :=
         w.db.sessions[id].(lastUsedAt := x.lastUsedAt, expiresAt := x.expiresAt)])
  }

  lemma WritingPart(w: World, id: nat, pid: nat)
    requires Calm(w, id) && pid in w.processes && 5 <= Stage(w.processes[pid])
    requires WritesOf(w, pid, id, TimesOf(w.db, id)).Some?
    ensures After(w, Do(w, WriteSession(pid)), id, pid, WritesOf(w, pid, id, TimesOf(w.db, id)).value)
  {
    hide Sound, InactivityTtlNow;
  }

  lemma CalmAfter(w: World, t: World, id: nat, pid: nat, x: Times)
    requires Calm(w, id) && Sound(t) && After(w, t, id, pid, x)
    ensures Calm(t, id) && TimesOf(t.db, id) == x
  {
    hide Sound, Seconds;
  }

  /** A request that can write is run up to its write. */
  lemma {:induction false} RunToWrite(w: World, id: nat, pid: nat, k: nat) returns (plan: seq<Action>)
    requires Calm(w, id) && pid in w.processes && k <= 5 && k <= Stage(w.processes[pid])
    requires WritesOf(w, pid, id, TimesOf(w.db, id)).Some?
    ensures Calm(Perform(w, plan), id)
    ensures After(w, Perform(w, plan), id, pid, WritesOf(w, pid, id, TimesOf(w.db, id)).value)
    decreases 5 - k
  {
    var x := WritesOf(w, pid, id, TimesOf(w.db, id)).value;
    hide Do, Calm, WritesOf, After;
    var w1 := Do(w, StepOf(pid, [id], k));
    if k < 5 {
      ReadingPart(w, id, pid, k);
      var rest := RunToWrite(w1, id, pid, k + 1);
      plan := [StepOf(pid, [id], k)] + rest;
      PerformNext(w, StepOf(pid, [id], k), rest);
      AfterBoth(w, w1, Perform(w1, rest), id, pid, x);
    } else {
      plan := [WriteSession(pid)];
      PerformOne(w, WriteSession(pid));
      WritingPart(w, id, pid);
      SoundAfterOne(w, id, WriteSession(pid));
      CalmAfter(w, w1, id, pid, x);
    }
  }

  lemma SoundAfterOne(w: World, id: nat, a: Action)
    requires Calm(w, id)
    ensures Sound(Do(w, a))
  {
    hide Do, Sound;
    DoKeepsSound(w, a);
  }

  lemma AfterBoth(w: World, w1: World, t: World, id: nat, pid: nat, x: Times)
    requires w1.db == w.db && pid in w1.processes && w1.processes == w.processes[pid := w1.processes[pid]]
    requires After(w1, t, id, pid, x)
    ensures After(w, t, id, pid, x)
  {
  }

  /** A chain goes by nothing that the write of another request changes. */
  lemma {:induction false} SameChain(w: World, t: World, id: nat, u: Times, pids: seq<nat>, pid: nat, x: Times)
    requires After(w, t, id, pid, x) && pid !in pids && Revives(w, id, u, pids)
    ensures id in t.db.sessions && Revives(t, id, u, pids)
    decreases |pids|
  {
    hide Matches, ActiveVerified;
    if pids != [] {
      assert WritesOf(t, pids[0], id, u) == WritesOf(w, pids[0], id, u);
      SameChain(w, t, id, WritesOf(w, pids[0], id, u).value, pids[1..], pid, x);
    }
  }

  /** The requests of a chain, run one after the other, bring the session back. */
  lemma {:induction false} RunChain(w: World, id: nat, pids: seq<nat>) returns (plan: seq<Action>)
    requires Calm(w, id) && Distinct(pids) && Revives(w, id, TimesOf(w.db, id), pids)
    ensures Live(Perform(w, plan).db, id)
    decreases |pids|
  {
    hide Do, WritesOf, After, Sound, InactivityTtlNow, Seconds;
    plan := [];
    if pids != [] {
      var x := WritesOf(w, pids[0], id, TimesOf(w.db, id)).value;
      InChain(w, id, pids[0]);
      var first := RunToWrite(w, id, pids[0], 0);
      var w1 := Perform(w, first);
      SameChain(w, w1, id, x, pids[1..], pids[0], x);
      assert TimesOf(w1.db, id) == x by { CalmAfter(w, w1, id, pids[0], x); }
      var second := RunChain(w1, id, pids[1..]);
      plan := first + second;
      PerformBoth(w, first, second);
    }
  }

  lemma InChain(w: World, id: nat, pid: nat)
    requires id in w.db.sessions && WritesOf(w, pid, id, TimesOf(w.db, id)).Some?
    ensures pid in w.processes
  {
  }

  // ----- a calm world is never far -----

  /** Some steps lead from w to t without concerning the session or the processes. */
  ghost predicate Undisturbed(w: World, t: World, id: nat) {
    && id in w.db.sessions && id in t.db.sessions && t.db.sessions[id] == w.db.sessions[id]
    && t.processes == w.processes && t.db.clock == w.db.clock && Sound(t)
    && (forall pin :: OwnersPin(w.db, id, pin) ==> OwnersPin(t.db, id, pin))
  }

  ghost predicate Active(s: State, id: nat) {
    && id in s.sessions && InactivityTtlNow(s) == MAX_INACTIVITY_TTL_SEC
    && s.sessions[id].userId in s.users && ActiveVerified(s.users[s.sessions[id].userId])
  }

  lemma PolicyAndOwner(w: World, id: nat) returns (plan: seq<Action>)
    requires Sound(w) && id in w.db.sessions
    ensures Undisturbed(w, Perform(w, plan), id) && Active(Perform(w, plan).db, id)
  {
    hide Do, Sound, Seconds, Decimal, Key;
    var a := WriteVariable(Key(InactivityTtl), Decimal(MAX_INACTIVITY_TTL_SEC));
    assert OwnerOk(w.db, id) by { SoundOwner(w, id); }
    var u := w.db.sessions[id].userId;
    var b := EditUser(u, w.db.users[u].(status := Model.Active));
    plan := [a, b];
    var w1 := Do(w, a);
    var w2 := Do(w1, b);
    DoKeepsSound(w, a);
    DoKeepsSound(w1, b);
    assert Perform(w, plan) == w2 by {
      PerformNext(w, a, [b]);
      PerformOne(w1, b);
      assert plan == [a] + [b];
    }
    DoPolicy(w);
    DoActivate(w1, u);
  }

  lemma SoundOwner(w: World, id: nat)
    requires Sound(w)
    ensures OwnerOk(w.db, id)
  {
  }

  lemma DoPolicy(w: World)
    ensures var w1 := Do(w, WriteVariable(Key(InactivityTtl), Decimal(MAX_INACTIVITY_TTL_SEC)));
      w1 == w.(db := w1.db) && w1.db == w.db.(env := w1.db.env) && InactivityTtlNow(w1.db) == MAX_INACTIVITY_TTL_SEC
  {
    hide Seconds, Decimal, Key;
    UpsertRoundTrip(w.db.env, w.db.processEnv, Entry(InactivityTtl, MAX_INACTIVITY_TTL_SEC), InactivityTtl);
  }

  lemma DoActivate(w: World, u: nat)
    requires u in w.db.users
    ensures var user := w.db.users[u].(status := Model.Active);
      Do(w, EditUser(u, user)) == w.(db := w.db.(users := w.db.users[u := user]))
  {
  }

  ghost function Others(s: State, id: nat): set<nat> {
    set other | other in s.sessions && other != id && s.sessions[other].revokedAt.None?
  }

  lemma RevokeOther(w: World, id: nat, other: nat)
    requires Sound(w) && Active(w.db, id) && other in Others(w.db, id)
    ensures var t := Do(w, RevokeOne(other, 0));
      Undisturbed(w, t, id) && Active(t.db, id) && Others(t.db, id) == Others(w.db, id) - {other}
  {
    hide Sound, Seconds, IsNewestFirst, FindSession, RevokeAll;
    DoKeepsSound(w, RevokeOne(other, 0));
  }

  lemma {:induction false} RevokeOthers(w: World, id: nat) returns (plan: seq<Action>)
    requires Sound(w) && Active(w.db, id)
    ensures var t := Perform(w, plan); Undisturbed(w, t, id) && Active(t.db, id) && Others(t.db, id) == {}
    decreases Others(w.db, id)
  {
    hide Do, Sound, Active, Others, OwnersPin;
    if Others(w.db, id) == {} {
      plan := [];
      assert Active(w.db, id) && id in w.db.sessions by { ActiveHas(w.db, id); }
    } else {
      var other :| other in Others(w.db, id);
      RevokeOther(w, id, other);
      var rest := RevokeOthers(Do(w, RevokeOne(other, 0)), id);
      plan := [RevokeOne(other, 0)] + rest;
      PerformNext(w, RevokeOne(other, 0), rest);
    }
  }

  lemma ActiveHas(s: State, id: nat)
    requires Active(s, id)
    ensures id in s.sessions
  {
  }

  lemma {:induction false} SameChainCalm(w: World, t: World, id: nat, u: Times, pids: seq<nat>)
    requires Undisturbed(w, t, id) && Revives(w, id, u, pids)
    ensures Revives(t, id, u, pids)
    decreases |pids|
  {
    hide OwnersPin, ActiveVerified, Sound;
    if pids != [] {
      assert WritesOf(t, pids[0], id, u) == WritesOf(w, pids[0], id, u);
      SameChainCalm(w, t, id, WritesOf(w, pids[0], id, u).value, pids[1..]);
    }
  }

  lemma CalmPlan(w: World, id: nat) returns (plan: seq<Action>)
    requires Sound(w) && id in w.db.sessions && w.db.sessions[id].revokedAt.None?
    ensures Undisturbed(w, Perform(w, plan), id) && Calm(Perform(w, plan), id)
  {
    hide Do, Sound, OwnersPin, Seconds;
    var first := PolicyAndOwner(w, id);
    var second := RevokeOthers(Perform(w, first), id);
    plan := first + second;
    PerformBoth(w, first, second);
    var t := Perform(w, plan);
    forall other | other in t.db.sessions && other != id
      ensures t.db.sessions[other].revokedAt.Some?
    {
      assert other !in Others(t.db, id);
    }
  }

  lemma PlanToLive(w: World, id: nat) returns (plan: seq<Action>)
    requires Sound(w) && CanBeLive(w, id)
    ensures Live(Perform(w, plan).db, id)
  {
    hide Do, Sound, Revives, Calm, Undisturbed;
    var pids :| Distinct(pids) && Revives(w, id, TimesOf(w.db, id), pids);
    var first := CalmPlan(w, id);
    var w1 := Perform(w, first);
    UndisturbedTimes(w, w1, id);
    SameChainCalm(w, w1, id, TimesOf(w.db, id), pids);
    var second := RunChain(w1, id, pids);
    plan := first + second;
    PerformBoth(w, first, second);
  }

  lemma UndisturbedTimes(w: World, t: World, id: nat)
    requires Undisturbed(w, t, id)
    ensures id in w.db.sessions && id in t.db.sessions
    ensures TimesOf(t.db, id) == TimesOf(w.db, id)
  {
  }

  lemma LiveCanBeLive(w: World, id: nat)
    requires Live(w.db, id)
    ensures CanBeLive(w, id)
  {
    assert Distinct([]) && Revives(w, id, TimesOf(w.db, id), []);
  }

  lemma {:induction false} PlanNeedsCanBeLive(w: World, id: nat, plan: seq<Action>)
    requires Sound(w) && id < w.db.nextId && Live(Perform(w, plan).db, id)
    ensures CanBeLive(w, id)
    decreases |plan|
  {
    hide Do, Sound, CanBeLive, Live;
    if plan == [] {
      LiveCanBeLive(w, id);
    } else {
      DoKeepsSound(w, plan[0]);
      assert id < Do(w, plan[0]).db.nextId by { NextIdGrows(w, plan[0]); }
      PlanNeedsCanBeLive(Do(w, plan[0]), id, plan[1..]);
      CanBeLiveBefore(w, plan[0], id);
    }
  }

  lemma NextIdGrows(w: World, a: Action)
    requires Sound(w)
    ensures w.db.nextId <= Do(w, a).db.nextId
  {
    hide Do;
    DoKeepsSession(w, a, 0);
  }

  /**
   * Unlike a revocation, a lapse can be undone. In every reachable world, further steps can make a session live
   * if and only if it is unrevoked and it is live, or requests in flight, one after the other, can each still
   * find it by what the one before wrote and pass its checks, and the last expiry they write lies ahead.
   */
  lemma {:induction false} LapseReopensExactlyWhen(run: Schedule, i: nat, id: nat)
    requires id < WorldAt(run, i).db.nextId
    ensures CanBeLive(WorldAt(run, i), id) <==> exists plan :: Live(Perform(WorldAt(run, i), plan).db, id)
  {
    hide Do, Sound, CanBeLive, Live;
    SoundAlong(run, i);
    if CanBeLive(WorldAt(run, i), id) {
      var plan := PlanToLive(WorldAt(run, i), id);
    }
    forall plan | Live(Perform(WorldAt(run, i), plan).db, id)
      ensures CanBeLive(WorldAt(run, i), id)
    {
      PlanNeedsCanBeLive(WorldAt(run, i), id, plan);
    }
  }

  // ----- consequences -----

  /** A session that cannot be live any more stays so under every schedule. */
  lemma {:induction false} DeadStaysDead(run: Schedule, id: nat, i: nat, n: nat)
    requires i <= n && id < WorldAt(run, i).db.nextId && !CanBeLive(WorldAt(run, i), id)
    ensures id < WorldAt(run, n).db.nextId && !CanBeLive(WorldAt(run, n), id)
    decreases n
  {
    hide Do, Sound, CanBeLive;
    if i < n {
      DeadStaysDead(run, id, i, n - 1);
      SoundAlong(run, n - 1);
      NextIdGrows(WorldAt(run, n - 1), run.actions(n - 1));
      if CanBeLive(WorldAt(run, n), id) {
        CanBeLiveBefore(WorldAt(run, n - 1), run.actions(n - 1), id);
      }
    }
  }

  /** The request may still write the session: it asks by its refresh token, or has found it and not yet written. */
  predicate InFlightOn(s: State, p: Process, id: nat) {
    match p
    case Asking(_, refreshToken, _, _) => id in s.sessions && refreshToken == s.sessions[id].refreshHash
    case Found(_, _, i, _, _, _) => i == id
    case Unlocking(i, _, _) => i == id
    case Timed(i, _, _, _) => i == id
    case Admitted(i, _, _, _) => i == id
    case Priced(i, _, _, _, _, _) => i == id
    case _ => false
  }

  /** In particular, a lapse with no refresh or unlock of that session in flight is permanent. */
  lemma {:induction false} LapseWithoutWriterIsPermanent(run: Schedule, id: nat, i: nat, n: nat)
    requires i <= n && id < WorldAt(run, i).db.nextId && !Live(WorldAt(run, i).db, id)
    requires forall pid | pid in WorldAt(run, i).processes ::
        !InFlightOn(WorldAt(run, i).db, WorldAt(run, i).processes[pid], id)
    ensures !Live(WorldAt(run, n).db, id)
  {
    hide Do, Matches;
    if Live(WorldAt(run, n).db, id) {
      LiveCanBeLive(WorldAt(run, n), id);
      if !CanBeLive(WorldAt(run, i), id) {
        DeadStaysDead(run, id, i, n);
      }
    }
  }

  // ----- schedules from the empty tables -----

  function Grace(): User {
    User("grace@example.com", "password", "1234", Some(0), Model.Active, RoleUser, Tier1, "0", "0")
  }

  /**
   * Grace logs in; one millisecond before the session expires a refresh reads the clock. `first` runs before its
   * query and `second` before its write.
   */
  function InFlight(first: Action, second: Action, k: nat): Action {
    match k
    case 0 => InsertUser(Grace())
    case 1 => FindUser(0, 0, "password")
    case 2 => ReadClock(0)
    case 3 => ReadPolicy(0)
    case 4 => InsertSession(0)
    case 5 => Tick(Default(InactivityTtl) * 1000 - 1)
    case 6 => Ask(1, ByRefresh, 2, "1234")
    case 7 => first
    case 8 => FindSessions(1, [1])
    case 9 => CheckPin(1)
    case 10 => CheckInactivity(1)
    case 11 => ReadPolicy(1)
    case 12 => second
    case 13 => WriteSession(1)
    case _ => SignToken(1)
  }

  function InFlightSchedule(first: Action, second: Action): Schedule {
    Schedule(map[], 0, (k: nat) => InFlight(first, second, k))
  }

  /** The world `late` milliseconds after the refresh has read the clock. */
  function AboutToExpire(p: Process, late: nat): World {
    var expiry := Default(InactivityTtl) * 1000;
    World(Init(map[], 0).(users := map[0 := Grace()], sessions := map[1 := Session(0, 2, 0, 0, expiry, None)],
                          clock := expiry - 1 + late, nextId := 3),
          map[0 := Signing(1, 0, Grace(), Default(AccessTokenTtl)), 1 := p])
  }

  function HasReadClock(): Process {
    Asking(ByRefresh, 2, "1234", Default(InactivityTtl) * 1000 - 1)
  }

  /** The refresh is past its checks and holds the clock and the lifetimes it has read. */
  function HoldsReadings(): Process {
    Priced(1, 0, Grace(), Default(InactivityTtl) * 1000 - 1, Default(InactivityTtl), Default(AccessTokenTtl))
  }

  lemma DefaultPolicy(s: State)
    requires s.env == map[] && s.processEnv == map[]
    ensures InactivityTtlNow(s) == Default(InactivityTtl) && AccessTtl(s) == Default(AccessTokenTtl)
  {
  }

  function Registered(): World {
    World(Init(map[], 0).(users := map[0 := Grace()], nextId := 1), map[])
  }

  lemma LoginFinds()
    ensures Do(World(Init(map[], 0), map[]), InsertUser(Grace())) == Registered()
    ensures Do(Registered(), FindUser(0, 0, "password")) == Go(Registered(), 0, LoggingIn(0, Grace()))
  {
    hide Seconds;
  }

  lemma LoginReads()
    ensures Do(Do(Go(Registered(), 0, LoggingIn(0, Grace())), ReadClock(0)), ReadPolicy(0))
         == Go(Registered(), 0, PricedLogin(0, Grace(), 0, Default(InactivityTtl), Default(AccessTokenTtl)))
  {
    hide Seconds;
    DefaultPolicy(Registered().db);
    assert Do(Go(Registered(), 0, LoggingIn(0, Grace())), ReadClock(0)) == Go(Registered(), 0, Opening(0, Grace(), 0));
  }

  lemma LoginWrites()
    ensures var w := Go(Registered(), 0, PricedLogin(0, Grace(), 0, Default(InactivityTtl), Default(AccessTokenTtl)));
      Do(Do(Do(w, InsertSession(0)), Tick(Default(InactivityTtl) * 1000 - 1)), Ask(1, ByRefresh, 2, "1234"))
      == AboutToExpire(HasReadClock(), 0)
  {
    hide Seconds;
  }

  lemma {:induction false} LoginAndAsk(first: Action, second: Action)
    ensures WorldAt(InFlightSchedule(first, second), 7) == AboutToExpire(HasReadClock(), 0)
  {
    hide Do, Registered, AboutToExpire;
    var run := InFlightSchedule(first, second);
    LoginFinds();
    LoginReads();
    LoginWrites();
    assert WorldAt(run, 1) == Do(WorldAt(run, 0), InFlight(first, second, 0));
    assert WorldAt(run, 2) == Do(WorldAt(run, 1), InFlight(first, second, 1));
    assert WorldAt(run, 3) == Do(WorldAt(run, 2), InFlight(first, second, 2));
    assert WorldAt(run, 4) == Do(WorldAt(run, 3), InFlight(first, second, 3));
    assert WorldAt(run, 5) == Do(WorldAt(run, 4), InFlight(first, second, 4));
    assert WorldAt(run, 6) == Do(WorldAt(run, 5), InFlight(first, second, 5));
    assert WorldAt(run, 7) == Do(WorldAt(run, 6), InFlight(first, second, 6));
  }

  lemma QueryAfter(late: nat)
    ensures var w, now := AboutToExpire(HasReadClock(), late), Default(InactivityTtl) * 1000 - 1;
      Do(w, FindSessions(1, [1])) == AboutToExpire(Found(ByRefresh, "1234", 1, w.db.sessions[1], Grace(), now), late)
  {
    hide RevokeAll, Seconds;
    var w, now := AboutToExpire(HasReadClock(), late), Default(InactivityTtl) * 1000 - 1;
    assert IsNewestFirst(AsOf(w.db, now), [1]);
    assert FindSession(w.db, 2, [1]) == Some(1);
  }

  lemma ChecksAfter(late: nat)
    ensures var row, now := AboutToExpire(Ended, late).db.sessions[1], Default(InactivityTtl) * 1000 - 1;
      Do(Do(Do(AboutToExpire(Found(ByRefresh, "1234", 1, row, Grace(), now), late), CheckPin(1)), CheckInactivity(1)),
         ReadPolicy(1))
      == AboutToExpire(HoldsReadings(), late)
  {
    hide RevokeAll, Seconds, IsNewestFirst, FindSession;
    var row, now := AboutToExpire(Ended, late).db.sessions[1], Default(InactivityTtl) * 1000 - 1;
    DefaultPolicy(AboutToExpire(Ended, late).db);
    assert Do(AboutToExpire(Found(ByRefresh, "1234", 1, row, Grace(), now), late), CheckPin(1))
        == AboutToExpire(Timed(1, row, Grace(), now), late);
    assert Do(AboutToExpire(Timed(1, row, Grace(), now), late), CheckInactivity(1))
        == AboutToExpire(Admitted(1, row, Grace(), now), late);
  }

  lemma ReadingsAfter(late: nat)
    ensures var w := AboutToExpire(HasReadClock(), late);
      Do(Do(Do(Do(w, FindSessions(1, [1])), CheckPin(1)), CheckInactivity(1)), ReadPolicy(1))
      == AboutToExpire(HoldsReadings(), late)
  {
    hide Do;
    QueryAfter(late);
    ChecksAfter(late);
  }

  lemma {:induction false} RefreshHoldsReadings(late: nat, second: Action)
    ensures var run := InFlightSchedule(Tick(late), second);
      && WorldAt(run, 8) == AboutToExpire(HasReadClock(), late)
      && WorldAt(run, 12) == AboutToExpire(HoldsReadings(), late)
  {
    hide Do, AboutToExpire;
    var run := InFlightSchedule(Tick(late), second);
    LoginAndAsk(Tick(late), second);
    TickLate(late);
    ReadingsAfter(late);
    assert WorldAt(run, 8) == Do(WorldAt(run, 7), InFlight(Tick(late), second, 7));
    assert WorldAt(run, 9) == Do(WorldAt(run, 8), InFlight(Tick(late), second, 8));
    assert WorldAt(run, 10) == Do(WorldAt(run, 9), InFlight(Tick(late), second, 9));
    assert WorldAt(run, 11) == Do(WorldAt(run, 10), InFlight(Tick(late), second, 10));
    assert WorldAt(run, 12) == Do(WorldAt(run, 11), InFlight(Tick(late), second, 11));
  }

  lemma TickLate(late: nat)
    ensures Do(AboutToExpire(HasReadClock(), 0), Tick(late)) == AboutToExpire(HasReadClock(), late)
  {
  }

  lemma ExpiresAndReturns()
    ensures Live(AboutToExpire(HoldsReadings(), 0).db, 1) && !Live(AboutToExpire(HasReadClock(), 1).db, 1)
    ensures forall late | late <= 1 ::
        Do(AboutToExpire(HoldsReadings(), 0), Tick(late)) == AboutToExpire(HoldsReadings(), late)
    ensures Do(AboutToExpire(HoldsReadings(), 1), Tick(0)) == AboutToExpire(HoldsReadings(), 1)
    ensures !Live(AboutToExpire(HoldsReadings(), 1).db, 1)
    ensures Live(Do(AboutToExpire(HoldsReadings(), 1), WriteSession(1)).db, 1)
  {
    hide Seconds;
  }

  /** A reachable lapse that is undone: the session expires between the reading and the write, and is live again. */
  lemma {:induction false} LapseIsUndone()
    ensures var run := InFlightSchedule(Tick(0), Tick(1));
      && Live(WorldAt(run, 12).db, 1) && !Live(WorldAt(run, 13).db, 1) && Live(WorldAt(run, 14).db, 1)
  {
    hide Do, Live, AboutToExpire;
    var run := InFlightSchedule(Tick(0), Tick(1));
    RefreshHoldsReadings(0, Tick(1));
    ExpiresAndReturns();
    assert WorldAt(run, 13) == Do(WorldAt(run, 12), InFlight(Tick(0), Tick(1), 12));
    assert WorldAt(run, 14) == Do(WorldAt(run, 13), InFlight(Tick(0), Tick(1), 13));
  }

  /** The same when the session expires before the query: nothing has found it, only the clock has been read. */
  lemma {:induction false} LapseIsUndoneByLateQuery()
    ensures var run := InFlightSchedule(Tick(1), Tick(0));
      && WorldAt(run, 8).processes == AboutToExpire(HasReadClock(), 1).processes
      && !Live(WorldAt(run, 8).db, 1) && Live(WorldAt(run, 14).db, 1)
  {
    hide Do, Live, AboutToExpire;
    var run := InFlightSchedule(Tick(1), Tick(0));
    RefreshHoldsReadings(1, Tick(0));
    ExpiresAndReturns();
    assert WorldAt(run, 13) == Do(WorldAt(run, 12), InFlight(Tick(1), Tick(0), 12));
    assert WorldAt(run, 14) == Do(WorldAt(run, 13), InFlight(Tick(1), Tick(0), 13));
  }

  /** A second refresh reads the clock when the session has expired, and then a whole lifetime passes. */
  function Relay(): World {
    var expiry := Default(InactivityTtl) * 1000;
    var w := AboutToExpire(HoldsReadings(), expiry);
    w.(processes := w.processes[2 := Asking(ByRefresh, 2, "1234", expiry)])
  }

  lemma RelayChain()
    ensures var w, t := Relay(), Times(0, Default(InactivityTtl) * 1000);
      && !Live(w.db, 1) && 1 in w.db.sessions && TimesOf(w.db, 1) == t
      && !Revives(w, 1, t, [1]) && !Revives(w, 1, t, [2]) && Revives(w, 1, t, [1, 2])
  {
    hide Seconds;
    var w, expiry := Relay(), Default(InactivityTtl) * 1000;
    assert WritesOf(w, 1, 1, Times(0, expiry)) == Some(Times(expiry - 1, 2 * expiry - 1));
    assert WritesOf(w, 2, 1, Times(0, expiry)) == None;
    assert WritesOf(w, 2, 1, Times(expiry - 1, 2 * expiry - 1)) == Some(Times(expiry, expiry + MAX_MS));
    assert [1][1..] == [] && [1, 2][1..] == [2] && [2][1..] == [];
  }

  lemma RelaySteps()
    ensures Perform(AboutToExpire(HoldsReadings(), 1),
                    [Ask(2, ByRefresh, 2, "1234"), Tick(Default(InactivityTtl) * 1000 - 1)])
         == Relay()
  {
    hide Seconds;
    var w := AboutToExpire(HoldsReadings(), 1);
    var a, b := Ask(2, ByRefresh, 2, "1234"), Tick(Default(InactivityTtl) * 1000 - 1);
    assert [a, b] == [a] + [b];
    PerformNext(w, a, [b]);
    PerformOne(Do(w, a), b);
  }

  /**
   * Chains are needed: in this reachable world neither of two requests can bring the session back alone, but the
   * first writes an expiry by which, past as it is, the second still finds the session.
   */
  lemma {:induction false} OneClearsTheWayForTheOther()
    ensures var w := Perform(WorldAt(InFlightSchedule(Tick(0), Tick(1)), 13),
                             [Ask(2, ByRefresh, 2, "1234"), Tick(Default(InactivityTtl) * 1000 - 1)]);
      && !Live(w.db, 1) && 1 in w.db.sessions
      && !Revives(w, 1, TimesOf(w.db, 1), [1]) && !Revives(w, 1, TimesOf(w.db, 1), [2])
      && Revives(w, 1, TimesOf(w.db, 1), [1, 2])
  {
    hide Do, Live, AboutToExpire, Revives, Relay, Perform;
    var run := InFlightSchedule(Tick(0), Tick(1));
    RefreshHoldsReadings(0, Tick(1));
    ExpiresAndReturns();
    assert WorldAt(run, 13) == Do(WorldAt(run, 12), InFlight(Tick(0), Tick(1), 12));
    RelaySteps();
    RelayChain();
  }

  lemma RevokedUnderRefresh(at: nat)
    ensures var w := AboutToExpire(HoldsReadings(), 0);
      var w1 := Do(w, RevokeOne(1, at));
      var w2 := Do(Do(w1, WriteSession(1)), SignToken(1));
      && Live(w.db, 1) && Gone(w1.db, 1) && w1.db.issued == {}
      && exists token :: token in w2.db.issued && token.sessionId == 1 && w2.db.clock / 1000 < token.exp
  {
    hide Seconds, IsNewestFirst, FindSession, RevokeAll;
    var w1 := Do(AboutToExpire(HoldsReadings(), 0), RevokeOne(1, at));
    var w2 := Do(w1, WriteSession(1));
    assert TokenOf(w2.db, w2.processes[1]) in Do(w2, SignToken(1)).db.issued;
  }

  /** A reachable revocation with a refresh in flight: the token it then signs is never good for anything. */
  lemma {:induction false} RevokedInFlight(n: nat, at: nat, now: nat)
    requires n >= 15
    ensures var run := InFlightSchedule(Tick(0), RevokeOne(1, at));
      && Live(WorldAt(run, 12).db, 1) && Gone(WorldAt(run, 13).db, 1) && WorldAt(run, 13).db.issued == {}
      && exists token :: token in WorldAt(run, 15).db.issued && token.sessionId == 1
          && WorldAt(run, 15).db.clock / 1000 < token.exp && !LookupFinds(WorldAt(run, n).db, token, now)
  {
    hide Do, Live, LookupFinds, AboutToExpire;
    var run := InFlightSchedule(Tick(0), RevokeOne(1, at));
    RefreshHoldsReadings(0, RevokeOne(1, at));
    RevokedUnderRefresh(at);
    assert WorldAt(run, 13) == Do(WorldAt(run, 12), InFlight(Tick(0), RevokeOne(1, at), 12));
    assert WorldAt(run, 14) == Do(WorldAt(run, 13), InFlight(Tick(0), RevokeOne(1, at), 13));
    assert WorldAt(run, 15) == Do(WorldAt(run, 14), InFlight(Tick(0), RevokeOne(1, at), 14));
    var token :| token in WorldAt(run, 15).db.issued && token.sessionId == 1
              && WorldAt(run, 15).db.clock / 1000 < token.exp;
    RevocationWins(run, 1, 13, n, token, now);
  }
}
