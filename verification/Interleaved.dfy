// Sessions with every database call and every reading of the clock as a step of its own. Refresh, unlock,
// login and the guard are processes that keep what they have read; between any two of their steps, steps of
// other requests may run, and a process may stop for ever at any point.
module Interleaved {
  import opened Wrappers
  import opened Model
  import opened AuthCalls
  import A = AuthCalls
  import T = ScanTheorems

  datatype Kind = ByRefresh | ByUnlock

  /** Where a request stands, with what it has read on the way. */
  datatype Process =
    // refresh and unlock: the clock is read first, the query filters by that reading
    | Asking(kind: Kind, refreshToken: nat, pin: string, now: nat)
    | Found(kind: Kind, pin: string, id: nat, row: Session, user: User, now: nat)
    // an unlock past its PIN check is about to read the clock a second time
    | Unlocking(id: nat, row: Session, user: User)
    | Timed(id: nat, row: Session, user: User, now: nat)
    | Admitted(id: nat, row: Session, user: User, now: nat)
    | Priced(id: nat, userId: nat, user: User, now: nat, ttlSec: int, accessTtlSec: int)
    // a login past its checks
    | LoggingIn(userId: nat, user: User)
    | Opening(userId: nat, user: User, now: nat)
    | PricedLogin(userId: nat, user: User, now: nat, ttlSec: int, accessTtlSec: int)
    // all three end by signing
    | Signing(id: nat, userId: nat, user: User, accessTtlSec: int)
    // the guard
    | Verified(token: AccessToken, now: nat)
    | LookedUp(token: AccessToken, lastUsedAt: nat)
    | Judging(token: AccessToken, lastUsedAt: nat, ttlSec: int)
    | Passed(token: AccessToken)
    | Ended

  datatype World = World(db: State, processes: map<nat, Process>)

  /** The steps of process `pid`, and the writes of calls whose other steps do not matter here. */
  datatype Action =
    | Tick(delay: nat)
    | Ask(pid: nat, kind: Kind, refreshToken: nat, pin: string)
    | FindSessions(pid: nat, order: seq<nat>)
    | CheckPin(pid: nat)
    | ReadClock(pid: nat)
    | CheckInactivity(pid: nat)
    | ReadPolicy(pid: nat)
    | WriteSession(pid: nat)
    | FindUser(pid: nat, userId: nat, password: string)
    | FindDeviceOwner(pid: nat, userId: nat)
    | InsertSession(pid: nat)
    | SignToken(pid: nat)
    | Verify(pid: nat, token: AccessToken)
    | LookUp(pid: nat)
    | Decide(pid: nat)
    // `at` is an earlier reading of the clock
    | RevokeOne(id: nat, at: nat)
    | SuspendWrite(userId: nat, at: nat)
    | ResetTransaction(userId: nat, newPassword: string, at: nat)
    | DeleteWrite(userId: nat)
    | InsertUser(user: User)
    | EditUser(userId: nat, user: User)
    | WriteVariable(key: string, value: string)

  function Go(w: World, pid: nat, p: Process): World {
    w.(processes := w.processes[pid := p])
  }

  /** The tables as a query sees them that filters by an earlier reading of the clock. */
  function AsOf(s: State, now: nat): State {
    s.(clock := now)
  }

  ghost function StepFind(w: World, pid: nat, p: Process, order: seq<nat>): (t: World)
    requires p.Asking?
    ensures t.db == w.db
  {
    var s := w.db;
    if !IsNewestFirst(AsOf(s, p.now), order) then w
    else match FindSession(s, p.refreshToken, Page(order))
      case None => Go(w, pid, Ended)
      case Some(id) =>
        var row := s.sessions[id];
        if row.userId !in s.users then Go(w, pid, Ended)
        else Go(w, pid, Found(p.kind, p.pin, id, row, s.users[row.userId], p.now))
  }

  /** The PIN is compared with the user row as it is now; status and verification with the one read before. */
  function StepPin(w: World, pid: nat, p: Process): (t: World)
    requires p.Found?
    ensures t.db == w.db
  {
    var s := w.db;
    if p.row.userId in s.users && Matches(p.pin, s.users[p.row.userId].pinHash) && ActiveVerified(p.user) then
      Go(w, pid, if p.kind.ByUnlock? then Unlocking(p.id, p.row, p.user) else Timed(p.id, p.row, p.user, p.now))
    else Go(w, pid, Ended)
  }

  function StepClock(w: World, pid: nat, p: Process): (t: World)
    ensures t.db == w.db
  {
    match p
    case Unlocking(id, row, user) => Go(w, pid, Timed(id, row, user, w.db.clock))
    case LoggingIn(userId, user) => Go(w, pid, Opening(userId, user, w.db.clock))
    case _ => w
  }

  function StepInactivity(w: World, pid: nat, p: Process): (t: World)
    requires p.Timed?
    ensures t.db == w.db
  {
    if p.now - p.row.lastUsedAt <= InactivityTtlNow(w.db) * 1000 then Go(w, pid, Admitted(p.id, p.row, p.user, p.now))
    else Go(w, pid, Ended)
  }

  function StepPolicy(w: World, pid: nat, p: Process): (t: World)
    ensures t.db == w.db
  {
    var ttl, accessTtl := InactivityTtlNow(w.db), AccessTtl(w.db);
    match p
    case Admitted(id, row, user, now) => Go(w, pid, Priced(id, row.userId, user, now, ttl, accessTtl))
    case Opening(userId, user, now) => Go(w, pid, PricedLogin(userId, user, now, ttl, accessTtl))
    case LookedUp(token, lastUsedAt) => Go(w, pid, Judging(token, lastUsedAt, ttl))
    case _ => w
  }

  /** `session.update` by id: two columns, whatever the rest of the row says by now. */
  function StepWrite(w: World, pid: nat, p: Process): World
    requires p.Priced?
  {
    var s := w.db;
    if p.id in s.sessions then
      var row := s.sessions[p.id].(lastUsedAt := p.now, expiresAt := p.now + p.ttlSec * 1000);
      Go(w.(db := s.(sessions := s.sessions[p.id := row])), pid, Signing(p.id, p.userId, p.user, p.accessTtlSec))
    else Go(w, pid, Ended)
  }

  /** `session.create`: the foreign key asks for the user row and for nothing in it. */
  function StepInsert(w: World, pid: nat, p: Process): World
    requires p.PricedLogin?
  {
    var s := w.db;
    if p.userId !in s.users then Go(w, pid, Ended)
    else
      var row := Session(p.userId, s.nextId + 1, s.clock, p.now, p.now + p.ttlSec * 1000, None);
      Go(w.(db := s.(sessions := s.sessions[s.nextId := row], nextId := s.nextId + 2)),
         pid, Signing(s.nextId, p.userId, p.user, p.accessTtlSec))
  }

  function TokenOf(s: State, p: Process): AccessToken
    requires p.Signing?
  {
    AccessToken(p.userId, p.user.email, p.id, p.user.role, s.clock / 1000, s.clock / 1000 + p.accessTtlSec)
  }

  /** The guard's lookup, filtering by its own reading of the clock, finds the session of the token. */
  predicate LookupFinds(s: State, token: AccessToken, now: nat) {
    Live(AsOf(s, now), token.sessionId) && s.sessions[token.sessionId].userId == token.sub
  }

  function DropUser(s: State, u: nat): State {
    s.(users := s.users - {u}, sessions := map k | k in s.sessions && s.sessions[k].userId != u :: s.sessions[k])
  }

  /** What a change of a user row leaves: the PIN never changes and verification is never withdrawn. */
  predicate Editable(before: User, after: User) {
    after.pinHash == before.pinHash && (before.emailVerifiedAt.Some? ==> after.emailVerifiedAt.Some?)
  }

  function RevokeOf(s: State, u: nat, user: User, at: nat): State {
    s.(users := s.users[u := user], sessions := RevokeAll(s.sessions, u, at))
  }

  ghost function Do(w: World, a: Action): World {
    var s, ps := w.db, w.processes;
    match a
    case Tick(delay) => w.(db := s.(clock := s.clock + delay))
    case Ask(pid, kind, refreshToken, pin) =>
      if pid in ps then w else Go(w, pid, Asking(kind, refreshToken, pin, s.clock))
    case FindSessions(pid, order) => if pid in ps && ps[pid].Asking? then StepFind(w, pid, ps[pid], order) else w
    case CheckPin(pid) => if pid in ps && ps[pid].Found? then StepPin(w, pid, ps[pid]) else w
    case ReadClock(pid) => if pid in ps then StepClock(w, pid, ps[pid]) else w
    case CheckInactivity(pid) => if pid in ps && ps[pid].Timed? then StepInactivity(w, pid, ps[pid]) else w
    case ReadPolicy(pid) => if pid in ps then StepPolicy(w, pid, ps[pid]) else w
    case WriteSession(pid) => if pid in ps && ps[pid].Priced? then StepWrite(w, pid, ps[pid]) else w
    case FindUser(pid, u, password) =>
      if pid in ps then w
      else if u in s.users && ActiveVerified(s.users[u]) && Matches(password, s.users[u].passwordHash) then
        Go(w, pid, LoggingIn(u, s.users[u]))
      else Go(w, pid, Ended)
    case FindDeviceOwner(pid, u) =>
      if pid in ps then w
      else if u in s.users && ActiveVerified(s.users[u]) then Go(w, pid, LoggingIn(u, s.users[u]))
      else Go(w, pid, Ended)
    case InsertSession(pid) => if pid in ps && ps[pid].PricedLogin? then StepInsert(w, pid, ps[pid]) else w
    case SignToken(pid) =>
      if pid in ps && ps[pid].Signing? then
        Go(w.(db := s.(issued := s.issued + {TokenOf(s, ps[pid])})), pid, Ended)
      else w
    case Verify(pid, token) =>
      if pid in ps then w
      else if token in s.issued && s.clock / 1000 < token.exp then Go(w, pid, Verified(token, s.clock))
      else Go(w, pid, Ended)
    case LookUp(pid) =>
      if pid in ps && ps[pid].Verified? then
        var p := ps[pid];
        if LookupFinds(s, p.token, p.now) then Go(w, pid, LookedUp(p.token, s.sessions[p.token.sessionId].lastUsedAt))
        else Go(w, pid, Ended)
      else w
    case Decide(pid) =>
      if pid in ps && ps[pid].Judging? then
        Go(w, pid, if s.clock - ps[pid].lastUsedAt <= ps[pid].ttlSec * 1000 then Passed(ps[pid].token) else Ended)
      else w
    case RevokeOne(id, at) =>
      if id in s.sessions && s.sessions[id].revokedAt.None? then
        w.(db := s.(sessions := s.sessions[id := s.sessions[id].(revokedAt := Some(at))]))
      else w
    case SuspendWrite(u, at) =>
      if u in s.users then w.(db := RevokeOf(s, u, s.users[u].(status := Disabled), at)) else w
    case ResetTransaction(u, newPassword, at) =>
      if u in s.users then w.(db := RevokeOf(s, u, s.users[u].(passwordHash := newPassword), at)) else w
    case DeleteWrite(u) => w.(db := DropUser(s, u))
    case InsertUser(user) => w.(db := s.(users := s.users[s.nextId := user], nextId := s.nextId + 1))
    case EditUser(u, user) =>
      if u in s.users && Editable(s.users[u], user) then w.(db := s.(users := s.users[u := user])) else w
    case WriteVariable(key, value) => w.(db := s.(env := s.env[key := value]))
  }

  /** A start and an endless schedule of steps. */
  datatype Schedule = Schedule(processEnv: map<string, string>, epoch: nat, actions: nat -> Action)

  ghost function WorldAt(run: Schedule, n: nat): World {
    if n == 0 then World(Init(run.processEnv, run.epoch), map[]) else Do(WorldAt(run, n - 1), run.actions(n - 1))
  }

  // ----- what one step can do to a session -----

  ghost predicate IdsDrawn(s: State) {
    && (forall id | id in s.sessions :: id < s.nextId)
    && (forall u | u in s.users :: u < s.nextId)
  }

  /** Owner and creation never change, a revocation is never taken back or moved, and only a new id appears. */
  ghost predicate SessionKept(s: State, t: State, id: nat) {
    && s.nextId <= t.nextId && s.clock <= t.clock
    && (id in t.sessions && id !in s.sessions ==> s.nextId == id < t.nextId)
    && (id in t.sessions && id in s.sessions ==>
          && t.sessions[id].userId == s.sessions[id].userId
          && t.sessions[id].createdAt == s.sessions[id].createdAt
          && t.sessions[id].refreshHash == s.sessions[id].refreshHash
          && (s.sessions[id].revokedAt.Some? ==> t.sessions[id].revokedAt == s.sessions[id].revokedAt))
  }

  predicate WritesSessions(a: Action) {
    a.WriteSession? || a.InsertSession? || a.RevokeOne? || a.SuspendWrite? || a.ResetTransaction? || a.DeleteWrite?
  }

  lemma OthersLeaveSessions(w: World, a: Action)
    requires !WritesSessions(a)
    ensures var t := Do(w, a).db; t.sessions == w.db.sessions && w.db.nextId <= t.nextId && w.db.clock <= t.clock
  {
    hide IsNewestFirst, FindSession, Matches, StepFind, StepPin, StepClock, StepInactivity, StepPolicy, TokenOf, Live;
  }

  lemma WriterKeepsSession(w: World, a: Action, id: nat)
    requires IdsDrawn(w.db) && WritesSessions(a)
    ensures SessionKept(w.db, Do(w, a).db, id) && Do(w, a).db.clock == w.db.clock
  {
    hide IsNewestFirst, FindSession, Matches, StepFind, StepPin, StepClock, StepInactivity, StepPolicy, TokenOf, Live;
  }

  lemma DoKeepsSession(w: World, a: Action, id: nat)
    requires IdsDrawn(w.db)
    ensures SessionKept(w.db, Do(w, a).db, id)
  {
    hide Do, WritesSessions;
    if WritesSessions(a) {
      WriterKeepsSession(w, a, id);
    } else {
      OthersLeaveSessions(w, a);
    }
  }

  /** A user row appears under a new id only, keeps its PIN, and keeps its verification. */
  ghost predicate UserKept(s: State, t: State, u: nat) {
    && (u in t.users && u !in s.users ==> s.nextId == u < t.nextId)
    && (u in t.users && u in s.users ==> Editable(s.users[u], t.users[u]))
  }

  predicate WritesUsers(a: Action) {
    a.SuspendWrite? || a.ResetTransaction? || a.DeleteWrite? || a.InsertUser? || a.EditUser?
  }

  lemma OthersLeaveUsers(w: World, a: Action)
    requires !WritesUsers(a)
    ensures Do(w, a).db.users == w.db.users
  {
    hide IsNewestFirst, FindSession, Matches, StepFind, StepPin, StepClock, StepInactivity, StepPolicy, TokenOf, Live;
  }

  lemma WriterKeepsUser(w: World, a: Action, u: nat)
    requires IdsDrawn(w.db) && WritesUsers(a)
    ensures UserKept(w.db, Do(w, a).db, u)
  {
    hide IsNewestFirst, FindSession, Matches, StepFind, StepPin, StepClock, StepInactivity, StepPolicy, TokenOf, Live,
      RevokeAll, StepWrite, StepInsert;
  }

  lemma DoKeepsUser(w: World, a: Action, u: nat)
    requires IdsDrawn(w.db)
    ensures UserKept(w.db, Do(w, a).db, u)
  {
    hide Do, WritesUsers;
    if WritesUsers(a) {
      WriterKeepsUser(w, a, u);
    } else {
      OthersLeaveUsers(w, a);
    }
  }

  lemma DoKeepsIdsDrawn(w: World, a: Action)
    requires IdsDrawn(w.db)
    ensures IdsDrawn(Do(w, a).db)
  {
    hide Do;
    DoKeepsSession(w, a, 0);
    forall id | id in Do(w, a).db.sessions
      ensures id < Do(w, a).db.nextId
    {
      DoKeepsSession(w, a, id);
    }
    forall u | u in Do(w, a).db.users
      ensures u < Do(w, a).db.nextId
    {
      DoKeepsUser(w, a, u);
    }
  }

  // ----- what holds in every world -----

  /** A drawn session that, while it exists, belongs to this user. */
  predicate Pairs(s: State, id: nat, userId: nat) {
    id < s.nextId && (id in s.sessions ==> s.sessions[id].userId == userId)
  }

  /** A drawn user whose address, while the user exists, is verified. */
  predicate HasVerified(s: State, u: nat) {
    u < s.nextId && (u in s.users ==> s.users[u].emailVerifiedAt.Some?)
  }

  predicate ProcessOk(s: State, p: Process) {
    match p
    case Found(_, _, id, row, _, _) => Pairs(s, id, row.userId)
    case Unlocking(id, row, _) => Pairs(s, id, row.userId)
    case Timed(id, row, _, _) => Pairs(s, id, row.userId)
    case Admitted(id, row, _, _) => Pairs(s, id, row.userId)
    case Priced(id, userId, _, _, _, _) => Pairs(s, id, userId)
    case Signing(id, userId, _, _) => Pairs(s, id, userId)
    case LoggingIn(u, _) => HasVerified(s, u)
    case Opening(u, _, _) => HasVerified(s, u)
    case PricedLogin(u, _, _, _, _) => HasVerified(s, u)
    case _ => true
  }

  predicate OwnerOk(s: State, id: nat) {
    id in s.sessions ==>
      s.sessions[id].userId in s.users && s.users[s.sessions[id].userId].emailVerifiedAt.Some?
  }

  predicate TokenOk(s: State, token: AccessToken) {
    token in s.issued ==> Pairs(s, token.sessionId, token.sub)
  }

  ghost predicate Sound(w: World) {
    && IdsDrawn(w.db)
    && (forall pid | pid in w.processes :: ProcessOk(w.db, w.processes[pid]))
    && (forall id :: OwnerOk(w.db, id))
    && (forall token :: TokenOk(w.db, token))
  }

  lemma PairsKept(s: State, t: State, id: nat, userId: nat)
    requires Pairs(s, id, userId) && SessionKept(s, t, id)
    ensures Pairs(t, id, userId)
  {
  }

  lemma HasVerifiedKept(s: State, t: State, u: nat)
    requires HasVerified(s, u) && UserKept(s, t, u) && s.nextId <= t.nextId
    ensures HasVerified(t, u)
  {
  }

  /** What a process has read stays true of the rows. */
  lemma ProcessStaysOk(w: World, a: Action, p: Process)
    requires IdsDrawn(w.db) && ProcessOk(w.db, p)
    ensures ProcessOk(Do(w, a).db, p)
  {
    hide Do, SessionKept, UserKept, Pairs, HasVerified, IdsDrawn;
    match p {
      case Asking(_, _, _, _) =>
      case LoggingIn(u, _) => VerifiedStays(w, a, u);
      case Opening(u, _, _) => VerifiedStays(w, a, u);
      case PricedLogin(u, _, _, _, _) => VerifiedStays(w, a, u);
      case Found(_, _, id, row, _, _) => PairStays(w, a, id, row.userId);
      case Unlocking(id, row, _) => PairStays(w, a, id, row.userId);
      case Timed(id, row, _, _) => PairStays(w, a, id, row.userId);
      case Admitted(id, row, _, _) => PairStays(w, a, id, row.userId);
      case Priced(id, userId, _, _, _, _) => PairStays(w, a, id, userId);
      case Signing(id, userId, _, _) => PairStays(w, a, id, userId);
      case _ =>
    }
  }

  lemma PairStays(w: World, a: Action, id: nat, userId: nat)
    requires IdsDrawn(w.db) && Pairs(w.db, id, userId)
    ensures Pairs(Do(w, a).db, id, userId)
  {
    hide Do;
    DoKeepsSession(w, a, id);
    PairsKept(w.db, Do(w, a).db, id, userId);
  }

  lemma VerifiedStays(w: World, a: Action, u: nat)
    requires IdsDrawn(w.db) && HasVerified(w.db, u)
    ensures HasVerified(Do(w, a).db, u)
  {
    hide Do;
    DoKeepsUser(w, a, u);
    DoKeepsSession(w, a, 0);
    HasVerifiedKept(w.db, Do(w, a).db, u);
  }

  /** What the step of a process reads is true of the rows. */
  lemma MovedProcessOk(w: World, a: Action, pid: nat)
    requires IdsDrawn(w.db) && pid in Do(w, a).processes && (pid in w.processes ==> ProcessOk(w.db, w.processes[pid]))
    requires pid !in w.processes || Do(w, a).processes[pid] != w.processes[pid]
    ensures ProcessOk(Do(w, a).db, Do(w, a).processes[pid])
  {
    hide Do, ProcessOk, IdsDrawn;
    if pid !in w.processes {
      BegunOk(w, a, pid);
    } else if a.WriteSession? || a.InsertSession? {
      MovedByWrite(w, a, pid);
    } else {
      MovedByReading(w, a, pid);
    }
  }

  lemma MovedByWrite(w: World, a: Action, pid: nat)
    requires IdsDrawn(w.db) && pid in Do(w, a).processes && (pid in w.processes ==> ProcessOk(w.db, w.processes[pid]))
    requires pid !in w.processes || Do(w, a).processes[pid] != w.processes[pid]
    requires a.WriteSession? || a.InsertSession?
    ensures ProcessOk(Do(w, a).db, Do(w, a).processes[pid])
  {
    hide IsNewestFirst, FindSession, Matches, RevokeAll, TokenOf, Live, InactivityTtlNow, AccessTtl, StepFind, StepPin,
      StepClock, StepInactivity, StepPolicy;
  }

  lemma MovedByReading(w: World, a: Action, pid: nat)
    requires IdsDrawn(w.db) && pid in w.processes && ProcessOk(w.db, w.processes[pid])
    requires pid in Do(w, a).processes && Do(w, a).processes[pid] != w.processes[pid]
    requires !a.WriteSession? && !a.InsertSession?
    ensures ProcessOk(Do(w, a).db, Do(w, a).processes[pid])
  {
    hide Do, ProcessOk, IdsDrawn;
    if a.FindSessions? {
      MovedByQuery(w, a, pid);
    } else {
      MovedByOther(w, a, pid);
    }
  }

  lemma MovedByQuery(w: World, a: Action, pid: nat)
    requires IdsDrawn(w.db) && a.FindSessions? && pid in w.processes
    requires pid in Do(w, a).processes && Do(w, a).processes[pid] != w.processes[pid]
    ensures ProcessOk(Do(w, a).db, Do(w, a).processes[pid])
  {
    hide IsNewestFirst, FindSession, Live;
  }

  lemma MovedByOther(w: World, a: Action, pid: nat)
    requires pid in w.processes && ProcessOk(w.db, w.processes[pid])
    requires pid in Do(w, a).processes && Do(w, a).processes[pid] != w.processes[pid]
    requires !a.WriteSession? && !a.InsertSession? && !a.FindSessions?
    ensures ProcessOk(Do(w, a).db, Do(w, a).processes[pid])
  {
    hide IsNewestFirst, FindSession, Matches, RevokeAll, TokenOf, Live, InactivityTtlNow, AccessTtl, StepWrite,
      StepInsert, StepFind, Pairs, HasVerified, LookupFinds;
  }

  lemma BegunOk(w: World, a: Action, pid: nat)
    requires IdsDrawn(w.db) && pid !in w.processes && pid in Do(w, a).processes
    ensures ProcessOk(Do(w, a).db, Do(w, a).processes[pid])
  {
    hide IsNewestFirst, FindSession, Matches, RevokeAll, TokenOf, Live, InactivityTtlNow, AccessTtl, LookupFinds, Pairs;
  }

  lemma DoKeepsProcess(w: World, a: Action, pid: nat)
    requires IdsDrawn(w.db) && (pid in w.processes ==> ProcessOk(w.db, w.processes[pid]))
    ensures pid in Do(w, a).processes ==> ProcessOk(Do(w, a).db, Do(w, a).processes[pid])
  {
    hide Do, ProcessOk, IdsDrawn;
    if pid in Do(w, a).processes {
      if pid in w.processes && Do(w, a).processes[pid] == w.processes[pid] {
        ProcessStaysOk(w, a, w.processes[pid]);
      } else {
        MovedProcessOk(w, a, pid);
      }
    }
  }

  lemma DoKeepsOwner(w: World, a: Action, id: nat)
    requires Sound(w)
    ensures OwnerOk(Do(w, a).db, id)
  {
    hide IsNewestFirst, FindSession, Matches, StepFind, StepPin, StepClock, StepInactivity, StepPolicy, TokenOf, Live,
      TokenOk;
    assert OwnerOk(w.db, id);
  }

  lemma DoKeepsToken(w: World, a: Action, token: AccessToken)
    requires Sound(w)
    ensures TokenOk(Do(w, a).db, token)
  {
    hide Do, OwnerOk, SessionKept, IdsDrawn;
    assert TokenOk(w.db, token);
    if token in w.db.issued {
      PairStays(w, a, token.sessionId, token.sub);
    } else if token in Do(w, a).db.issued {
      NewToken(w, a, token);
    }
  }

  lemma NewToken(w: World, a: Action, token: AccessToken)
    requires Sound(w) && token !in w.db.issued && token in Do(w, a).db.issued
    ensures Pairs(Do(w, a).db, token.sessionId, token.sub)
  {
    hide Do, OwnerOk, TokenOk, IdsDrawn, ProcessOk, Pairs;
    OnlySigningIssues(w, a);
    assert ProcessOk(w.db, w.processes[a.pid]);
    SignedPairs(w, a.pid, token);
  }

  lemma OnlySigningIssues(w: World, a: Action)
    ensures Do(w, a).db.issued == w.db.issued || (a.SignToken? && a.pid in w.processes && w.processes[a.pid].Signing?)
  {
    hide IsNewestFirst, FindSession, Matches, StepFind, StepPin, StepClock, StepInactivity, StepPolicy, Live, RevokeAll,
      TokenOf;
  }

  lemma SignedPairs(w: World, pid: nat, token: AccessToken)
    requires pid in w.processes && w.processes[pid].Signing? && ProcessOk(w.db, w.processes[pid])
    requires token !in w.db.issued && token in Do(w, SignToken(pid)).db.issued
    ensures Pairs(Do(w, SignToken(pid)).db, token.sessionId, token.sub)
  {
    assert token == TokenOf(w.db, w.processes[pid]);
  }

  lemma DoKeepsSound(w: World, a: Action)
    requires Sound(w)
    ensures Sound(Do(w, a))
  {
    hide Do, IdsDrawn, ProcessOk, OwnerOk, TokenOk;
    DoKeepsIdsDrawn(w, a);
    forall pid | pid in Do(w, a).processes
      ensures ProcessOk(Do(w, a).db, Do(w, a).processes[pid])
    {
      DoKeepsProcess(w, a, pid);
    }
    forall id
      ensures OwnerOk(Do(w, a).db, id)
    {
      DoKeepsOwner(w, a, id);
    }
    forall token
      ensures TokenOk(Do(w, a).db, token)
    {
      DoKeepsToken(w, a, token);
    }
  }

  lemma SoundInit(processEnv: map<string, string>, epoch: nat)
    ensures Sound(World(Init(processEnv, epoch), map[]))
  {
  }

  lemma {:induction false} SoundAlong(run: Schedule, n: nat)
    ensures Sound(WorldAt(run, n))
  {
    hide Do, Sound;
    if n > 0 {
      SoundAlong(run, n - 1);
      DoKeepsSound(WorldAt(run, n - 1), run.actions(n - 1));
    } else {
      SoundInit(run.processEnv, run.epoch);
    }
  }

  /** Under any interleaving every session belongs to an existing user with a verified address. */
  lemma {:induction false} SessionsAreOwned(run: Schedule, n: nat, id: nat)
    requires id in WorldAt(run, n).db.sessions
    ensures var s := WorldAt(run, n).db;
      s.sessions[id].userId in s.users && s.users[s.sessions[id].userId].emailVerifiedAt.Some?
  {
    hide Do;
    SoundAlong(run, n);
    assert OwnerOk(WorldAt(run, n).db, id);
  }

  /** Under any interleaving an access token names the owner of its session, while that session exists. */
  lemma {:induction false} TokensNameOwner(run: Schedule, n: nat, token: AccessToken)
    requires token in WorldAt(run, n).db.issued && token.sessionId in WorldAt(run, n).db.sessions
    ensures WorldAt(run, n).db.sessions[token.sessionId].userId == token.sub
  {
    hide Do;
    SoundAlong(run, n);
    assert TokenOk(WorldAt(run, n).db, token);
  }

  // ----- revocation -----

  /** Drawn, and revoked or deleted by now. */
  predicate Gone(s: State, id: nat) {
    id < s.nextId && (id in s.sessions ==> s.sessions[id].revokedAt.Some?)
  }

  /** The revocation time of a session, once set, is what the row says for as long as the row exists. */
  lemma {:induction false} RevocationStays(run: Schedule, id: nat, i: nat, n: nat)
    requires i <= n && Gone(WorldAt(run, i).db, id)
    ensures Gone(WorldAt(run, n).db, id)
    ensures id in WorldAt(run, n).db.sessions ==>
        id in WorldAt(run, i).db.sessions
        && WorldAt(run, n).db.sessions[id].revokedAt == WorldAt(run, i).db.sessions[id].revokedAt
    decreases n
  {
    hide Do;
    if i < n {
      RevocationStays(run, id, i, n - 1);
      SoundAlong(run, n - 1);
      DoKeepsSession(WorldAt(run, n - 1), run.actions(n - 1), id);
    }
  }

  /**
   * Whatever was in flight when a session was revoked, no later guard lookup finds it: not for any access
   * token, one signed afterwards by a refresh that had read the row before included, and not for any reading
   * of the clock, one from before the revocation included.
   */
  lemma {:induction false} RevocationWins(run: Schedule, id: nat, i: nat, n: nat, token: AccessToken, now: nat)
    requires i <= n && Gone(WorldAt(run, i).db, id) && token.sessionId == id
    ensures !LookupFinds(WorldAt(run, n).db, token, now)
  {
    hide Do;
    RevocationStays(run, id, i, n);
  }

  // ----- an accepted request was looked up before any revocation -----

  predicate HoldsLookup(p: Process, token: AccessToken) {
    (p.LookedUp? || p.Judging? || p.Passed?) && p.token == token
  }

  predicate Finds(w: World, a: Action, pid: nat, token: AccessToken) {
    a == LookUp(pid) && pid in w.processes && w.processes[pid].Verified? && w.processes[pid].token == token
    && LookupFinds(w.db, token, w.processes[pid].now)
  }

  lemma DoGuardStates(w: World, a: Action, pid: nat, token: AccessToken)
    requires pid in Do(w, a).processes && HoldsLookup(Do(w, a).processes[pid], token)
    ensures Finds(w, a, pid, token) || (pid in w.processes && HoldsLookup(w.processes[pid], token))
  {
    hide IsNewestFirst, FindSession, Matches, RevokeAll, TokenOf, Live, InactivityTtlNow, AccessTtl;
  }

  ghost predicate FoundBefore(run: Schedule, pid: nat, n: nat, token: AccessToken) {
    exists j: nat :: j < n && Finds(WorldAt(run, j), run.actions(j), pid, token)
  }

  lemma {:induction false} GuardStates(run: Schedule, pid: nat, n: nat, token: AccessToken)
    requires pid in WorldAt(run, n).processes && HoldsLookup(WorldAt(run, n).processes[pid], token)
    ensures FoundBefore(run, pid, n, token)
  {
    hide Do, HoldsLookup, Finds;
    if n > 0 {
      DoGuardStates(WorldAt(run, n - 1), run.actions(n - 1), pid, token);
      if !Finds(WorldAt(run, n - 1), run.actions(n - 1), pid, token) {
        GuardStates(run, pid, n - 1, token);
        var j: nat :| j < n - 1 && Finds(WorldAt(run, j), run.actions(j), pid, token);
      }
    }
  }

  /**
   * The guard of this process looked the token up at step j, and up to then its session was never revoked or
   * deleted.
   */
  ghost predicate LookedUpAt(run: Schedule, pid: nat, j: nat, n: nat, token: AccessToken) {
    j < n && run.actions(j) == LookUp(pid)
    && forall i: nat | i <= j :: !Gone(WorldAt(run, i).db, token.sessionId)
  }

  /** A request the guard lets through did its lookup at a moment when the session was neither revoked nor deleted. */
  lemma {:induction false} PassedMeansNotYetRevoked(run: Schedule, pid: nat, n: nat)
    requires pid in WorldAt(run, n).processes && WorldAt(run, n).processes[pid].Passed?
    ensures exists j: nat :: LookedUpAt(run, pid, j, n, WorldAt(run, n).processes[pid].token)
  {
    hide Do;
    var token := WorldAt(run, n).processes[pid].token;
    GuardStates(run, pid, n, token);
    var j: nat :| j < n && Finds(WorldAt(run, j), run.actions(j), pid, token);
    assert LookedUpAt(run, pid, j, n, token) by {
      NotGoneUpTo(run, j, token, WorldAt(run, j).processes[pid].now);
    }
  }

  lemma {:induction false} NotGoneUpTo(run: Schedule, j: nat, token: AccessToken, now: nat)
    requires LookupFinds(WorldAt(run, j).db, token, now)
    ensures forall i: nat | i <= j :: !Gone(WorldAt(run, i).db, token.sessionId)
  {
    hide Do;
    forall i: nat | i <= j
      ensures !Gone(WorldAt(run, i).db, token.sessionId)
    {
      if Gone(WorldAt(run, i).db, token.sessionId) {
        RevocationWins(run, token.sessionId, i, j, token, now);
      }
    }
  }

  // ----- without interference the steps add up to the serial calls -----

  /** The steps of a refresh or unlock after its first reading of the clock. */
  function StepOf(pid: nat, order: seq<nat>, k: nat): Action {
    match k
    case 0 => FindSessions(pid, order)
    case 1 => CheckPin(pid)
    case 2 => ReadClock(pid)
    case 3 => CheckInactivity(pid)
    case 4 => ReadPolicy(pid)
    case 5 => WriteSession(pid)
    case _ => SignToken(pid)
  }

  ghost function Rest(w: World, pid: nat, order: seq<nat>, k: nat): World
    decreases 7 - k
  {
    if k >= 7 then w else Rest(Do(w, StepOf(pid, order, k)), pid, order, k + 1)
  }

  function ExtendIf(s: State, id: nat, passes: bool): State {
    if passes && id in s.sessions && s.sessions[id].userId in s.users then Extend(s, id).state else s
  }

  /** What the serial calls leave once the session is found, for a process in one of its stages. */
  function Expected(s: State, p: Process): State {
    match p
    case Found(_, pin, id, row, user, _) =>
      ExtendIf(s, id, Matches(pin, user.pinHash) && ActiveVerified(user) && WithinInactivity(s, row.lastUsedAt))
    case Unlocking(id, row, _) => ExtendIf(s, id, WithinInactivity(s, row.lastUsedAt))
    case Timed(id, row, _, _) => ExtendIf(s, id, WithinInactivity(s, row.lastUsedAt))
    case Admitted(id, _, _, _) => ExtendIf(s, id, true)
    case Priced(id, _, _, _, _, _) => ExtendIf(s, id, true)
    case _ => s
  }

  /** The process holds the rows as they are and the clock as it is. */
  predicate UpToDate(s: State, p: Process) {
    match p
    case Found(_, _, id, row, user, now) => Holds(s, id, row, user) && now == s.clock
    case Unlocking(id, row, user) => Holds(s, id, row, user)
    case Timed(id, row, user, now) => Holds(s, id, row, user) && now == s.clock
    case Admitted(id, row, user, now) => Holds(s, id, row, user) && now == s.clock
    case Priced(id, userId, user, now, ttl, accessTtl) =>
      id in s.sessions && s.sessions[id].userId == userId && userId in s.users && s.users[userId] == user
      && now == s.clock && ttl == InactivityTtlNow(s) && accessTtl == AccessTtl(s)
    case Ended => true
    case _ => false
  }

  predicate Holds(s: State, id: nat, row: Session, user: User) {
    id in s.sessions && s.sessions[id] == row && row.userId in s.users && s.users[row.userId] == user
  }

  /** How many of the steps a process has behind it. */
  function Stage(p: Process): nat {
    match p
    case Asking(_, _, _, _) => 0
    case Found(_, _, _, _, _, _) => 1
    case Unlocking(_, _, _) => 2
    case Timed(_, _, _, _) => 3
    case Admitted(_, _, _, _) => 4
    case Priced(_, _, _, _, _, _) => 5
    case _ => 6
  }

  lemma ReadingStep(w: World, pid: nat, order: seq<nat>, k: nat)
    requires 1 <= k <= 4 && pid in w.processes && UpToDate(w.db, w.processes[pid]) && k <= Stage(w.processes[pid])
    ensures var t := Do(w, StepOf(pid, order, k));
      && t.db == w.db && pid in t.processes && UpToDate(t.db, t.processes[pid])
      && Expected(t.db, t.processes[pid]) == Expected(w.db, w.processes[pid]) && k + 1 <= Stage(t.processes[pid])
  {
    hide IsNewestFirst, FindSession, RevokeAll, InactivityTtlNow, AccessTtl, Extend;
  }

  lemma WritingSteps(w: World, pid: nat)
    requires pid in w.processes && UpToDate(w.db, w.processes[pid]) && 5 <= Stage(w.processes[pid])
    ensures Do(Do(w, WriteSession(pid)), SignToken(pid)).db == Expected(w.db, w.processes[pid])
  {
    hide IsNewestFirst, FindSession, RevokeAll, InactivityTtlNow, AccessTtl;
    var w1 := Do(w, WriteSession(pid));
    if w.processes[pid].Priced? {
      assert w1 == StepWrite(w, pid, w.processes[pid]);
    }
  }

  lemma {:induction false} RestIsExpected(w: World, pid: nat, order: seq<nat>, k: nat)
    requires 1 <= k <= 5 && pid in w.processes && UpToDate(w.db, w.processes[pid]) && k <= Stage(w.processes[pid])
    ensures Rest(w, pid, order, k).db == Expected(w.db, w.processes[pid])
    decreases 5 - k
  {
    hide Do, UpToDate, Expected;
    if k < 5 {
      ReadingStep(w, pid, order, k);
      RestIsExpected(Do(w, StepOf(pid, order, k)), pid, order, k + 1);
    } else {
      WritingSteps(w, pid);
      assert Rest(w, pid, order, 5) == Rest(Do(w, WriteSession(pid)), pid, order, 6);
      assert Rest(w, pid, order, 5) == Do(Do(w, WriteSession(pid)), SignToken(pid));
    }
  }

  lemma FindingStep(w: World, pid: nat, refreshToken: nat, pin: string, kind: Kind, order: seq<nat>)
    requires pid !in w.processes && IsNewestFirst(w.db, order)
    requires forall id | id in w.db.sessions :: w.db.sessions[id].userId in w.db.users
    ensures var t := Do(Do(w, Ask(pid, kind, refreshToken, pin)), FindSessions(pid, order));
      && t.db == w.db && pid in t.processes && UpToDate(t.db, t.processes[pid]) && 1 <= Stage(t.processes[pid])
      && Expected(t.db, t.processes[pid]) == A.UnlockWithPin(w.db, refreshToken, pin, order).state
  {
    hide IsNewestFirst, FindSession, RevokeAll, InactivityTtlNow, AccessTtl, Extend;
    assert AsOf(w.db, w.db.clock) == w.db;
  }

  /** A refresh or unlock whose steps are not interrupted leaves the rows that the serial call leaves. */
  lemma UninterruptedIsSerial(w: World, pid: nat, kind: Kind, refreshToken: nat, pin: string, order: seq<nat>)
    requires pid !in w.processes && IsNewestFirst(w.db, order)
    requires forall id | id in w.db.sessions :: w.db.sessions[id].userId in w.db.users
    ensures Rest(Do(w, Ask(pid, kind, refreshToken, pin)), pid, order, 0).db
         == A.UnlockWithPin(w.db, refreshToken, pin, order).state
         == A.Refresh(w.db, refreshToken, pin, order).state
  {
    hide Do, IsNewestFirst, UpToDate, Expected, Extend, A.UnlockWithPin, A.Refresh;
    T.RefreshAgreesWithUnlock(w.db, refreshToken, pin, order);
    FindingStep(w, pid, refreshToken, pin, kind, order);
    RestIsExpected(Do(Do(w, Ask(pid, kind, refreshToken, pin)), FindSessions(pid, order)), pid, order, 1);
  }
}
