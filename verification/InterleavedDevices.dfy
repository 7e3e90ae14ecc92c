// Biometric logins with every database call and every reading of the clock as a step of its own: how many
// logins can answer one challenge when they overlap.
module InterleavedDevices {
  import opened Wrappers
  import opened Model

  /** A login has read the row of its device, has passed its checks, or has cleared the challenge and is in. */
  datatype Handler =
    | HasRow(device: string, row: Credential, challenge: nat)
    | Proved(device: string, challenge: nat)
    | LoggedIn(device: string, challenge: nat)
    | Ended

  datatype World = World(devices: map<string, Credential>, clock: nat, nextId: nat, handlers: map<nat, Handler>)

  datatype Action =
    | Tick(delay: nat)
    | Read(handler: nat, device: string, challenge: nat)
    | Check(handler: nat, signatureOk: bool)
    | Clear(handler: nat)
    // the last write of a call whose checks do not matter here
    | Issue(device: string)
    | Enrol(device: string, userId: nat, publicKey: string)
    | Change(device: string, enabled: bool)
    | DropDevices(userId: nat)

  function Go(w: World, h: nat, p: Handler): World {
    w.(handlers := w.handlers[h := p])
  }

  /** The checks go by the row read before, and by the clock as it is now. */
  function StepCheck(w: World, h: nat, p: Handler, signatureOk: bool): World
    requires p.HasRow?
  {
    var row := p.row;
    if row.enabled && row.challenge == Some(p.challenge)
       && row.challengeExpiresAt.Some? && row.challengeExpiresAt.value > w.clock && signatureOk
    then Go(w, h, Proved(p.device, p.challenge))
    else Go(w, h, Ended)
  }

  /** The update is by device, whatever challenge the row holds by now. */
  function StepClear(w: World, h: nat, p: Handler): World
    requires p.Proved?
  {
    if p.device !in w.devices then Go(w, h, Ended)
    else
      var row := w.devices[p.device].(challenge := None, challengeExpiresAt := None);
      Go(w.(devices := w.devices[p.device := row]), h, LoggedIn(p.device, p.challenge))
  }

  function Do(w: World, a: Action): World {
    var hs, ds := w.handlers, w.devices;
    match a
    case Tick(delay) => w.(clock := w.clock + delay)
    case Read(h, d, challenge) =>
      if h in hs then w else if d in ds then Go(w, h, HasRow(d, ds[d], challenge)) else Go(w, h, Ended)
    case Check(h, signatureOk) => if h in hs && hs[h].HasRow? then StepCheck(w, h, hs[h], signatureOk) else w
    case Clear(h) => if h in hs && hs[h].Proved? then StepClear(w, h, hs[h]) else w
    case Issue(d) =>
      if d in ds then
        var row := ds[d].(challenge := Some(w.nextId), challengeExpiresAt := Some(w.clock + CHALLENGE_TTL_MS));
        w.(devices := ds[d := row], nextId := w.nextId + 1)
      else w
    case Enrol(d, u, key) =>
      if d in ds && ds[d].userId != u then w else w.(devices := ds[d := Credential(u, key, true, None, None)])
    case Change(d, enabled) =>
      if d in ds then
        w.(devices := ds[d := ds[d].(enabled := enabled, challenge := None, challengeExpiresAt := None)])
      else w
    case DropDevices(u) => w.(devices := map d | d in ds && ds[d].userId != u :: ds[d])
  }

  /** An endless schedule of steps, starting with no devices. */
  datatype Schedule = Schedule(epoch: nat, actions: nat -> Action)

  function WorldAt(run: Schedule, n: nat): World {
    if n == 0 then World(map[], run.epoch, 0, map[]) else Do(WorldAt(run, n - 1), run.actions(n - 1))
  }

  // ----- counting -----

  /** The login has read this challenge from its device's row, answers it, and has not ended. */
  predicate Answering(p: Handler, c: nat) {
    (p.HasRow? && p.row.challenge == Some(c) && p.challenge == c) || (p.Proved? && p.challenge == c)
  }

  /** The logins in flight on a challenge, stopped ones included. */
  function InFlight(w: World, c: nat): set<nat> {
    set h | h in w.handlers && Answering(w.handlers[h], c)
  }

  /** The step clears the device and lets in a login that answers this challenge. */
  predicate LetsIn(w: World, a: Action, c: nat) {
    a.Clear? && a.handler in w.handlers && w.handlers[a.handler].Proved? && w.handlers[a.handler].challenge == c
    && w.handlers[a.handler].device in w.devices
  }

  function One(b: bool): nat {
    if b then 1 else 0
  }

  function Max(a: nat, b: nat): nat {
    if a < b then b else a
  }

  function Logins(run: Schedule, c: nat, n: nat): nat {
    if n == 0 then 0 else Logins(run, c, n - 1) + One(LetsIn(WorldAt(run, n - 1), run.actions(n - 1), c))
  }

  /** The largest number of logins that were in flight on this challenge at once. */
  function Overlap(run: Schedule, c: nat, n: nat): nat {
    if n == 0 then |InFlight(WorldAt(run, 0), c)| else Max(Overlap(run, c, n - 1), |InFlight(WorldAt(run, n), c)|)
  }

  predicate Stored(w: World, d: string, c: nat) {
    d in w.devices && w.devices[d].challenge == Some(c)
  }

  /** A challenge is drawn once, so whoever answers it does so for the device that stores it. */
  predicate Drawn(w: World, c: nat) {
    && (forall d | d in w.devices && w.devices[d].challenge.Some? :: w.devices[d].challenge.value < w.nextId)
    && (forall h | h in w.handlers && Answering(w.handlers[h], c) :: c < w.nextId)
    && (forall d, e | d in w.devices && e in w.devices && Stored(w, d, c) && Stored(w, e, c) :: d == e)
    && (forall h, d | h in w.handlers && d in w.devices && Answering(w.handlers[h], c) && Stored(w, d, c) ::
          w.handlers[h].device == d)
  }

  lemma DrawnStep(w: World, a: Action, c: nat)
    requires Drawn(w, c)
    ensures Drawn(Do(w, a), c)
  {
    hide Do, Drawn, Stored;
    var t := Do(w, a);
    forall d, e | Stored(t, d, c) && Stored(t, e, c)
      ensures d == e
    {
      StoredBefore(w, a, c, d);
      StoredBefore(w, a, c, e);
      DrawnMeans(w, c, d, e);
      DrawnMeans(w, c, e, d);
    }
    forall h, d | h in t.handlers && Answering(t.handlers[h], c) && Stored(t, d, c)
      ensures t.handlers[h].device == d
    {
      StoredBefore(w, a, c, d);
      AnsweringBefore(w, a, c, h);
      DrawnMeans(w, c, d, t.handlers[h].device);
    }
    forall h | h in t.handlers && Answering(t.handlers[h], c)
      ensures c < t.nextId
    {
      AnsweringBefore(w, a, c, h);
      DrawnMeans(w, c, t.handlers[h].device, t.handlers[h].device);
      IdsGrow(w, a);
    }
    StoredIdsDrawn(w, a, c);
    DrawnIs(t, c);
  }

  lemma DrawnMeans(w: World, c: nat, d: string, e: string)
    requires Drawn(w, c)
    ensures Stored(w, d, c) && Stored(w, e, c) ==> d == e
    ensures Stored(w, d, c) ==> c < w.nextId
    ensures forall h | h in w.handlers && Answering(w.handlers[h], c) ::
        c < w.nextId && (Stored(w, d, c) ==> w.handlers[h].device == d)
  {
  }

  lemma DrawnIs(w: World, c: nat)
    requires forall d | d in w.devices && w.devices[d].challenge.Some? :: w.devices[d].challenge.value < w.nextId
    requires forall h | h in w.handlers && Answering(w.handlers[h], c) :: c < w.nextId
    requires forall d, e | Stored(w, d, c) && Stored(w, e, c) :: d == e
    requires forall h, d | h in w.handlers && Answering(w.handlers[h], c) && Stored(w, d, c) ::
        w.handlers[h].device == d
    ensures Drawn(w, c)
  {
  }

  lemma IdsGrow(w: World, a: Action)
    ensures w.nextId <= Do(w, a).nextId
  {
  }

  lemma StoredIdsDrawn(w: World, a: Action, c: nat)
    requires Drawn(w, c)
    ensures var t := Do(w, a);
      forall d | d in t.devices && t.devices[d].challenge.Some? :: t.devices[d].challenge.value < t.nextId
  {
    hide Answering, Stored;
  }

  lemma StoredBefore(w: World, a: Action, c: nat, d: string)
    requires Stored(Do(w, a), d, c)
    ensures Stored(w, d, c) || (c == w.nextId && a == Issue(d))
  {
  }

  lemma AnsweringBefore(w: World, a: Action, c: nat, h: nat)
    requires h in Do(w, a).handlers && Answering(Do(w, a).handlers[h], c)
    ensures var p := Do(w, a).handlers[h];
      || (h in w.handlers && Answering(w.handlers[h], c) && w.handlers[h].device == p.device)
      || (a.Read? && Stored(w, p.device, c) && p.device == a.device)
  {
  }

  /** x logins so far, never more than m in flight at once. */
  predicate Tally(w: World, c: nat, x: nat, m: nat) {
    && Drawn(w, c)
    && (c >= w.nextId ==> x == 0)
    && ((exists d | d in w.devices :: Stored(w, d, c)) ==> x == 0)
    && x + |InFlight(w, c)| <= m
  }

  lemma FlightStep(w: World, a: Action, c: nat)
    ensures LetsIn(w, a, c) ==> a.handler in InFlight(w, c) && InFlight(Do(w, a), c) == InFlight(w, c) - {a.handler}
    ensures InFlight(Do(w, a), c) <= InFlight(w, c)
         || (a.Read? && a.device in w.devices && Stored(w, a.device, c)
             && InFlight(Do(w, a), c) <= InFlight(w, c) + {a.handler})
  {
  }

  /** A login clears the device that stores its challenge. */
  lemma LoginClears(w: World, a: Action, c: nat, d: string)
    requires Drawn(w, c) && LetsIn(w, a, c)
    ensures !Stored(Do(w, a), d, c)
  {
  }

  lemma SubsetSize(a: set<nat>, b: set<nat>)
    requires a <= b
    ensures |a| <= |b|
    decreases b
  {
    if x :| x in a {
      SubsetSize(a - {x}, b - {x});
    }
  }

  lemma TallyStep(w: World, a: Action, c: nat, x: nat, m: nat)
    requires Tally(w, c, x, m)
    ensures var t := Do(w, a); Tally(t, c, x + One(LetsIn(w, a, c)), Max(m, |InFlight(t, c)|))
  {
    hide Do, Drawn, InFlight;
    var t := Do(w, a);
    DrawnStep(w, a, c);
    FlightStep(w, a, c);
    DrawingOn(w, a, c);
    if InFlight(t, c) <= InFlight(w, c) {
      SubsetSize(InFlight(t, c), InFlight(w, c));
    }
    if d :| d in t.devices && Stored(t, d, c) {
      StoredBefore(w, a, c, d);
      if LetsIn(w, a, c) {
        LoginClears(w, a, c, d);
      }
    }
  }

  lemma DrawingOn(w: World, a: Action, c: nat)
    requires Drawn(w, c)
    ensures w.nextId <= Do(w, a).nextId
    ensures LetsIn(w, a, c) ==> c < w.nextId
  {
  }

  lemma {:induction false} TallyAlong(run: Schedule, c: nat, n: nat)
    ensures Tally(WorldAt(run, n), c, Logins(run, c, n), Overlap(run, c, n))
  {
    hide Do, LetsIn, Tally, InFlight;
    if n > 0 {
      TallyAlong(run, c, n - 1);
      TallyStep(WorldAt(run, n - 1), run.actions(n - 1), c, Logins(run, c, n - 1), Overlap(run, c, n - 1));
    } else {
      TallyStart(run.epoch, c);
    }
  }

  lemma TallyStart(epoch: nat, c: nat)
    ensures var w := World(map[], epoch, 0, map[]); Tally(w, c, 0, |InFlight(w, c)|)
  {
  }

  /** Under any interleaving a challenge lets in at most as many logins as were in flight on it at once. */
  lemma {:induction false} OverlapBoundsLogins(run: Schedule, c: nat, n: nat)
    ensures Logins(run, c, n) <= Overlap(run, c, n)
  {
    hide Do;
    TallyAlong(run, c, n);
  }

  // ----- two logins with one challenge -----

  function Twins(k: nat): Action {
    match k
    case 0 => Enrol("phone", 7, "key")
    case 1 => Issue("phone")
    case 2 => Read(0, "phone", 0)
    case 3 => Read(1, "phone", 0)
    case 4 => Check(0, true)
    case 5 => Check(1, true)
    case 6 => Clear(0)
    case _ => Clear(1)
  }

  function Challenged(challenge: Option<nat>, first: Option<Handler>, second: Option<Handler>): World {
    World(map["phone" := Credential(7, "key", true, challenge,
                                    if challenge.Some? then Some(CHALLENGE_TTL_MS) else None)], 0, 1,
          (if first.Some? then map[0 := first.value] else map[])
          + (if second.Some? then map[1 := second.value] else map[]))
  }

  function ReadsIt(): Handler {
    HasRow("phone", Credential(7, "key", true, Some(0), Some(CHALLENGE_TTL_MS)), 0)
  }

  lemma TwinsRead()
    ensures Do(Do(World(map[], 0, 0, map[]), Twins(0)), Twins(1)) == Challenged(Some(0), None, None)
    ensures Do(Challenged(Some(0), None, None), Twins(2)) == Challenged(Some(0), Some(ReadsIt()), None)
    ensures Do(Challenged(Some(0), Some(ReadsIt()), None), Twins(3))
         == Challenged(Some(0), Some(ReadsIt()), Some(ReadsIt()))
  {
  }

  lemma TwinsCheck()
    ensures Do(Challenged(Some(0), Some(ReadsIt()), Some(ReadsIt())), Twins(4))
         == Challenged(Some(0), Some(Proved("phone", 0)), Some(ReadsIt()))
    ensures Do(Challenged(Some(0), Some(Proved("phone", 0)), Some(ReadsIt())), Twins(5))
         == Challenged(Some(0), Some(Proved("phone", 0)), Some(Proved("phone", 0)))
  {
  }

  lemma TwinsClear()
    ensures var w := Challenged(Some(0), Some(Proved("phone", 0)), Some(Proved("phone", 0)));
      Do(w, Twins(6)) == Challenged(None, Some(LoggedIn("phone", 0)), Some(Proved("phone", 0)))
      && LetsIn(w, Twins(6), 0)
    ensures var w := Challenged(None, Some(LoggedIn("phone", 0)), Some(Proved("phone", 0)));
      Do(w, Twins(7)) == Challenged(None, Some(LoggedIn("phone", 0)), Some(LoggedIn("phone", 0)))
      && LetsIn(w, Twins(7), 0)
    ensures Challenged(None, Some(LoggedIn("phone", 0)), Some(LoggedIn("phone", 0))).handlers
         == map[0 := LoggedIn("phone", 0), 1 := LoggedIn("phone", 0)]
  {
  }

  lemma {:induction false} TwinsUpToChecks()
    ensures var run := Schedule(0, Twins);
      WorldAt(run, 6) == Challenged(Some(0), Some(Proved("phone", 0)), Some(Proved("phone", 0)))
  {
    hide Do, Challenged, ReadsIt;
    var run := Schedule(0, Twins);
    TwinsRead();
    TwinsCheck();
    assert WorldAt(run, 1) == Do(WorldAt(run, 0), Twins(0));
    assert WorldAt(run, 2) == Do(WorldAt(run, 1), Twins(1));
    assert WorldAt(run, 3) == Do(WorldAt(run, 2), Twins(2));
    assert WorldAt(run, 4) == Do(WorldAt(run, 3), Twins(3));
    assert WorldAt(run, 5) == Do(WorldAt(run, 4), Twins(4));
  }

  /** From no devices: two overlapping logins read one challenge before either clears it, and both are let in. */
  lemma {:induction false} TwoLoginsAnswerOneChallenge()
    ensures var run := Schedule(0, Twins);
      && Logins(run, 0, 8) >= 2
      && WorldAt(run, 8).handlers == map[0 := LoggedIn("phone", 0), 1 := LoggedIn("phone", 0)]
  {
    hide Do, Challenged, LetsIn;
    var run := Schedule(0, Twins);
    TwinsUpToChecks();
    TwinsClear();
    assert WorldAt(run, 7) == Do(WorldAt(run, 6), Twins(6));
    assert WorldAt(run, 8) == Do(WorldAt(run, 7), Twins(7));
    assert Logins(run, 0, 7) == Logins(run, 0, 6) + 1;
  }
}
