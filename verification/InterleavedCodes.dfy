// One-time codes with every database call and every reading of the clock as a step of its own: how often one
// code can be compared and accepted when the requests that enter it overlap.
module InterleavedCodes {
  import opened Wrappers
  import opened Text
  import opened Model
  import opened AuthCalls

  /** Where a request stands: it has read the clock, it is past the attempts check, or it is about to add a code. */
  datatype Handler =
    | Reading(userId: nat, purpose: Purpose, text: string, now: nat)
    | Holding(otp: nat, matches: bool)
    | Issuing(userId: nat, purpose: Purpose, code: string)
    | Ended

  datatype World = World(otps: map<nat, Otp>, clock: nat, nextId: nat, handlers: map<nat, Handler>)

  /** `found` is the database's answer to the query, `at` and `now` are earlier readings of the clock. */
  datatype Action =
    | Tick(delay: nat)
    | Begin(handler: nat, userId: nat, purpose: Purpose, text: string)
    | Query(handler: nat, found: Option<nat>)
    | Write(handler: nat, at: nat)
    | ConsumeAll(handler: nat, userId: nat, purpose: Purpose, code: string, at: nat)
    | Create(handler: nat, now: nat)
    | DropUser(userId: nat)

  /** A row the query of a request may answer with: outstanding, unexpired at its reading, and newest. */
  predicate Answers(w: World, p: Handler, id: nat)
    requires p.Reading?
  {
    && Selected(w, p, id)
    && forall other | other in w.otps && Selected(w, p, other) :: w.otps[other].createdAt <= w.otps[id].createdAt
  }

  predicate Selected(w: World, p: Handler, id: nat)
    requires p.Reading?
  {
    id in w.otps && Unconsumed(w.otps[id], p.userId, p.purpose) && w.otps[id].expiresAt > p.now
  }

  function Go(w: World, h: nat, p: Handler): World {
    w.(handlers := w.handlers[h := p])
  }

  function StepQuery(w: World, h: nat, p: Handler, found: Option<nat>): World
    requires p.Reading?
  {
    match found
    case None => if exists id | id in w.otps :: Selected(w, p, id) then w else Go(w, h, Ended)
    case Some(id) =>
      if !Answers(w, p, id) then w
      else if w.otps[id].attempts >= OTP_MAX_ATTEMPTS then Go(w, h, Ended)
      else Go(w, h, Holding(id, Matches(Trim(p.text), w.otps[id].codeHash)))
  }

  /** Both updates are by id: `attempts: { increment: 1 }`, or the time of consumption. */
  function StepWrite(w: World, h: nat, p: Handler, at: nat): World
    requires p.Holding?
  {
    if p.otp !in w.otps then Go(w, h, Ended)
    else
      var otp := w.otps[p.otp];
      var otp1 := if p.matches then otp.(consumedAt := Some(at)) else otp.(attempts := otp.attempts + 1);
      Go(w.(otps := w.otps[p.otp := otp1]), h, Ended)
  }

  function Do(w: World, a: Action): World {
    var hs := w.handlers;
    match a
    case Tick(delay) => w.(clock := w.clock + delay)
    case Begin(h, u, purpose, text) => if h in hs then w else Go(w, h, Reading(u, purpose, text, w.clock))
    case Query(h, found) => if h in hs && hs[h].Reading? then StepQuery(w, h, hs[h], found) else w
    case Write(h, at) => if h in hs && hs[h].Holding? then StepWrite(w, h, hs[h], at) else w
    case ConsumeAll(h, u, purpose, code, at) =>
      if h in hs then w
      else Go(w.(otps := ConsumeOutstanding(w.otps, u, purpose, at)), h, Issuing(u, purpose, code))
    case Create(h, now) =>
      if h in hs && hs[h].Issuing? then
        var otp := Otp(hs[h].userId, hs[h].purpose, hs[h].code, w.clock, now + OTP_TTL_MS, None, 0);
        Go(w.(otps := w.otps[w.nextId := otp], nextId := w.nextId + 1), h, Ended)
      else w
    case DropUser(u) => w.(otps := map id | id in w.otps && w.otps[id].userId != u :: w.otps[id])
  }

  /** An endless schedule of steps, starting with no codes. */
  datatype Schedule = Schedule(epoch: nat, actions: nat -> Action)

  function WorldAt(run: Schedule, n: nat): World {
    if n == 0 then World(map[], run.epoch, 0, map[]) else Do(WorldAt(run, n - 1), run.actions(n - 1))
  }

  // ----- counting -----

  predicate HoldsCode(w: World, h: nat, id: nat) {
    h in w.handlers && w.handlers[h].Holding? && w.handlers[h].otp == id
  }

  /** The requests past the attempts check of a code that have not written yet, stopped ones included. */
  function InFlight(w: World, id: nat): set<nat> {
    set h | h in w.handlers && HoldsCode(w, h, id)
  }

  /** The step takes a request past the attempts check of this code. */
  predicate Compares(w: World, a: Action, id: nat) {
    a.Query? && !HoldsCode(w, a.handler, id) && HoldsCode(Do(w, a), a.handler, id)
  }

  /** The step records that this code was accepted. */
  predicate Accepts(w: World, a: Action, id: nat) {
    a.Write? && HoldsCode(w, a.handler, id) && w.handlers[a.handler].matches && id in w.otps
  }

  function One(b: bool): nat {
    if b then 1 else 0
  }

  function Max(a: nat, b: nat): nat {
    if a < b then b else a
  }

  function Comparisons(run: Schedule, id: nat, n: nat): nat {
    if n == 0 then 0 else Comparisons(run, id, n - 1) + One(Compares(WorldAt(run, n - 1), run.actions(n - 1), id))
  }

  function Acceptances(run: Schedule, id: nat, n: nat): nat {
    if n == 0 then 0 else Acceptances(run, id, n - 1) + One(Accepts(WorldAt(run, n - 1), run.actions(n - 1), id))
  }

  /** The largest number of requests that were in flight on this code at once. */
  function Overlap(run: Schedule, id: nat, n: nat): nat {
    if n == 0 then |InFlight(WorldAt(run, 0), id)| else Max(Overlap(run, id, n - 1), |InFlight(WorldAt(run, n), id)|)
  }

  // ----- the bound -----

  /** c comparisons and x acceptances so far, never more than m in flight at once. */
  predicate Tally(w: World, id: nat, c: nat, x: nat, m: nat) {
    && (forall k | k in w.otps :: k < w.nextId)
    && (id >= w.nextId ==> c == x == 0 && InFlight(w, id) == {})
    && (id in w.otps && w.otps[id].consumedAt.None? ==> c == w.otps[id].attempts + |InFlight(w, id)| && x == 0)
    && c <= OTP_MAX_ATTEMPTS - 1 + m
    && x + |InFlight(w, id)| <= m
  }

  /** What one step does to the requests in flight on a code. */
  lemma FlightStep(w: World, a: Action, id: nat)
    ensures InFlight(Do(w, a), id) ==
      if Compares(w, a, id) then InFlight(w, id) + {a.handler}
      else if a.Write? && HoldsCode(w, a.handler, id) then InFlight(w, id) - {a.handler}
      else InFlight(w, id)
  {
    hide Answers, Selected, Matches, Trim;
    assert forall h :: HoldsCode(Do(w, a), h, id) <==>
      (HoldsCode(w, h, id) && !(a.Write? && a.handler == h)) || (Compares(w, a, id) && a.handler == h);
  }

  /** What one step does to the row of a code. */
  lemma RowStep(w: World, a: Action, id: nat)
    requires forall k | k in w.otps :: k < w.nextId
    ensures var t := Do(w, a);
      && w.nextId <= t.nextId && (forall k | k in t.otps :: k < t.nextId)
      && (id in t.otps && t.otps[id].consumedAt.None? ==>
            if id in w.otps then
              w.otps[id].consumedAt.None? && !Accepts(w, a, id)
              && t.otps[id].attempts == w.otps[id].attempts + One(a.Write? && HoldsCode(w, a.handler, id))
            else id == w.nextId < t.nextId && t.otps[id].attempts == 0 && a.Create?)
  {
    hide Answers, Selected, Matches, Trim;
  }

  /** A request gets past the check only while the code is outstanding and has attempts left. */
  lemma CheckPassed(w: World, a: Action, id: nat)
    requires Compares(w, a, id)
    ensures id in w.otps && w.otps[id].consumedAt.None? && w.otps[id].attempts <= OTP_MAX_ATTEMPTS - 1
    ensures a.handler !in InFlight(w, id) && Do(w, a).otps == w.otps && Do(w, a).nextId == w.nextId
  {
    hide Matches, Trim;
  }

  lemma TallyStep(w: World, a: Action, id: nat, c: nat, x: nat, m: nat)
    requires Tally(w, id, c, x, m)
    ensures var t := Do(w, a);
      Tally(t, id, c + One(Compares(w, a, id)), x + One(Accepts(w, a, id)), Max(m, |InFlight(t, id)|))
  {
    hide Do, Compares;
    FlightStep(w, a, id);
    RowStep(w, a, id);
    if Compares(w, a, id) {
      CheckPassed(w, a, id);
    }
    assert a.Write? && HoldsCode(w, a.handler, id) ==> a.handler in InFlight(w, id);
    OtherwiseNothing(w, a, id);
  }

  /** Only queries compare, and only writes accept. */
  lemma OtherwiseNothing(w: World, a: Action, id: nat)
    ensures !a.Query? ==> !Compares(w, a, id)
    ensures !a.Write? ==> !Accepts(w, a, id)
  {
  }

  lemma {:induction false} TallyAlong(run: Schedule, id: nat, n: nat)
    ensures Tally(WorldAt(run, n), id, Comparisons(run, id, n), Acceptances(run, id, n), Overlap(run, id, n))
  {
    hide Do, Compares, Accepts, InFlight, Tally;
    if n > 0 {
      TallyAlong(run, id, n - 1);
      TallyStep(WorldAt(run, n - 1), run.actions(n - 1), id,
        Comparisons(run, id, n - 1), Acceptances(run, id, n - 1), Overlap(run, id, n - 1));
    } else {
      TallyStart(run.epoch, id);
    }
  }

  lemma TallyStart(epoch: nat, id: nat)
    ensures var w := World(map[], epoch, 0, map[]); Tally(w, id, 0, 0, |InFlight(w, id)|)
  {
  }

  /**
   * Under any interleaving, with at most m requests in flight on a code at once, the code is compared at most
   * 4 + m times and accepted at most m times; with one at a time that is five comparisons and one use.
   */
  lemma {:induction false} OverlapBoundsGuesses(run: Schedule, id: nat, n: nat)
    ensures Comparisons(run, id, n) <= 4 + Overlap(run, id, n)
    ensures Acceptances(run, id, n) <= Overlap(run, id, n)
  {
    hide Do;
    TallyAlong(run, id, n);
  }

  // ----- the bound is reached -----

  /**
   * One code; four wrong guesses, one after the other; then m requests with the right text pass the check before
   * any of them writes, and all write.
   */
  function Crowd(m: nat, k: nat): Action {
    if k == 0 then ConsumeAll(0, 7, EmailVerification, "111111", 0)
    else if k == 1 then Create(0, 0)
    else if k < 14 then
      var h := 1 + (k - 2) / 3;
      match (k - 2) % 3
      case 0 => Begin(h, 7, EmailVerification, "000000")
      case 1 => Query(h, Some(0))
      case _ => Write(h, 0)
    else if k < 14 + 2 * m then
      var h := 5 + (k - 14) / 2;
      if (k - 14) % 2 == 0 then Begin(h, 7, EmailVerification, "111111") else Query(h, Some(0))
    else Write(5 + (k - 14 - 2 * m), 0)
  }

  function CrowdSchedule(m: nat): Schedule {
    Schedule(0, (k: nat) => Crowd(m, k))
  }

  /** The first `ended` requests have ended, the next `holding` ones are past the check with the right text. */
  function Handlers(ended: nat, holding: nat): map<nat, Handler> {
    map h: nat | h < ended + holding :: HandlerAt(ended, h)
  }

  function HandlerAt(ended: nat, h: nat): Handler {
    if h < ended then Ended else Holding(0, true)
  }

  /** One step of a schedule, with what it adds to the counts. */
  lemma CountStep(m: nat, k: nat, w: World, a: Action)
    requires var run := CrowdSchedule(m); WorldAt(run, k) == w && run.actions(k) == a
    ensures var run := CrowdSchedule(m);
      && WorldAt(run, k + 1) == Do(w, a)
      && Comparisons(run, 0, k + 1) == Comparisons(run, 0, k) + One(Compares(w, a, 0))
      && Acceptances(run, 0, k + 1) == Acceptances(run, 0, k) + One(Accepts(w, a, 0))
      && Overlap(run, 0, k + 1) == Max(Overlap(run, 0, k), |InFlight(Do(w, a), 0)|)
    ensures !a.Query? ==> !Compares(w, a, 0)
    ensures !a.Write? ==> !Accepts(w, a, 0)
  {
    hide Do, InFlight, Crowd;
    OtherwiseNothing(w, a, 0);
  }

  function CrowdWorld(ended: nat, holding: nat, attempts: nat, consumedAt: Option<nat>): World {
    World(map[0 := Otp(7, EmailVerification, "111111", 0, OTP_TTL_MS, consumedAt, attempts)], 0, 1,
          Handlers(ended, holding))
  }

  lemma {:induction false} IntervalSize(s: set<nat>, a: nat, b: nat)
    requires a <= b && forall h :: h in s <==> a <= h < b
    ensures |s| == b - a
    decreases b - a
  {
    if a < b {
      IntervalSize(s - {b - 1}, a, b - 1);
    } else {
      assert s == {};
    }
  }

  lemma CrowdInFlight(ended: nat, holding: nat, attempts: nat, consumedAt: Option<nat>)
    ensures |InFlight(CrowdWorld(ended, holding, attempts, consumedAt), 0)| == holding
  {
    IntervalSize(InFlight(CrowdWorld(ended, holding, attempts, consumedAt), 0), ended, ended + holding);
  }

  /** A request with this text reads the clock and passes the check. */
  lemma Passes(ended: nat, holding: nat, attempts: nat, text: string)
    requires attempts < OTP_MAX_ATTEMPTS
    ensures var w, h := CrowdWorld(ended, holding, attempts, None), ended + holding;
      var w1 := Do(w, Begin(h, 7, EmailVerification, text));
      && Do(w1, Query(h, Some(0))) == Go(w, h, Holding(0, Matches(Trim(text), "111111")))
      && InFlight(w1, 0) == InFlight(w, 0) && Compares(w1, Query(h, Some(0)), 0)
  {
    hide Matches, Trim;
    var w, h := CrowdWorld(ended, holding, attempts, None), ended + holding;
    var w1 := Do(w, Begin(h, 7, EmailVerification, text));
    assert w1.handlers[h] == Reading(7, EmailVerification, text, 0);
    assert Answers(w1, w1.handlers[h], 0);
    assert w1.handlers[h := Holding(0, Matches(Trim(text), "111111"))]
        == w.handlers[h := Holding(0, Matches(Trim(text), "111111"))];
  }

  lemma NextHandlers(ended: nat, holding: nat)
    ensures Handlers(ended, holding)[ended + holding := Holding(0, true)] == Handlers(ended, holding + 1)
    ensures Handlers(ended, 0)[ended := Ended] == Handlers(ended + 1, 0)
    ensures holding > 0 ==> Handlers(ended, holding)[ended := Ended] == Handlers(ended + 1, holding - 1)
  {
  }

  lemma WrongGuess(j: nat)
    requires j < 4
    ensures var w := CrowdWorld(j + 1, 0, j, None);
      var w1 := Do(w, Begin(j + 1, 7, EmailVerification, "000000"));
      var w2 := Do(w1, Query(j + 1, Some(0)));
      && InFlight(w1, 0) == InFlight(w, 0) && Compares(w1, Query(j + 1, Some(0)), 0)
      && |InFlight(w2, 0)| == 1 && !Accepts(w2, Write(j + 1, 0), 0)
      && Do(w2, Write(j + 1, 0)) == CrowdWorld(j + 2, 0, j + 1, None)
  {
    hide Do, Trim, Compares, Handlers, Answers, Selected, InFlight, Matches;
    TrimOfDigits("000000");
    assert !Matches("000000", "111111") by { TextsDiffer(); }
    Passes(j + 1, 0, j, "000000");
    FailEnds(j + 1, j);
    NextHandlers(j + 1, 0);
  }

  lemma TextsDiffer()
    ensures !Matches("000000", "111111")
  {
    assert "000000"[0] != "111111"[0];
  }

  lemma FailEnds(ended: nat, attempts: nat)
    ensures var w := CrowdWorld(ended, 0, attempts, None);
      var w2 := Go(w, ended, Holding(0, false));
      && |InFlight(w2, 0)| == 1 && !Accepts(w2, Write(ended, 0), 0)
      && Do(w2, Write(ended, 0))
         == CrowdWorld(0, 0, attempts + 1, None).(handlers := w.handlers[ended := Ended])
  {
    hide Matches, Trim, Answers, Selected;
    var w := CrowdWorld(ended, 0, attempts, None);
    var w2 := Go(w, ended, Holding(0, false));
    assert Do(w2, Write(ended, 0)) == StepWrite(w2, ended, Holding(0, false), 0);
    assert w.handlers[ended := Holding(0, false)][ended := Ended] == w.handlers[ended := Ended];
    assert InFlight(w2, 0) == {ended};
  }

  lemma {:induction false} SerialPhase(m: nat, j: nat)
    requires j <= 4
    ensures var run := CrowdSchedule(m);
      && WorldAt(run, 2 + 3 * j) == CrowdWorld(j + 1, 0, j, None)
      && Comparisons(run, 0, 2 + 3 * j) == j && Acceptances(run, 0, 2 + 3 * j) == 0 && Overlap(run, 0, 2 + 3 * j) <= 1
  {
    hide Do, InFlight, Compares, Accepts, CrowdWorld, Comparisons, Acceptances, Overlap, WorldAt;
    if j == 0 {
      CodeIssued(m);
    } else {
      SerialPhase(m, j - 1);
      WrongGuess(j - 1);
      CrowdInFlight(j, 0, j - 1, None);
      CrowdInFlight(j + 1, 0, j, None);
      var k, w := 2 + 3 * (j - 1), CrowdWorld(j, 0, j - 1, None);
      var start, query, write := Begin(j, 7, EmailVerification, "000000"), Query(j, Some(0)), Write(j, 0);
      CountStep(m, k, w, start);
      CountStep(m, k + 1, Do(w, start), query);
      CountStep(m, k + 2, Do(Do(w, start), query), write);
    }
  }

  lemma {:induction false} CodeIssued(m: nat)
    ensures var run := CrowdSchedule(m);
      WorldAt(run, 2) == CrowdWorld(1, 0, 0, None)
      && Comparisons(run, 0, 2) == Acceptances(run, 0, 2) == Overlap(run, 0, 2) == 0
  {
    var run := CrowdSchedule(m);
    var w1 := Do(WorldAt(run, 0), Crowd(m, 0));
    assert WorldAt(run, 1) == w1;
    assert ConsumeOutstanding(map[], 7, EmailVerification, 0) == map[];
    assert WorldAt(run, 2) == Do(w1, Crowd(m, 1));
    assert Do(w1, Crowd(m, 1)).handlers == Handlers(1, 0);
    assert InFlight(WorldAt(run, 0), 0) == InFlight(w1, 0) == InFlight(CrowdWorld(1, 0, 0, None), 0) == {};
    assert Comparisons(run, 0, 1) == Acceptances(run, 0, 1) == Overlap(run, 0, 1) == 0;
  }

  lemma Joins(j: nat)
    ensures var w := CrowdWorld(5, j, 4, None);
      var w1 := Do(w, Begin(5 + j, 7, EmailVerification, "111111"));
      && InFlight(w1, 0) == InFlight(w, 0) && Compares(w1, Query(5 + j, Some(0)), 0)
      && Do(w1, Query(5 + j, Some(0))) == CrowdWorld(5, j + 1, 4, None)
  {
    hide Do, Trim, Compares;
    TrimOfDigits("111111");
    Passes(5, j, 4, "111111");
    NextHandlers(5, j);
  }

  lemma {:induction false} OverlapPhase(m: nat, j: nat)
    requires j <= m
    ensures var run := CrowdSchedule(m);
      && WorldAt(run, 14 + 2 * j) == CrowdWorld(5, j, 4, None)
      && Comparisons(run, 0, 14 + 2 * j) == 4 + j && Acceptances(run, 0, 14 + 2 * j) == 0
      && j <= Overlap(run, 0, 14 + 2 * j) <= Max(1, j)
  {
    hide Do, InFlight, Compares, Accepts, CrowdWorld, Comparisons, Acceptances, Overlap, WorldAt;
    if j == 0 {
      SerialPhase(m, 4);
    } else {
      OverlapPhase(m, j - 1);
      Joins(j - 1);
      CrowdInFlight(5, j - 1, 4, None);
      CrowdInFlight(5, j, 4, None);
      var k, w := 14 + 2 * (j - 1), CrowdWorld(5, j - 1, 4, None);
      var start, query := Begin(4 + j, 7, EmailVerification, "111111"), Query(4 + j, Some(0));
      CountStep(m, k, w, start);
      CountStep(m, k + 1, Do(w, start), query);
    }
  }

  lemma Leaves(ended: nat, holding: nat, consumedAt: Option<nat>)
    requires holding > 0
    ensures var w := CrowdWorld(ended, holding, 4, consumedAt);
      Accepts(w, Write(ended, 0), 0) && Do(w, Write(ended, 0)) == CrowdWorld(ended + 1, holding - 1, 4, Some(0))
  {
    hide Do, Accepts, Handlers;
    WriteEnds(ended, holding, 4, consumedAt);
    NextHandlers(ended, holding);
  }

  lemma WriteEnds(ended: nat, holding: nat, attempts: nat, consumedAt: Option<nat>)
    requires holding > 0
    ensures var w := CrowdWorld(ended, holding, attempts, consumedAt);
      Accepts(w, Write(ended, 0), 0)
      && Do(w, Write(ended, 0)) == CrowdWorld(0, 0, attempts, Some(0)).(handlers := w.handlers[ended := Ended])
  {
    hide Matches, Trim, Answers, Selected;
    var w := CrowdWorld(ended, holding, attempts, consumedAt);
    assert w.handlers[ended] == Holding(0, true);
    assert Do(w, Write(ended, 0)) == StepWrite(w, ended, Holding(0, true), 0);
  }

  lemma {:induction false} WritePhase(m: nat, j: nat)
    requires 1 <= m && j <= m
    ensures var run := CrowdSchedule(m);
      && WorldAt(run, 14 + 2 * m + j) == CrowdWorld(5 + j, m - j, 4, if j == 0 then None else Some(0))
      && Comparisons(run, 0, 14 + 2 * m + j) == 4 + m && Acceptances(run, 0, 14 + 2 * m + j) == j
      && Overlap(run, 0, 14 + 2 * m + j) == m
  {
    hide Do, InFlight, Compares, Accepts, CrowdWorld, Comparisons, Acceptances, Overlap, WorldAt;
    if j == 0 {
      OverlapPhase(m, m);
    } else {
      WritePhase(m, j - 1);
      Leaves(4 + j, m - j + 1, if j == 1 then None else Some(0));
      CrowdInFlight(5 + j, m - j, 4, Some(0));
      var w := CrowdWorld(4 + j, m - j + 1, 4, if j == 1 then None else Some(0));
      CountStep(m, 14 + 2 * m + (j - 1), w, Write(4 + j, 0));
    }
  }

  /** For every m there is a schedule that reaches both bounds. */
  lemma {:induction false} BoundsAreReached(m: nat)
    requires 1 <= m
    ensures var run, n := CrowdSchedule(m), 14 + 3 * m;
      Overlap(run, 0, n) == m && Comparisons(run, 0, n) == 4 + m && Acceptances(run, 0, n) == m
  {
    hide Do;
    WritePhase(m, m);
  }
}
