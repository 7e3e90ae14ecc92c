// The page of fifty that refresh and unlock look through, against a lookup in the whole table.
module ScanTheorems {
  import opened Wrappers
  import opened SessionPolicy
  import opened Model
  import opened AuthCalls
  import A = AuthCalls
  import opened Machine
  import opened Invariants

  /** refresh and unlockWithPin check in a different order, but succeed together and leave the same rows. */
  lemma {:induction false} ScanAgreesWithFind(s: State, refreshToken: nat, pin: string, page: seq<nat>)
    ensures var o, found := RefreshScan(s, refreshToken, pin, page), FindSession(s, refreshToken, page);
      if found.None? then o == Fail(s, InvalidRefreshToken)
      else o == RefreshScan(s, refreshToken, pin, [found.value])
  {
    hide Seconds, ActiveVerified, WithinInactivity, Matches, Extend;
    if page != [] {
      ScanAgreesWithFind(s, refreshToken, pin, page[1..]);
      assert RefreshScan(s, refreshToken, pin, []) == Fail(s, InvalidRefreshToken);
    }
  }

  predicate HoldsToken(s: State, refreshToken: nat, id: nat) {
    id in s.sessions && s.sessions[id].refreshHash == refreshToken
  }

  /** The lookup returns the first match of the page, and nothing only if there is none. */
  lemma {:induction false} FoundIsFirst(s: State, refreshToken: nat, page: seq<nat>, k: nat)
    requires k <= |page| && forall j | 0 <= j < k :: !HoldsToken(s, refreshToken, page[j])
    requires k < |page| ==> HoldsToken(s, refreshToken, page[k])
    ensures FindSession(s, refreshToken, page) == if k < |page| then Some(page[k]) else None
  {
    if k > 0 {
      assert !HoldsToken(s, refreshToken, page[0]);
      assert forall j | 0 <= j < k - 1 :: page[1..][j] == page[j + 1];
      FoundIsFirst(s, refreshToken, page[1..], k - 1);
    }
  }

  lemma RefreshAgreesWithUnlock(s: State, refreshToken: nat, pin: string, order: seq<nat>)
    ensures var r, u := A.Refresh(s, refreshToken, pin, order), A.UnlockWithPin(s, refreshToken, pin, order);
      && r.state == u.state && r.event == u.event
      && (r.reply.Tokens? || u.reply.Tokens? ==> r.reply == u.reply)
  {
    hide Seconds;
    ScanAgreesWithFind(s, refreshToken, pin, Page(order));
  }

  /** Position of a live session in the newest-first order: the number of live sessions that precede it. */
  ghost predicate At(order: seq<nat>, id: nat, k: nat) {
    k < |order| && order[k] == id
  }

  lemma {:induction false} FindsOnlyMatch(s: State, refreshToken: nat, page: seq<nat>, id: nat)
    requires id in s.sessions && s.sessions[id].refreshHash == refreshToken
    requires forall other | other in s.sessions && s.sessions[other].refreshHash == refreshToken :: other == id
    ensures FindSession(s, refreshToken, page) == if id in page then Some(id) else None
  {
    if page != [] {
      FindsOnlyMatch(s, refreshToken, page[1..], id);
    }
  }

  /**
   * In every reachable state and for every order the database may return, the scan finds the live session of
   * a refresh token if and only if fewer than fifty live sessions, of any user, precede it.
   */
  lemma {:induction false} TruncatedScanFinds(run: Run, n: nat, order: seq<nat>, id: nat, k: nat)
    requires IsNewestFirst(ServedIn(run, n), order) && At(order, id, k)
    ensures var s := ServedIn(run, n);
      id in s.sessions
      && FindSession(s, s.sessions[id].refreshHash, Page(order)) == if k < 50 then Some(id) else None
  {
    hide Dispatch, Inv;
    var s := ServedIn(run, n);
    Reachable(run, n);
    InvParts(s);
    assert order[k] in order && Live(s, id);
    FindsOnlyMatch(s, s.sessions[id].refreshHash, Page(order), id);
    if k < SCAN_LIMIT {
      assert Page(order)[k] == id;
    }
  }

  ghost function LiveSince(s: State, id: nat, strictly: bool): set<nat>
    requires id in s.sessions
  {
    set other | other in s.sessions && Live(s, other) && other != id
      && s.sessions[other].createdAt >= s.sessions[id].createdAt + (if strictly then 1 else 0)
  }

  lemma {:induction false} PrefixSize(order: seq<nat>, k: nat)
    requires k <= |order| && forall i, j | 0 <= i < j < |order| :: order[i] != order[j]
    ensures |set i | 0 <= i < k :: order[i]| == k
  {
    if k > 0 {
      PrefixSize(order, k - 1);
      assert (set i | 0 <= i < k :: order[i]) == (set i | 0 <= i < k - 1 :: order[i]) + {order[k - 1]};
    }
  }

  lemma SubsetSize(a: set<nat>, b: set<nat>)
    requires a <= b
    ensures |a| <= |b|
    decreases b
  {
    if x :| x in a {
      SubsetSize(a - {x}, b - {x});
    }
  }

  /**
   * Without reference to how ties are broken: with fifty strictly newer live sessions the token is never found,
   * with fewer than fifty that are at least as new it always is.
   */
  lemma {:induction false} ScanBounds(run: Run, n: nat, order: seq<nat>, id: nat)
    requires IsNewestFirst(ServedIn(run, n), order) && Live(ServedIn(run, n), id)
    ensures var s := ServedIn(run, n);
      var found := FindSession(s, s.sessions[id].refreshHash, Page(order));
      && (|LiveSince(s, id, true)| >= 50 ==> found == None)
      && (|LiveSince(s, id, false)| < 50 ==> found == Some(id))
  {
    hide Dispatch, Inv;
    var s := ServedIn(run, n);
    var k :| 0 <= k < |order| && order[k] == id;
    TruncatedScanFinds(run, n, order, id, k);
    PrecedingCounts(s, order, id, k);
  }

  lemma PrecedingCounts(s: State, order: seq<nat>, id: nat, k: nat)
    requires IsNewestFirst(s, order) && At(order, id, k) && id in s.sessions
    ensures |LiveSince(s, id, true)| <= k <= |LiveSince(s, id, false)|
  {
    var before := set i | 0 <= i < k :: order[i];
    PrefixSize(order, k);
    assert LiveSince(s, id, true) <= before by {
      forall other | other in LiveSince(s, id, true)
        ensures other in before
      {
        var i :| 0 <= i < |order| && order[i] == other;
        assert Live(s, order[i]) && Live(s, order[k]);
      }
    }
    assert before <= LiveSince(s, id, false) by {
      forall i | 0 <= i < k
        ensures order[i] in LiveSince(s, id, false)
      {
        assert order[i] in order && order[k] in order;
      }
    }
    SubsetSize(LiveSince(s, id, true), before);
    SubsetSize(before, LiveSince(s, id, false));
  }
}
