/** The match attempt in place (src/engine/matcher.rs): objects, loops and state changes,
    proved to compute `MatcherSpec`. */
module Matcher {
  import opened Basics
  import opened Records
  import opened Models
  import opened Orders
  import opened Configuration
  import opened Relaxation
  import opened Balancer
  import opened QueueSpec
  import opened Bucket
  import opened MatcherSpec

  /** The shared counters. */
  class Metrics {
    var totalPlayersEnqueued: nat
    var totalPlayersCancelled: nat
    var totalMatchesCreated: nat
    var totalPlayersMatched: nat
    var matchAttemptsInsufficient: nat
    var matchAttemptsClaimFailed: nat
    var workerCyclesTotal: nat
    var totalStaleClaimsRecovered: nat
    var currentQueueSize: int
    var totalWaitTimeMs: nat
    var skillSpreadSum: nat
    var skillSpreadCount: nat
    var teamDeltaSum: nat
    var teamDeltaCount: nat

    constructor ()
      ensures View() == MetricValues(0, 0, 0, 0, 0, 0, 0, 0, 0, 0, 0, 0, 0, 0)
    {
      totalPlayersEnqueued, totalPlayersCancelled, totalMatchesCreated, totalPlayersMatched := 0, 0, 0, 0;
      matchAttemptsInsufficient, matchAttemptsClaimFailed, workerCyclesTotal := 0, 0, 0;
      totalStaleClaimsRecovered, currentQueueSize, totalWaitTimeMs := 0, 0, 0;
      skillSpreadSum, skillSpreadCount, teamDeltaSum, teamDeltaCount := 0, 0, 0, 0;
    }

    function View(): MetricValues
      reads this
    {
      MetricValues(totalPlayersEnqueued, totalPlayersCancelled, totalMatchesCreated, totalPlayersMatched,
                   matchAttemptsInsufficient, matchAttemptsClaimFailed, workerCyclesTotal,
                   totalStaleClaimsRecovered, currentQueueSize, totalWaitTimeMs,
                   skillSpreadSum, skillSpreadCount, teamDeltaSum, teamDeltaCount)
    }

    /** Every counter, and the averages computed from the sums. */
    method Snapshot() returns (s: MetricsSnapshot)
      ensures s == SnapshotOf(View())
    {
      var avgWaitMs := CheckedDiv(totalWaitTimeMs, totalPlayersMatched);
      var avgSkillSpread := CheckedDiv(skillSpreadSum, skillSpreadCount);
      var avgTeamDelta := CheckedDiv(teamDeltaSum, teamDeltaCount);
      s := MetricsSnapshot(View(), avgWaitMs, avgSkillSpread, avgTeamDelta);
    }

    method RecordEnqueue()
      modifies this
      ensures View() == CountEnqueue(old(View()))
    {
      totalPlayersEnqueued := totalPlayersEnqueued + 1;
      currentQueueSize := currentQueueSize + 1;
    }

    method RecordCancel()
      modifies this
      ensures View() == CountCancel(old(View()))
    {
      currentQueueSize := currentQueueSize - 1;
      totalPlayersCancelled := totalPlayersCancelled + 1;
    }

    method UpdateOnSuccess(m: Match, totalWait: nat)
      modifies this
      ensures View() == CountSuccess(old(View()), m, totalWait)
    {
      totalMatchesCreated := totalMatchesCreated + 1;
      totalPlayersMatched := totalPlayersMatched + MATCH_SIZE;
      currentQueueSize := currentQueueSize - MATCH_SIZE;
      totalWaitTimeMs := totalWaitTimeMs + totalWait;
      skillSpreadSum := skillSpreadSum + m.skillSpread;
      skillSpreadCount := skillSpreadCount + 1;
      teamDeltaSum := teamDeltaSum + m.teamDelta;
      teamDeltaCount := teamDeltaCount + 1;
    }
  }

  /** The bounded match history. */
  class MatchHistory {
    var items: seq<Match>

    constructor ()
      ensures items == []
    {
      items := [];
    }

    method Push(m: Match, limit: nat)
      modifies this
      ensures items == Newest(old(items) + [m], limit)
    {
      items := items + [m];
      ghost var all := items;
      while |items| > limit
        invariant |items| <= |all| && items == all[|all| - |items|..]
        invariant |all| <= limit ==> items == all
        invariant |items| >= Min(limit, |all|)
        decreases |items|
      {
        items := items[1..];
      }
    }
  }

  /** A worker's failure tracking. */
  class WorkerState {
    var consecutiveFailures: nat
    var currentSeedId: Option<Uuid>

    constructor ()
      ensures View() == NO_FAILURES
    {
      consecutiveFailures := 0;
      currentSeedId := None;
    }

    function View(): Guard
      reads this
    {
      Guard(currentSeedId, consecutiveFailures)
    }

    method Reset()
      modifies this
      ensures View() == NO_FAILURES
    {
      consecutiveFailures := 0;
      currentSeedId := None;
    }

    method RecordFailure(seedId: Uuid)
      modifies this
      ensures View() == MatcherSpec.RecordFailure(old(View()), seedId)
    {
      if currentSeedId == Some(seedId) {
        consecutiveFailures := consecutiveFailures + 1;
      } else {
        consecutiveFailures := 1;
        currentSeedId := Some(seedId);
      }
    }
  }

  // ---- The loops over claimed players ----------------------------------------------------

  /** The first `n` players that were waiting; `was` gives their values. */
  function PickWaiting(ps: seq<Player>, was: seq<Rec>, n: nat): seq<Player>
    requires |ps| == |was|
  {
    if ps == [] then []
    else
      var k := |ps| - 1;
      var front := PickWaiting(ps[..k], was[..k], n);
      if |front| < n && was[k].state == Waiting then front + [ps[k]] else front
  }

  lemma {:induction false} PickSize(ps: seq<Player>, was: seq<Rec>, n: nat)
    requires |ps| == |was|
    ensures |PickWaiting(ps, was, n)| == |FirstWaiting(was, n)| <= n
  {
    if ps != [] {
      var k := |ps| - 1;
      PickSize(ps[..k], was[..k], n);
    }
  }

  /** A picked player is a candidate the loop takes, and its value is the picked value. */
  ghost predicate PickedAt(ps: seq<Player>, was: seq<Rec>, n: nat, p: Player, r: Rec)
    requires |ps| == |was|
  {
    exists k :: 0 <= k < |ps| && ps[k] == p && was[k] == r && Takes(was, n, k)
  }

  lemma {:induction false} PickFrom(ps: seq<Player>, was: seq<Rec>, n: nat, j: nat)
    requires |ps| == |was| && j < |PickWaiting(ps, was, n)|
    ensures j < |FirstWaiting(was, n)|
    ensures PickedAt(ps, was, n, PickWaiting(ps, was, n)[j], FirstWaiting(was, n)[j])
    decreases |ps|
  {
    PickSize(ps, was, n);
    var k := |ps| - 1;
    PickSize(ps[..k], was[..k], n);
    var front := PickWaiting(ps[..k], was[..k], n);
    if j < |front| {
      PickFrom(ps[..k], was[..k], n, j);
      var m :| 0 <= m < k && ps[..k][m] == front[j] && was[..k][m] == FirstWaiting(was[..k], n)[j]
               && Takes(was[..k], n, m);
      assert was[..k][..m] == was[..m];
      assert ps[m] == front[j] && was[m] == FirstWaiting(was, n)[j] && Takes(was, n, m);
    } else {
      assert ps[k] == PickWaiting(ps, was, n)[j] && was[k] == FirstWaiting(was, n)[j] && Takes(was, n, k);
    }
  }

  lemma {:induction false} TakenIsPicked(ps: seq<Player>, was: seq<Rec>, n: nat, k: nat)
    requires |ps| == |was| && k < |ps| && Takes(was, n, k)
    ensures ps[k] in PickWaiting(ps, was, n)
    decreases |ps|
  {
    var m := |ps| - 1;
    PickSize(ps[..m], was[..m], n);
    if k < m {
      assert was[..m][..k] == was[..k];
      TakenIsPicked(ps[..m], was[..m], n, k);
    }
  }

  /** Where a taken candidate is in the list of claims. */
  lemma {:induction false} TakenAt(ps: seq<Player>, was: seq<Rec>, n: nat, k: nat)
    requires |ps| == |was| && k < |ps| && Takes(was, n, k)
    ensures var i := |FirstWaiting(was[..k], n)|;
      i < |PickWaiting(ps, was, n)| == |FirstWaiting(was, n)|
      && PickWaiting(ps, was, n)[i] == ps[k] && FirstWaiting(was, n)[i] == was[k]
    decreases |ps|
  {
    PickSize(ps, was, n);
    var m := |ps| - 1;
    PickSize(ps[..m], was[..m], n);
    if k < m {
      assert was[..m][..k] == was[..k];
      TakenAt(ps[..m], was[..m], n, k);
    }
  }

  lemma {:induction false} PickDistinct(ps: seq<Player>, was: seq<Rec>, n: nat)
    requires |ps| == |was| && Distinct(ps)
    ensures Distinct(PickWaiting(ps, was, n))
  {
    if ps != [] {
      var k := |ps| - 1;
      PickDistinct(ps[..k], was[..k], n);
      var front := PickWaiting(ps[..k], was[..k], n);
      forall j | 0 <= j < |front|
        ensures front[j] != ps[k]
      {
        PickFrom(ps[..k], was[..k], n, j);
      }
    }
  }

  /** Once `n` are found, the rest of the list does not matter. */
  lemma {:induction false} PickFull(ps: seq<Player>, was: seq<Rec>, n: nat, i: nat)
    requires |ps| == |was| && i <= |ps| && |PickWaiting(ps[..i], was[..i], n)| == n
    ensures PickWaiting(ps, was, n) == PickWaiting(ps[..i], was[..i], n)
    decreases |ps|
  {
    if i == |ps| {
      assert ps[..i] == ps && was[..i] == was;
    } else {
      var k := |ps| - 1;
      assert ps[..k][..i] == ps[..i] && was[..k][..i] == was[..i];
      PickFull(ps[..k], was[..k], n, i);
    }
  }

  lemma PickSnoc(ps: seq<Player>, was: seq<Rec>, n: nat, i: nat)
    requires |ps| == |was| && i < |ps|
    ensures var front := PickWaiting(ps[..i], was[..i], n);
      PickWaiting(ps[..i + 1], was[..i + 1], n)
      == if |front| < n && was[i].state == Waiting then front + [ps[i]] else front
  {
    assert ps[..i + 1][..i] == ps[..i] && was[..i + 1][..i] == was[..i];
  }

  lemma {:induction false} FirstWaitingGrows(was: seq<Rec>, n: nat, i: nat, k: nat)
    requires i <= k <= |was|
    ensures |FirstWaiting(was[..i], n)| <= |FirstWaiting(was[..k], n)| <= n
    decreases k
  {
    FirstWaitingFacts(was[..k], n);
    if i < k {
      assert was[..k][..k - 1] == was[..k - 1];
      FirstWaitingGrows(was, n, i, k - 1);
    }
  }

  /** Values after the first `i` candidates were tried. */
  ghost predicate ClaimedSoFar(ps: seq<Player>, was: seq<Rec>, i: nat, workerId: nat, nowMs: nat)
    requires |ps| == |was|
    reads ps
  {
    && (forall k :: i <= k < |ps| ==> ps[k].Value() == was[k])
    && (forall k :: 0 <= k < i && k < |ps| ==>
          ps[k].Value() == (if Takes(was, MATCH_SIZE, k) then TryClaim(was[k], workerId, nowMs) else was[k]))
  }

  lemma ClaimedToTheEnd(ps: seq<Player>, was: seq<Rec>, i: nat, workerId: nat, nowMs: nat)
    requires |ps| == |was| && i <= |ps| && ClaimedSoFar(ps, was, i, workerId, nowMs)
    requires i == |ps| || |FirstWaiting(was[..i], MATCH_SIZE)| == MATCH_SIZE
    ensures ClaimedSoFar(ps, was, |ps|, workerId, nowMs)
  {
    forall k | i <= k < |ps|
      ensures !Takes(was, MATCH_SIZE, k)
    {
      FirstWaitingGrows(was, MATCH_SIZE, i, k);
    }
  }

  /** The state of the claim loop before candidate `i`. */
  ghost predicate ClaimLoop(cands: seq<Player>, was: seq<Rec>, i: nat, claimed: seq<Player>, workerId: nat, nowMs: nat)
    reads cands
  {
    && |was| == |cands| && i <= |cands| && Distinct(cands)
    && claimed == PickWaiting(cands[..i], was[..i], MATCH_SIZE)
    && |claimed| == |FirstWaiting(was[..i], MATCH_SIZE)| <= MATCH_SIZE
    && ClaimedSoFar(cands, was, i, workerId, nowMs)
  }

  /** The situation after the claim loop. */
  ghost predicate AfterClaims(cands: seq<Player>, was: seq<Rec>, claimed: seq<Player>, workerId: nat, nowMs: nat)
    reads cands
  {
    && |was| == |cands| && Distinct(cands)
    && claimed == PickWaiting(cands, was, MATCH_SIZE)
    && ClaimedSoFar(cands, was, |cands|, workerId, nowMs)
  }

  /** One iteration of the claim loop. */
  method ClaimNext(cands: seq<Player>, ghost was: seq<Rec>, i: nat, claimed: seq<Player>, workerId: nat, nowMs: nat)
    returns (more: seq<Player>)
    requires i < |cands| && |claimed| < MATCH_SIZE && ClaimLoop(cands, was, i, claimed, workerId, nowMs)
    modifies cands[i]
    ensures ClaimLoop(cands, was, i + 1, more, workerId, nowMs)
  {
    PickSnoc(cands, was, MATCH_SIZE, i);
    PickSize(cands[..i + 1], was[..i + 1], MATCH_SIZE);
    var ok := cands[i].TryClaim(workerId, nowMs);
    more := if ok then claimed + [cands[i]] else claimed;
    assert forall k :: 0 <= k < |cands| && k != i ==> cands[k].Value() == old(cands[k].Value());
  }

  lemma ClaimingEnds(cands: seq<Player>, was: seq<Rec>, i: nat, claimed: seq<Player>, workerId: nat, nowMs: nat)
    requires ClaimLoop(cands, was, i, claimed, workerId, nowMs)
    requires i == |cands| || |claimed| == MATCH_SIZE
    ensures AfterClaims(cands, was, claimed, workerId, nowMs)
  {
    if i < |cands| {
      PickFull(cands, was, MATCH_SIZE, i);
    } else {
      assert cands[..i] == cands && was[..i] == was;
    }
    ClaimedToTheEnd(cands, was, i, workerId, nowMs);
  }

  /** The claim loop: each candidate in turn, until ten claims succeed. */
  method ClaimUpToTen(candidates: seq<Player>, workerId: nat, nowMs: nat) returns (claimed: seq<Player>)
    requires Distinct(candidates)
    modifies candidates
    ensures AfterClaims(candidates, old(Values(candidates)), claimed, workerId, nowMs)
  {
    ghost var was := Values(candidates);
    claimed := [];
    var i := 0;
    while i < |candidates| && |claimed| < MATCH_SIZE
      invariant 0 <= i <= |candidates| && ClaimLoop(candidates, was, i, claimed, workerId, nowMs)
    {
      claimed := ClaimNext(candidates, was, i, claimed, workerId, nowMs);
      i := i + 1;
    }
    ClaimingEnds(candidates, was, i, claimed, workerId, nowMs);
  }

  /** Roll back: release every claim. */
  method ReleaseAll(claimed: seq<Player>)
    requires Distinct(claimed)
    modifies claimed
    ensures forall k :: 0 <= k < |claimed| ==> claimed[k].Value() == ReleaseClaim(old(claimed[k].Value()))
  {
    for i := 0 to |claimed|
      invariant forall k :: 0 <= k < i ==> claimed[k].Value() == ReleaseClaim(old(claimed[k].Value()))
      invariant forall k :: i <= k < |claimed| ==> claimed[k].Value() == old(claimed[k].Value())
    {
      claimed[i].ReleaseClaim();
    }
  }

  /** Mark every claimed player as matched. */
  method MarkAll(claimed: seq<Player>, marks: seq<nat>)
    requires Distinct(claimed) && |marks| == |claimed|
    modifies claimed
    ensures forall k :: 0 <= k < |claimed| ==> claimed[k].Value() == MarkMatched(old(claimed[k].Value()), marks[k])
  {
    for i := 0 to |claimed|
      invariant forall k :: 0 <= k < i ==> claimed[k].Value() == MarkMatched(old(claimed[k].Value()), marks[k])
      invariant forall k :: i <= k < |claimed| ==> claimed[k].Value() == old(claimed[k].Value())
    {
      claimed[i].MarkMatched(marks[i]);
    }
  }

  // ---- Building the match ----------------------------------------------------------------

  lemma {:induction false} ChosenValues(ps: seq<Player>, c: Choice)
    requires |ps| == |c|
    ensures Values(Chosen(ps, c)) == Chosen(Values(ps), c)
  {
    if c != [] {
      ChosenValues(ps[1..], c[1..]);
      assert Values(ps)[1..] == Values(ps[1..]);
      var rest := Chosen(ps[1..], c[1..]);
      if c[0] {
        assert Values([ps[0]] + rest) == [ps[0].Value()] + Values(rest);
      } else {
        assert Chosen(ps, c) == rest;
        assert Chosen(Values(ps), c) == Chosen(Values(ps[1..]), c[1..]);
      }
    }
  }

  lemma RatingsAgree(ps: seq<Player>)
    ensures SkillRatings(ps) == RecRatings(Values(ps))
  {
  }

  /** The record of ten marked players, from the teams found by the balancer. */
  method BuildMatch(claimed: seq<Player>, balance: BalanceResult<Player>) returns (m: Match, totalWait: nat)
    requires |claimed| == MATCH_SIZE && SafeRatings(SkillRatings(claimed)) && Sum(SkillRatings(claimed)) >= 0
    requires balance == Split(claimed, Best(SkillRatings(claimed)))
    ensures SafeRatings(RecRatings(Values(claimed)))
    ensures m == FormMatch(Values(claimed), 0) && totalWait == Sum(Waits(Values(claimed), 0))
    ensures Formed(Values(claimed), m, totalWait)
  {
    RatingsAgree(claimed);
    var marked := Values(claimed);
    var waits := Waits(marked, 0);
    NonNegativeSum(waits);
    totalWait := Sum(waits);
    var avgWaitMs := totalWait / |waits|;
    assert forall i :: 0 <= i < |waits| ==> waits[i] in waits;
    var maxWaitMs := Largest(waits);
    var skillSpread := Spread(RecRatings(marked));
    var teamA := NewTeam(Snapshots(Values(balance.teamA), 0));
    var teamB := NewTeam(Snapshots(Values(balance.teamB), 0));
    m := NewMatch(teamA, teamB, skillSpread, avgWaitMs, maxWaitMs);
    ghost var c := Bits(Best(SkillRatings(claimed)), MATCH_SIZE);
    ChosenValues(claimed, c);
    ChosenValues(claimed, Complement(c));
  }

  /** The balancer's result, as far as the match record needs it. */
  method BalanceClaims(claimed: seq<Player>) returns (balance: BalanceResult<Player>)
    requires |claimed| == MATCH_SIZE && SafeRatings(SkillRatings(claimed))
    ensures Sum(SkillRatings(claimed)) >= 0 && balance == Split(claimed, Best(SkillRatings(claimed)))
  {
    balance := ExhaustiveBalance(claimed);
  }

  function IdsOf(ps: seq<Player>): set<Uuid> {
    set p | p in ps :: p.id
  }

  lemma IdsOfSnoc(ps: seq<Player>, i: nat)
    requires i < |ps|
    ensures IdsOf(ps[..i + 1]) == IdsOf(ps[..i]) + {ps[i].id}
  {
    assert ps[..i + 1] == ps[..i] + [ps[i]];
    assert forall p :: p in ps[..i + 1] <==> p in ps[..i] || p == ps[i];
  }

  /** Remove every claimed player from the pool, by id. */
  method RemoveAll(pool: PlayerPool, claimed: seq<Player>)
    requires pool.Valid()
    modifies pool
    ensures pool.Valid() && pool.primary == old(pool.primary) - IdsOf(claimed)
  {
    for i := 0 to |claimed|
      invariant pool.Valid() && pool.primary == old(pool.primary) - IdsOf(claimed[..i])
    {
      IdsOfSnoc(claimed, i);
      var _ := pool.Remove(claimed[i].id);
    }
    assert claimed[..|claimed|] == claimed;
  }

  /** Removing ids from a keyed map removes exactly the values with those ids. */
  lemma ValuesWithout(m: map<Uuid, Rec>, ids: set<Uuid>, gone: set<Rec>)
    requires forall id :: id in m ==> m[id].id == id
    requires forall r :: r in gone ==> r.id in m && m[r.id] == r && r.id in ids
    requires forall id :: id in ids ==> id in m && m[id] in gone
    ensures (m - ids).Values == m.Values - gone
  {
    forall r | r in m.Values - gone
      ensures r in (m - ids).Values
    {
      var id :| id in m && m[id] == r;
      assert (m - ids)[id] == r;
    }
  }

  // ---- After the claims ------------------------------------------------------------------

  /** Every claimed player is a candidate with the expected value; every other is as it was. */
  lemma ClaimedValues(cands: seq<Player>, was: seq<Rec>, claimed: seq<Player>, workerId: nat, nowMs: nat)
    requires AfterClaims(cands, was, claimed, workerId, nowMs)
    ensures Distinct(claimed) && |claimed| == |FirstWaiting(was, MATCH_SIZE)| <= MATCH_SIZE
    ensures forall j :: 0 <= j < |claimed| ==>
      claimed[j] in cands && claimed[j].Value() == TryClaim(FirstWaiting(was, MATCH_SIZE)[j], workerId, nowMs)
    ensures forall k :: 0 <= k < |cands| && cands[k] !in claimed ==> cands[k].Value() == was[k]
  {
    PickDistinct(cands, was, MATCH_SIZE);
    PickSize(cands, was, MATCH_SIZE);
    forall j | 0 <= j < |claimed|
      ensures claimed[j] in cands && claimed[j].Value() == TryClaim(FirstWaiting(was, MATCH_SIZE)[j], workerId, nowMs)
    {
      PickFrom(cands, was, MATCH_SIZE, j);
    }
    forall k | 0 <= k < |cands| && cands[k] !in claimed
      ensures cands[k].Value() == was[k]
    {
      if Takes(was, MATCH_SIZE, k) {
        TakenIsPicked(cands, was, MATCH_SIZE, k);
      }
    }
  }

  lemma ClaimsArePicked(cands: seq<Player>, was: seq<Rec>, claimed: seq<Player>, workerId: nat, nowMs: nat)
    requires AfterClaims(cands, was, claimed, workerId, nowMs)
    ensures |was| == |cands| && Distinct(cands) && claimed == PickWaiting(cands, was, MATCH_SIZE)
  {
  }

  /** Rolling back restores every candidate exactly. */
  method RollBack(cands: seq<Player>, ghost was: seq<Rec>, claimed: seq<Player>, workerId: nat, nowMs: nat)
    requires AfterClaims(cands, was, claimed, workerId, nowMs)
    requires forall k :: 0 <= k < |was| && was[k].state == Waiting ==> Unclaimed(was[k])
    modifies claimed
    ensures Values(cands) == was
  {
    ClaimedValues(cands, was, claimed, workerId, nowMs);
    ReleaseAll(claimed);
    forall k | 0 <= k < |cands|
      ensures cands[k].Value() == was[k]
    {
      if cands[k] in claimed {
        ClaimedIndex(cands, was, claimed, k);
        ReleaseUndoesClaim(was[k], workerId, nowMs);
      }
    }
  }

  /** Where a claimed candidate is in the list of claims. */
  lemma ClaimedIndex(cands: seq<Player>, was: seq<Rec>, claimed: seq<Player>, k: nat)
    requires |was| == |cands| && Distinct(cands) && claimed == PickWaiting(cands, was, MATCH_SIZE)
    requires k < |cands| && cands[k] in claimed
    ensures |claimed| == |FirstWaiting(was, MATCH_SIZE)|
    ensures was[k].state == Waiting
    ensures exists j :: 0 <= j < |claimed| && claimed[j] == cands[k] && FirstWaiting(was, MATCH_SIZE)[j] == was[k]
  {
    PickSize(cands, was, MATCH_SIZE);
    var j :| 0 <= j < |claimed| && claimed[j] == cands[k];
    PickFrom(cands, was, MATCH_SIZE, j);
  }

  /** Marking turns the claimed values into the marked ones and touches nobody else. */
  method MarkClaimed(cands: seq<Player>, ghost was: seq<Rec>, claimed: seq<Player>, workerId: nat, clk: Clock)
    requires AfterClaims(cands, was, claimed, workerId, clk.claimMs)
    requires |claimed| == MATCH_SIZE && ValidClock(clk)
    modifies claimed
    ensures |FirstWaiting(was, MATCH_SIZE)| == MATCH_SIZE
    ensures Values(claimed) == MarkedAll(FirstWaiting(was, MATCH_SIZE), workerId, clk)
    ensures forall k :: 0 <= k < |cands| && cands[k] !in claimed ==> cands[k].Value() == was[k]
  {
    ClaimedValues(cands, was, claimed, workerId, clk.claimMs);
    MarkAll(claimed, clk.marks);
  }

  /** The situation once the claimed players are marked and their match is built; the other
      candidates are as they were. */
  ghost predicate AfterMarks(cands: seq<Player>, was: seq<Rec>, claimed: seq<Player>, workerId: nat, clk: Clock,
                             m: Match, totalWait: nat)
    reads cands, claimed
  {
    && |was| == |cands| && ValidClock(clk) && |FirstWaiting(was, MATCH_SIZE)| == MATCH_SIZE
    && Values(claimed) == MarkedAll(FirstWaiting(was, MATCH_SIZE), workerId, clk)
    && Formed(MarkedAll(FirstWaiting(was, MATCH_SIZE), workerId, clk), m, totalWait)
    && (forall k :: 0 <= k < |cands| && cands[k] !in claimed ==> cands[k].Value() == was[k])
  }

  /** Candidate by candidate, that is what the attempt leaves behind. */
  lemma CandidatesSettled(cands: seq<Player>, was: seq<Rec>, claimed: seq<Player>, workerId: nat, clk: Clock)
    requires |was| == |cands| && Distinct(cands) && ValidClock(clk) && claimed == PickWaiting(cands, was, MATCH_SIZE)
    requires |FirstWaiting(was, MATCH_SIZE)| == MATCH_SIZE
    requires Values(claimed) == MarkedAll(FirstWaiting(was, MATCH_SIZE), workerId, clk)
    requires forall k :: 0 <= k < |cands| && cands[k] !in claimed ==> cands[k].Value() == was[k]
    ensures Values(cands) == CandidatesAfter(was, workerId, clk)
  {
    PickSize(cands, was, MATCH_SIZE);
    forall k | 0 <= k < |cands|
      ensures cands[k].Value() == CandidatesAfter(was, workerId, clk)[k]
    {
      if Takes(was, MATCH_SIZE, k) {
        TakenAt(cands, was, MATCH_SIZE, k);
        assert Values(claimed)[|FirstWaiting(was[..k], MATCH_SIZE)|] == cands[k].Value();
      } else if cands[k] in claimed {
        var j :| 0 <= j < |claimed| && claimed[j] == cands[k];
        PickFrom(cands, was, MATCH_SIZE, j);
      }
    }
  }

  lemma MarksAreAfter(cands: seq<Player>, was: seq<Rec>, claimed: seq<Player>, workerId: nat, clk: Clock,
                      m: Match, totalWait: nat)
    requires |was| == |cands| && ValidClock(clk) && |FirstWaiting(was, MATCH_SIZE)| == MATCH_SIZE
    requires Values(claimed) == MarkedAll(FirstWaiting(was, MATCH_SIZE), workerId, clk)
    requires Formed(Values(claimed), m, totalWait)
    requires forall k :: 0 <= k < |cands| && cands[k] !in claimed ==> cands[k].Value() == was[k]
    ensures AfterMarks(cands, was, claimed, workerId, clk, m, totalWait)
  {
    hide Formed;
  }

  lemma NothingTaken(was: seq<Rec>, workerId: nat, clk: Clock)
    requires ValidClock(clk) && |FirstWaiting(was, MATCH_SIZE)| < MATCH_SIZE
    ensures CandidatesAfter(was, workerId, clk) == was
  {
  }

  /** Balance the claimed players, mark them, and build their match. */
  method MarkAndBuild(cands: seq<Player>, ghost was: seq<Rec>, claimed: seq<Player>, workerId: nat, clk: Clock)
    returns (m: Match, totalWait: nat)
    requires AfterClaims(cands, was, claimed, workerId, clk.claimMs)
    requires |claimed| == MATCH_SIZE && ValidClock(clk) && SafeRatings(SkillRatings(claimed))
    modifies claimed
    ensures AfterMarks(cands, was, claimed, workerId, clk, m, totalWait)
  {
    hide AfterClaims;
    hide AfterMarks;
    hide Formed;
    hide FirstWaiting;
    hide MarkedAll;
    hide PickWaiting;
    ClaimsArePicked(cands, was, claimed, workerId, clk.claimMs);
    var balance := BalanceClaims(claimed);
    MarkClaimed(cands, was, claimed, workerId, clk);
    m, totalWait := BuildMatch(claimed, balance);
    MarksAreAfter(cands, was, claimed, workerId, clk, m, totalWait);
  }

  // ---- The worker ------------------------------------------------------------------------

  /** A candidate list, however stale: players with legal ratings, and whoever of them is
      waiting is in the pool and carries no claim. */
  ghost predicate Claimable(pool: PlayerPool, cands: seq<Player>)
    reads pool, cands
  {
    && Distinct(cands)
    && (forall k :: 0 <= k < |cands| ==> cands[k].skillRating <= MAX_SKILL_RATING)
    && (forall k :: 0 <= k < |cands| && cands[k].state == Waiting ==>
          Unclaimed(cands[k].Value()) && cands[k].id in pool.primary && pool.primary[cands[k].id] == cands[k])
  }

  /** Ratings are legal and waiting players carry no claim. */
  ghost predicate Legal(entries: map<Uuid, Rec>) {
    forall id :: id in entries ==>
      entries[id].rating <= MAX_SKILL_RATING && (entries[id].state == Waiting ==> Unclaimed(entries[id]))
  }

  /** The pool entries of the candidates that are in the pool. */
  ghost predicate Listed(primary: map<Uuid, Player>, entries: map<Uuid, Rec>, cands: seq<Player>, was: seq<Rec>) {
    && |was| == |cands|
    && forall k :: 0 <= k < |cands| && cands[k].id in primary && primary[cands[k].id] == cands[k] ==>
         cands[k].id in entries && entries[cands[k].id] == was[k]
  }

  /** Except for the claimed players, the pool's entries are still these. */
  ghost predicate Untouched(primary: map<Uuid, Player>, entries: map<Uuid, Rec>, claimed: seq<Player>)
    reads set p | p in primary.Values && p !in claimed
  {
    && Keyed(primary) && entries.Keys == primary.Keys
    && forall id :: id in primary && primary[id] !in claimed ==> primary[id].Value() == entries[id]
  }

  lemma OnlyClaimedTouched(primary: map<Uuid, Player>, entries: map<Uuid, Rec>, cands: seq<Player>, was: seq<Rec>,
                           claimed: seq<Player>, workerId: nat, nowMs: nat)
    requires AfterClaims(cands, was, claimed, workerId, nowMs)
    requires Untouched(primary, entries, cands) && Listed(primary, entries, cands, was)
    ensures Untouched(primary, entries, claimed)
  {
    ClaimedValues(cands, was, claimed, workerId, nowMs);
    forall id | id in primary && primary[id] !in claimed
      ensures primary[id].Value() == entries[id]
    {
      if primary[id] in cands {
        var k :| 0 <= k < |cands| && cands[k] == primary[id];
      }
    }
  }

  /** Everything is back: the claimed players have their values again. */
  lemma NothingTouched(pool: PlayerPool, entries: map<Uuid, Rec>, cands: seq<Player>, was: seq<Rec>, claimed: seq<Player>)
    requires Untouched(pool.primary, entries, claimed) && Listed(pool.primary, entries, cands, was)
    requires (forall j :: 0 <= j < |claimed| ==> claimed[j] in cands) && Values(cands) == was
    ensures pool.Entries() == entries
  {
    forall id | id in pool.primary
      ensures pool.primary[id].Value() == entries[id]
    {
      if pool.primary[id] in claimed {
        var k :| 0 <= k < |cands| && cands[k] == pool.primary[id];
      }
    }
  }

  /** The claimed players are gone: the others are as they were. */
  lemma ClaimedGone(pool: PlayerPool, before: map<Uuid, Player>, entries: map<Uuid, Rec>, claimed: seq<Player>)
    requires Untouched(before, entries, claimed) && pool.primary == before - IdsOf(claimed)
    ensures pool.Entries() == entries - IdsOf(claimed)
  {
    forall id | id in pool.primary
      ensures pool.primary[id].Value() == entries[id]
    {
      assert id == before[id].id;
    }
  }

  lemma ClaimableFacts(pool: PlayerPool, cands: seq<Player>, was: seq<Rec>)
    requires pool.Valid() && Claimable(pool, cands) && was == Values(cands)
    ensures Untouched(pool.primary, pool.Entries(), cands) && Listed(pool.primary, pool.Entries(), cands, was)
    ensures Distinct(cands) && forall k :: 0 <= k < |was| ==> was[k].rating <= MAX_SKILL_RATING
    ensures forall k :: 0 <= k < |was| && was[k].state == Waiting ==> Unclaimed(was[k])
  {
  }

  lemma SafeClaims(cands: seq<Player>, was: seq<Rec>, claimed: seq<Player>, workerId: nat, nowMs: nat)
    requires AfterClaims(cands, was, claimed, workerId, nowMs)
    requires forall k :: 0 <= k < |was| ==> was[k].rating <= MAX_SKILL_RATING
    ensures SafeRatings(SkillRatings(claimed)) && |claimed| == |FirstWaiting(was, MATCH_SIZE)| <= MATCH_SIZE
    ensures claimed == PickWaiting(cands, was, MATCH_SIZE) && forall j :: 0 <= j < |claimed| ==> claimed[j] in cands
  {
    ClaimedValues(cands, was, claimed, workerId, nowMs);
    FirstWaitingFacts(was, MATCH_SIZE);
    forall j | 0 <= j < |claimed|
      ensures claimed[j].skillRating <= MAX_SKILL_RATING
    {
      assert claimed[j].Value().rating <= MAX_SKILL_RATING;
    }
  }

  /** Claiming picks exactly the players whose values it takes: without their ids the pool's
      entries are the queue without those values. */
  lemma ClaimedLeaveQueue(pool: PlayerPool, cands: seq<Player>, was: seq<Rec>)
    requires pool.Valid() && Claimable(pool, cands) && was == Values(cands)
    ensures var claimed := PickWaiting(cands, was, MATCH_SIZE);
      (pool.Entries() - IdsOf(claimed)).Values == pool.Queue() - Elements(FirstWaiting(was, MATCH_SIZE))
  {
    var claimed := PickWaiting(cands, was, MATCH_SIZE);
    var picked := FirstWaiting(was, MATCH_SIZE);
    PickSize(cands, was, MATCH_SIZE);
    forall j | 0 <= j < |claimed|
      ensures claimed[j].Value() == picked[j] && picked[j].id in pool.primary && pool.primary[picked[j].id] == claimed[j]
    {
      PickFrom(cands, was, MATCH_SIZE, j);
    }
    pool.EntriesAreQueue();
    forall r | r in Elements(picked)
      ensures r.id in pool.Entries() && pool.Entries()[r.id] == r && r.id in IdsOf(claimed)
    {
      var j :| 0 <= j < |picked| && picked[j] == r;
      assert claimed[j] in claimed;
    }
    forall id | id in IdsOf(claimed)
      ensures id in pool.Entries() && pool.Entries()[id] in Elements(picked)
    {
      var p :| p in claimed && p.id == id;
      var j :| 0 <= j < |claimed| && claimed[j] == p;
      assert picked[j] in picked;
    }
    ValuesWithout(pool.Entries(), IdsOf(claimed), Elements(picked));
  }

  class WorkerContext {
    const workerId: nat
    const pool: PlayerPool
    const metrics: Metrics
    const config: Config
    const history: MatchHistory
    const historyLimit: nat

    constructor (workerId: nat, pool: PlayerPool, metrics: Metrics, config: Config, history: MatchHistory, limit: nat)
      ensures this.workerId == workerId && this.pool == pool && this.metrics == metrics
      ensures this.config == config && this.history == history && historyLimit == limit
    {
      this.workerId := workerId;
      this.pool := pool;
      this.metrics := metrics;
      this.config := config;
      this.history := history;
      historyLimit := limit;
    }

    /** The pool is consistent, its ratings are legal, and waiting players carry no claim. */
    ghost predicate Valid()
      reads pool, pool.Players()
    {
      pool.Valid() && Legal(pool.Entries())
    }

    ghost function World(): World
      reads pool, pool.Players(), metrics, history
    {
      MatcherSpec.World(pool.Queue(), history.items, metrics.View())
    }

    lemma QueueIsValid()
      requires Valid()
      ensures ValidQueue(pool.Queue())
    {
      pool.QueueIsUnique();
      pool.EntriesAreQueue();
    }

    /** The seed: the oldest waiting player, or an alternate once that one tripped the guard. */
    method SelectSeed(state: WorkerState, now: nat) returns (seed: Option<Player>)
      requires Valid()
      ensures UniqueIds(pool.Queue())
      ensures seed.Some? ==> seed.value in pool.Players()
      ensures (if seed.Some? then Some(seed.value.Value()) else None)
              == MatcherSpec.SelectSeed(pool.Queue(), state.View(), config, now)
    {
      seed := pool.OldestWaiting();
      if seed.None? {
        return;
      }
      var primary := seed.value;
      if state.currentSeedId == Some(primary.id) && state.consecutiveFailures >= SEED_RETRY_LIMIT {
        var excluded := ScanBounds(primary.skillRating, Elapsed(primary.joinTimestamp, now), config);
        var alternate := pool.OldestWaitingExcludingRange(excluded);
        if alternate.Some? {
          seed := alternate;
        }
      }
    }

    /** Empty the pool of the matched players, record the match, count it. */
    method Publish(claimed: seq<Player>, m: Match, totalWait: nat)
      requires pool.Valid()
      modifies pool, metrics, history
      ensures pool.Valid() && pool.primary == old(pool.primary) - IdsOf(claimed)
      ensures history.items == Newest(old(history.items) + [m], historyLimit)
      ensures metrics.View() == CountSuccess(old(metrics.View()), m, totalWait)
    {
      RemoveAll(pool, claimed);
      history.Push(m, historyLimit);
      metrics.UpdateOnSuccess(m, totalWait);
    }

    /** The commit of ten claims. */
    method Commit(cands: seq<Player>, ghost was: seq<Rec>, claimed: seq<Player>, clk: Clock)
      returns (m: Match, totalWait: nat)
      requires pool.Valid() && AfterClaims(cands, was, claimed, workerId, clk.claimMs)
      requires |claimed| == MATCH_SIZE && ValidClock(clk) && SafeRatings(SkillRatings(claimed))
      modifies pool, metrics, history, claimed
      ensures pool.Valid() && pool.primary == old(pool.primary) - IdsOf(claimed)
      ensures AfterMarks(cands, was, claimed, workerId, clk, m, totalWait)
      ensures history.items == Newest(old(history.items) + [m], historyLimit)
      ensures metrics.View() == CountSuccess(old(metrics.View()), m, totalWait)
    {
      hide AfterMarks;
      hide AfterClaims;
      m, totalWait := MarkAndBuild(cands, was, claimed, workerId, clk);
      Publish(claimed, m, totalWait);
    }

    /** The claims, with what they leave alone. */
    method Claim(cands: seq<Player>, ghost was: seq<Rec>, ghost entries: map<Uuid, Rec>, nowMs: nat)
      returns (claimed: seq<Player>)
      requires Distinct(cands) && was == Values(cands)
      requires Untouched(pool.primary, entries, cands) && Listed(pool.primary, entries, cands, was)
      modifies cands
      ensures AfterClaims(cands, was, claimed, workerId, nowMs) && Untouched(pool.primary, entries, claimed)
    {
      hide AfterClaims;
      hide Listed;
      hide Untouched;
      claimed := ClaimUpToTen(cands, workerId, nowMs);
      OnlyClaimedTouched(pool.primary, entries, cands, was, claimed, workerId, nowMs);
    }

    /** Give the claims back: every candidate and the queue are as they were. */
    method Restore(cands: seq<Player>, ghost was: seq<Rec>, ghost entries: map<Uuid, Rec>, claimed: seq<Player>, nowMs: nat)
      requires AfterClaims(cands, was, claimed, workerId, nowMs) && Untouched(pool.primary, entries, claimed)
      requires Listed(pool.primary, entries, cands, was)
      requires forall k :: 0 <= k < |was| && was[k].state == Waiting ==> Unclaimed(was[k])
      modifies claimed
      ensures Values(cands) == was && pool.Entries() == entries && pool.Queue() == entries.Values
    {
      hide AfterClaims;
      hide Untouched;
      hide Listed;
      ClaimedValues(cands, was, claimed, workerId, nowMs);
      RollBack(cands, was, claimed, workerId, nowMs);
      NothingTouched(pool, entries, cands, was, claimed);
      pool.EntriesAreQueue();
    }

    /** Too few claims: roll them back. */
    method GiveUp(seedId: Uuid, cands: seq<Player>, ghost was: seq<Rec>, ghost entries: map<Uuid, Rec>,
                  claimed: seq<Player>, state: WorkerState, nowMs: nat)
      requires AfterClaims(cands, was, claimed, workerId, nowMs) && Untouched(pool.primary, entries, claimed)
      requires Listed(pool.primary, entries, cands, was)
      requires forall k :: 0 <= k < |was| && was[k].state == Waiting ==> Unclaimed(was[k])
      modifies claimed, metrics, state
      ensures Values(cands) == was && pool.Entries() == entries
      ensures World() == MatcherSpec.World(entries.Values, old(history.items), CountClaimFailed(old(metrics.View())))
      ensures state.View() == MatcherSpec.RecordFailure(old(state.View()), seedId)
    {
      hide AfterClaims;
      hide Untouched;
      hide Listed;
      Restore(cands, was, entries, claimed, nowMs);
      state.RecordFailure(seedId);
      metrics.matchAttemptsClaimFailed := metrics.matchAttemptsClaimFailed + 1;
    }

    /** Ten claims: commit them. */
    method Settle(cands: seq<Player>, ghost was: seq<Rec>, ghost entries: map<Uuid, Rec>,
                  claimed: seq<Player>, state: WorkerState, clk: Clock)
      returns (m: Match, totalWait: nat)
      requires pool.Valid() && AfterClaims(cands, was, claimed, workerId, clk.claimMs) && Untouched(pool.primary, entries, claimed)
      requires |claimed| == MATCH_SIZE && ValidClock(clk) && SafeRatings(SkillRatings(claimed))
      modifies pool, metrics, history, state, claimed
      ensures pool.Valid() && pool.Entries() == entries - IdsOf(claimed)
      ensures Values(cands) == CandidatesAfter(was, workerId, clk)
      ensures |FirstWaiting(was, MATCH_SIZE)| == MATCH_SIZE
      ensures Formed(MarkedAll(FirstWaiting(was, MATCH_SIZE), workerId, clk), m, totalWait)
      ensures World() == MatcherSpec.World((entries - IdsOf(claimed)).Values,
                                           Newest(old(history.items) + [m], historyLimit),
                                           CountSuccess(old(metrics.View()), m, totalWait))
      ensures state.View() == NO_FAILURES
    {
      hide AfterClaims;
      hide Formed;
      hide Untouched;
      hide CountSuccess;
      hide Newest;
      hide MarkedAll;
      hide FirstWaiting;
      ghost var before := pool.primary;
      ClaimsArePicked(cands, was, claimed, workerId, clk.claimMs);
      m, totalWait := Commit(cands, was, claimed, clk);
      state.Reset();
      CandidatesSettled(cands, was, claimed, workerId, clk);
      ClaimedGone(pool, before, entries, claimed);
      pool.EntriesAreQueue();
    }

    /** From the claims on, for any candidate list, however stale. */
    method ClaimAndCommit(seedId: Uuid, candidates: seq<Player>, state: WorkerState, clk: Clock)
      returns (outcome: Outcome)
      requires Valid() && ValidClock(clk) && Claimable(pool, candidates)
      modifies pool, candidates, metrics, history, state
      ensures Valid()
      ensures Attempt(World(), state.View(), outcome)
              == CommitSpec(old(World()), old(state.View()), seedId, workerId, old(Values(candidates)), clk, historyLimit)
      ensures Values(candidates) == CandidatesAfter(old(Values(candidates)), workerId, clk)
    {
      hide AfterClaims;
      hide Untouched;
      hide Listed;
      hide Claimable;
      hide CandidatesAfter;
      hide CommitSpec;
      hide CountSuccess;
      hide CountClaimFailed;
      hide Newest;
      hide FirstWaiting;
      hide MarkedAll;
      hide PickWaiting;
      hide IdsOf;
      hide SafeRatings;
      hide Formed;
      ghost var was := Values(candidates);
      ghost var entries := pool.Entries();
      ClaimedLeaveQueue(pool, candidates, was);
      ClaimableFacts(pool, candidates, was);
      pool.EntriesAreQueue();
      var claimed := Claim(candidates, was, entries, clk.claimMs);
      SafeClaims(candidates, was, claimed, workerId, clk.claimMs);
      CommitCases(old(World()), old(state.View()), seedId, workerId, was, clk, historyLimit);
      if |claimed| < MATCH_SIZE {
        GiveUp(seedId, candidates, was, entries, claimed, state, clk.claimMs);
        NothingTaken(was, workerId, clk);
        outcome := ClaimFailed(|claimed|, MATCH_SIZE);
      } else {
        var m, totalWait := Settle(candidates, was, entries, claimed, state, clk);
        outcome := Success(m);
      }
    }

    /** The scan around a seed. The width of its bounds never underflows. */
    method Discover(seed: Player, now: nat) returns (b: Bounds, window: nat, candidates: seq<Player>)
      requires Valid() && seed in pool.Players()
      ensures UniqueIds(pool.Queue()) && b == SeedBounds(seed.Value(), now, config) && window == b.hi - b.lo
      ensures Values(candidates) == Scan(pool.Queue(), b) && Claimable(pool, candidates)
      ensures forall p :: p in candidates ==> p in pool.Players()
      ensures seed.joinTimestamp <= now ==>
                var reach := RelaxationWindow(now - seed.joinTimestamp, config);
                && b.lo == (if reach <= seed.skillRating then seed.skillRating - reach else 0)
                && b.hi == (if seed.skillRating + reach <= 3000 then seed.skillRating + reach else 3000)
    {
      hide Scan;
      QueueIsValid();
      PooledIsLegal(seed);
      BoundsAreSound(seed.skillRating, Elapsed(seed.joinTimestamp, now), config);
      b := ScanBounds(seed.skillRating, Elapsed(seed.joinTimestamp, now), config);
      window := b.hi - b.lo;
      candidates := pool.RangeScan(b.lo, b.hi);
      ScannedAreClaimable(candidates);
    }

    /** Too few candidates: count that and blame the seed. */
    method TooFew(seedId: Uuid, state: WorkerState)
      modifies metrics, state
      ensures metrics.View() == old(metrics.View()).(attemptsInsufficient := old(metrics.View()).attemptsInsufficient + 1)
      ensures state.View() == MatcherSpec.RecordFailure(old(state.View()), seedId)
    {
      state.RecordFailure(seedId);
      metrics.matchAttemptsInsufficient := metrics.matchAttemptsInsufficient + 1;
    }

    /** From the scan on: candidates, claims, commit or roll back. */
    method AttemptWith(seed: Player, state: WorkerState, clk: Clock) returns (outcome: Outcome)
      requires Valid() && ValidClock(clk) && seed in pool.Players()
      modifies pool, pool.Players(), metrics, history, state
      ensures Valid() && ValidQueue(old(pool.Queue()))
      ensures Attempt(World(), state.View(), outcome)
              == SeededSpec(old(World()), old(state.View()), config, workerId, clk, historyLimit, old(seed.Value()))
    {
      hide SeededSpec;
      hide CommitSpec;
      hide CandidatesAfter;
      hide Scan;
      hide Claimable;
      hide SeedBounds;
      hide Legal;
      hide RelaxationStage;
      hide ValidQueue;
      QueueIsValid();
      SeededCases(World(), state.View(), config, workerId, clk, historyLimit, seed.Value());
      var stage := RelaxationStage(Elapsed(seed.joinTimestamp, clk.stageNow), config);
      metrics.workerCyclesTotal := metrics.workerCyclesTotal + 1;
      assert World() == old(World()).(metrics := CountCycle(old(metrics.View())));
      var b, window, candidates := Discover(seed, clk.scanNow);
      if |candidates| < MATCH_SIZE {
        TooFew(seed.id, state);
        outcome := InsufficientCandidates(|candidates|, window, seed.skillRating, stage);
      } else {
        outcome := ClaimAndCommit(seed.id, candidates, state, clk);
      }
    }

    /** One whole attempt. */
    method AttemptMatch(state: WorkerState, clk: Clock) returns (outcome: Outcome)
      requires Valid() && ValidClock(clk)
      modifies pool, pool.Players(), metrics, history, state
      ensures Valid() && ValidQueue(old(pool.Queue()))
      ensures Attempt(World(), state.View(), outcome)
              == AttemptSpec(old(World()), old(state.View()), config, workerId, clk, historyLimit)
    {
      hide SeededSpec;
      hide MatcherSpec.SelectSeed;
      QueueIsValid();
      var seed := SelectSeed(state, clk.guardNow);
      if seed.None? {
        outcome := PoolEmpty;
      } else {
        outcome := AttemptWith(seed.value, state, clk);
      }
    }

    lemma PooledIsLegal(p: Player)
      requires Valid() && p in pool.Players()
      ensures p.skillRating <= MAX_SKILL_RATING
    {
      assert pool.Entries()[p.id] == p.Value();
    }

    lemma ScannedAreClaimable(cands: seq<Player>)
      requires Valid() && Distinct(cands) && forall p :: p in cands ==> p in pool.Players()
      ensures Claimable(pool, cands)
    {
      forall k | 0 <= k < |cands|
        ensures cands[k].id in pool.primary && pool.primary[cands[k].id] == cands[k]
        ensures cands[k].skillRating <= MAX_SKILL_RATING && (cands[k].state == Waiting ==> Unclaimed(cands[k].Value()))
      {
        assert cands[k] in cands;
        assert pool.Entries()[cands[k].id] == cands[k].Value();
      }
    }
  }
}
