/** Concrete runs that show what goes wrong without the protocol's two assumptions, and that
    the recovery gap can be reached even with them. */
module Witness {
  import opened Basics
  import opened Records
  import opened Protocol
  import opened Shape
  import opened Ownership
  import opened Membership
  import opened Safety
  import opened Recovery

  // ---- Building runs ---------------------------------------------------------------------

  ghost predicate Reaches(s: State, t: State, d: Assumptions) {
    exists acts :: Run(s, acts, d) && Final(s, acts, d) == t
  }

  lemma {:induction false} RunSnoc(s: State, acts: seq<Action>, a: Action, d: Assumptions)
    requires Run(s, acts, d) && Enabled(Final(s, acts, d), a) && Meets(Final(s, acts, d), a, d)
    ensures Run(s, acts + [a], d) && Final(s, acts + [a], d) == Exec(Final(s, acts, d), a)
    decreases |acts|
  {
    if acts == [] {
      TypedKept(s, a);
      assert acts + [a] == [a] && [a][1..] == [];
    } else {
      RunSnoc(Exec(s, acts[0]), acts[1..], a, d);
      assert (acts + [a])[1..] == acts[1..] + [a];
    }
  }

  lemma Here(s: State, d: Assumptions)
    requires Typed(s)
    ensures Reaches(s, s, d)
  {
    assert Run(s, [], d) && Final(s, [], d) == s;
  }

  lemma Then(s: State, u: State, a: Action, d: Assumptions)
    requires Reaches(s, u, d) && Typed(u) && Enabled(u, a) && Meets(u, a, d)
    ensures Typed(Exec(u, a)) && Reaches(s, Exec(u, a), d)
  {
    var acts :| Run(s, acts, d) && Final(s, acts, d) == u;
    RunSnoc(s, acts, a, d);
    TypedKept(u, a);
  }

  /** Everything but process `p` and the shared data is as before. */
  ghost predicate OnlyBusy(s: State, t: State, p: Pid) {
    && p < |s.procs| == |t.procs| && t.procs == s.procs[p := t.procs[p]]
    && t.procs[p].crashed == s.procs[p].crashed
    && t.config == s.config && t.historyLimit == s.historyLimit
  }

  lemma {:induction false} CountRun(s0: State, s: State, p: Pid, pending: seq<Bump>, d: Assumptions) returns (t: State)
    requires Reaches(s0, s, d) && Typed(s) && p < |s.procs| && s.procs[p] == Process(Counting(pending), false)
    ensures Reaches(s0, t, d) && Typed(t) && OnlyBusy(s, t, p) && t.procs[p].pc == Idle
    ensures t.players == s.players && t.primary == s.primary && t.log == s.log
    decreases |pending|
  {
    Then(s0, s, Step(p, 0), d);
    var s1 := Exec(s, Step(p, 0));
    if pending == [] {
      t := s1;
    } else {
      t := CountRun(s0, s1, p, pending[1..], d);
    }
  }

  /** One complete enqueue. */
  lemma EnqueueRun(s0: State, s: State, p: Pid, id: Uuid, d: Assumptions) returns (t: State)
    requires Reaches(s0, s, d) && Typed(s) && p < |s.procs| && s.procs[p] == Process(Idle, false) && id !in s.primary
    ensures Reaches(s0, t, d) && Typed(t) && OnlyBusy(s, t, p) && t.procs == s.procs
    ensures t.players == s.players + [NewRec(id, 0, 0)] && t.primary == s.primary[id := |s.players|] && t.log == s.log
  {
    Then(s0, s, Begin(p, Enqueue(id, 0)), d);
    var s1 := Exec(s, Begin(p, Enqueue(id, 0)));
    Then(s0, s1, Step(p, 0), d);
    var s2 := Exec(s1, Step(p, 0));
    t := CountRun(s0, s2, p, [Bump(Enqueued, 1), Bump(QueueSize, 1)], d);
  }

  /** The first `n` players are waiting, player `i` under id `i`. */
  ghost predicate Fresh(s: State, n: nat) {
    && |s.players| == n
    && (forall i :: 0 <= i < n ==> s.players[i].state == Waiting && s.players[i].rating == 0 && s.players[i].join == 0)
    && (forall id :: id in s.primary ==> id < n)
  }

  lemma {:induction false} EnqueueMany(s: State, n: nat, d: Assumptions) returns (t: State)
    requires Init(s) && |s.procs| > 0 && n <= 10
    ensures Reaches(s, t, d) && Typed(t) && t.procs == s.procs && t.log == [] && Fresh(t, n)
    ensures t.config == s.config
    decreases n
  {
    if n == 0 {
      Here(s, d);
      t := s;
    } else {
      var u := EnqueueMany(s, n - 1, d);
      t := EnqueueRun(s, u, 0, n - 1, d);
    }
  }

  const TEN: seq<Ref> := [0, 1, 2, 3, 4, 5, 6, 7, 8, 9]

  /** The first player as a seed: rating 0, just joined. */
  function FirstSeed(s: State): SeedView {
    SeedView(0, 0, s.config)
  }

  ghost predicate TenPlayers(s: State) {
    |s.players| == 10 && forall i :: 0 <= i < 10 ==> s.players[i].rating == 0 && s.players[i].join == 0
  }

  /** The list of the first ten players. */
  ghost predicate FirstTen(c: seq<Ref>) {
    |c| == 10 && forall k :: 0 <= k < 10 ==> c[k] == k
  }

  ghost predicate AllStates(s: State, state: Status) {
    TenPlayers(s) && forall i :: 0 <= i < 10 ==> s.players[i].state == state
  }

  /** The first `i` players claimed and stamped at time 1, the others waiting. */
  ghost predicate ClaimedUpTo(s: State, i: nat) {
    && TenPlayers(s)
    && (forall k :: 0 <= k < i && k < 10 ==> s.players[k].state == Claimed && s.players[k].claimTs == 1)
    && (forall k :: i <= k < 10 ==> s.players[k].state == Waiting)
  }

  /** Claim and stamp one player. */
  lemma ClaimOne(s0: State, s: State, p: Pid, c: seq<Ref>, i: nat, d: Assumptions) returns (t: State)
    requires FirstTen(c) && Reaches(s0, s, d) && Typed(s) && p < |s.procs| && i < 10
    requires s.procs[p] == Process(Claiming(FirstSeed(s), c, i, c[..i]), false) && ClaimedUpTo(s, i)
    ensures Reaches(s0, t, d) && Typed(t) && OnlyBusy(s, t, p) && t.log == s.log && ClaimedUpTo(t, i + 1)
    ensures t.procs[p].pc == Claiming(FirstSeed(s), c, i + 1, c[..i + 1])
  {
    hide Reaches;
    assert c[i] == i;
    Then(s0, s, Step(p, 1), d);
    var s1 := Exec(s, Step(p, 1));
    assert s1.procs[p].pc == Stamping(FirstSeed(s), c, i, c[..i]);
    Then(s0, s1, Step(p, 1), d);
    t := Exec(s1, Step(p, 1));
    assert c[..i] + [c[i]] == c[..i + 1];
  }

  lemma {:induction false} ClaimRun(s0: State, s: State, p: Pid, c: seq<Ref>, i: nat, d: Assumptions) returns (t: State)
    requires FirstTen(c) && Reaches(s0, s, d) && Typed(s) && p < |s.procs| && i <= 10
    requires s.procs[p] == Process(Claiming(FirstSeed(s), c, i, c[..i]), false) && ClaimedUpTo(s, i)
    ensures Reaches(s0, t, d) && Typed(t) && OnlyBusy(s, t, p) && t.log == s.log
    ensures t.procs[p].pc == Marking(FirstSeed(s), c, 0) && ClaimedUpTo(t, 10)
    decreases 10 - i
  {
    if i == 10 {
      assert c[..10] == c;
      Then(s0, s, Step(p, 1), d);
      t := Exec(s, Step(p, 1));
    } else {
      var s1 := ClaimOne(s0, s, p, c, i, d);
      t := ClaimRun(s0, s1, p, c, i + 1, d);
    }
  }

  lemma ClaimAll(s0: State, s: State, p: Pid, c: seq<Ref>, d: Assumptions) returns (t: State)
    requires FirstTen(c) && Reaches(s0, s, d) && Typed(s) && p < |s.procs| && s.procs[p] == Process(Idle, false)
    requires AllStates(s, Waiting)
    ensures Reaches(s0, t, d) && Typed(t) && OnlyBusy(s, t, p) && t.log == s.log
    ensures t.procs[p].pc == Marking(FirstSeed(s), c, 0) && ClaimedUpTo(t, 10)
  {
    hide Reaches;
    Then(s0, s, Begin(p, Attempt(0, 0)), d);
    var s1 := Exec(s, Begin(p, Attempt(0, 0)));
    Then(s0, s1, Step(p, 0), d);
    var s2 := Exec(s1, Step(p, 0));
    Then(s0, s2, Found(p, c), d);
    var s3 := Exec(s2, Found(p, c));
    assert c[..0] == [];
    t := ClaimRun(s0, s3, p, c, 0, d);
  }

  lemma {:induction false} ResetRun(s0: State, s: State, p: Pid, c: seq<Ref>, i: nat) returns (t: State)
    requires FirstTen(c) && Reaches(s0, s, SLOW) && Typed(s) && p < |s.procs| && i <= 10 && TenPlayers(s)
    requires s.procs[p] == Process(Reaping(s.config.staleClaimTimeoutMs + 2, c[i..], i), false)
    requires forall k :: 0 <= k < i ==> s.players[k].state == Waiting
    requires forall k :: i <= k < 10 ==> s.players[k].state == Claimed && s.players[k].claimTs == 1
    ensures Reaches(s0, t, SLOW) && Typed(t) && OnlyBusy(s, t, p) && t.log == s.log && AllStates(t, Waiting)
    decreases 10 - i
  {
    hide Reaches;
    if i == 10 {
      t := s;
    } else {
      Then(s0, s, Step(p, 0), SLOW);
      var s1 := Exec(s, Step(p, 0));
      assert c[i..][1..] == c[i + 1..] && c[i..][0] == i;
      t := ResetRun(s0, s1, p, c, i + 1);
    }
  }

  lemma ResetAll(s0: State, s: State, p: Pid, c: seq<Ref>) returns (t: State)
    requires FirstTen(c) && Reaches(s0, s, SLOW) && Typed(s) && p < |s.procs| && s.procs[p] == Process(Idle, false)
    requires ClaimedUpTo(s, 10)
    ensures Reaches(s0, t, SLOW) && Typed(t) && OnlyBusy(s, t, p) && t.log == s.log && AllStates(t, Waiting)
  {
    Then(s0, s, Begin(p, ReaperTick(s.config.staleClaimTimeoutMs + 2, c)), SLOW);
    var s1 := Exec(s, Begin(p, ReaperTick(s.config.staleClaimTimeoutMs + 2, c)));
    assert c[0..] == c;
    t := ResetRun(s0, s1, p, c, 0);
  }

  lemma {:induction false} MarkRun(s0: State, s: State, p: Pid, c: seq<Ref>, i: nat, d: Assumptions) returns (t: State)
    requires Reaches(s0, s, d) && Typed(s) && p < |s.procs| && i <= |c|
    requires s.procs[p] == Process(Marking(FirstSeed(s), c, i), false)
    ensures Reaches(s0, t, d) && Typed(t) && OnlyBusy(s, t, p) && t.log == s.log
    ensures t.procs[p].pc == Removing(FirstSeed(s), c, 0)
    decreases |c| - i
  {
    Then(s0, s, Step(p, 0), d);
    var s1 := Exec(s, Step(p, 0));
    if i == |c| {
      t := s1;
    } else {
      t := MarkRun(s0, s1, p, c, i + 1, d);
    }
  }

  lemma {:induction false} RemoveRun(s0: State, s: State, p: Pid, c: seq<Ref>, i: nat, d: Assumptions) returns (t: State)
    requires Reaches(s0, s, d) && Typed(s) && p < |s.procs| && i <= |c|
    requires s.procs[p] == Process(Removing(FirstSeed(s), c, i), false)
    ensures Reaches(s0, t, d) && Typed(t) && OnlyBusy(s, t, p) && t.log == s.log
    ensures t.procs[p].pc == Pushing(FirstSeed(s), c)
    decreases |c| - i
  {
    Then(s0, s, Step(p, 0), d);
    var s1 := Exec(s, Step(p, 0));
    if i == |c| {
      t := s1;
    } else {
      t := RemoveRun(s0, s1, p, c, i + 1, d);
    }
  }

  lemma PushRun(s0: State, s: State, p: Pid, c: seq<Ref>, d: Assumptions) returns (t: State, m: MatchRecord)
    requires Reaches(s0, s, d) && Typed(s) && p < |s.procs| && Distinct(c)
    requires s.procs[p] == Process(Pushing(FirstSeed(s), c), false)
    ensures Reaches(s0, t, d) && Typed(t) && OnlyBusy(s, t, p)
    ensures t.log == s.log + [m] && GoodMatch(m) && m.claimed == c
  {
    assert PcTyped(s.players, s.procs[p].pc);
    FormIsGood(s, FirstSeed(s), c);
    m := Form(s, FirstSeed(s), c);
    Then(s0, s, Step(p, 0), d);
    t := Exec(s, Step(p, 0));
  }

  /** Once a worker has its ten claims, nothing stops it from recording the match. */
  lemma CommitRun(s0: State, s: State, p: Pid, c: seq<Ref>, d: Assumptions) returns (t: State, m: MatchRecord)
    requires Reaches(s0, s, d) && Typed(s) && p < |s.procs| && Distinct(c)
    requires s.procs[p] == Process(Marking(FirstSeed(s), c, 0), false)
    ensures Reaches(s0, t, d) && Typed(t) && OnlyBusy(s, t, p)
    ensures t.log == s.log + [m] && GoodMatch(m) && m.claimed == c
  {
    var s1 := MarkRun(s0, s, p, c, 0, d);
    var s2 := RemoveRun(s0, s1, p, c, 0, d);
    t, m := PushRun(s0, s2, p, c, d);
  }

  // ---- The runs --------------------------------------------------------------------------

  /** Inserts are fresh, but the reaper may reset a live worker's claim. */
  const SLOW: Assumptions := Assumptions(true, false)

  /** The reaper spares live workers, but inserts may race. */
  const RACING: Assumptions := Assumptions(false, true)

  /** Worker 0 claims all ten players and stalls; the reaper (process 2) resets them; worker 1
      claims the same ten. */
  lemma BothClaim(s: State) returns (t: State)
    requires Init(s) && |s.procs| == 3
    ensures Reaches(s, t, SLOW) && Typed(t) && t.log == [] && |t.procs| == 3
    ensures t.procs[0] == Process(Marking(FirstSeed(t), TEN, 0), false)
    ensures t.procs[1] == Process(Marking(FirstSeed(t), TEN, 0), false)
  {
    var s1 := EnqueueMany(s, 10, SLOW);
    var s2 := ClaimAll(s, s1, 0, TEN, SLOW);
    var s3 := ResetAll(s, s2, 2, TEN);
    t := ClaimAll(s, s3, 1, TEN, SLOW);
  }

  lemma BothCommit(s0: State, s: State, c: seq<Ref>) returns (t: State, m0: MatchRecord, m1: MatchRecord)
    requires Reaches(s0, s, SLOW) && Typed(s) && s.log == [] && |s.procs| == 3 && Distinct(c)
    requires s.procs[0] == Process(Marking(FirstSeed(s), c, 0), false)
    requires s.procs[1] == Process(Marking(FirstSeed(s), c, 0), false)
    ensures Reaches(s0, t, SLOW) && t.log == [m0, m1]
    ensures GoodMatch(m0) && GoodMatch(m1) && m0.claimed == c && m1.claimed == c
  {
    var u;
    u, m0 := CommitRun(s0, s, 0, c, SLOW);
    t, m1 := CommitRun(s0, u, 1, c, SLOW);
  }

  /** With a reaper that resets the claims of a worker that is merely slow, the engine's
      central promise fails, even if no inserts race: ten players are recorded in two matches. */
  lemma SlowWorkerDoubleMatch(s: State)
    requires Init(s) && |s.procs| == 3
    ensures exists t :: Reaches(s, t, SLOW) && Listings(t.log, 0) == 2
  {
    var u := BothClaim(s);
    var t, m0, m1 := BothCommit(s, u, TEN);
    assert TEN[0] == 0;
    TwoListings(m0, m1, 0);
  }

  lemma TwoListings(m0: MatchRecord, m1: MatchRecord, x: Ref)
    requires TwoTeams(m0) && TwoTeams(m1) && x in m0.claimed && x in m1.claimed
    ensures Listings([m0, m1], x) == 2
  {
    ListedInOne(m0, x);
    ListedInOne(m1, x);
    assert [m0, m1][1..] == [m1];
  }

  lemma ListedInOne(m: MatchRecord, x: Ref)
    requires TwoTeams(m) && x in m.claimed
    ensures multiset(m.teamA)[x] + multiset(m.teamB)[x] == 1 && Listings([m], x) == 1
  {
    DistinctOnce(m.claimed, x);
    assert multiset(m.teamA)[x] + multiset(m.teamB)[x] == (multiset(m.teamA) + multiset(m.teamB))[x];
    assert [m][1..] == [];
  }

  /** With two racing requests for one id, both pass the duplicate test and both insert, even
      if the reaper spares live workers: the first record is still waiting but no longer in the
      pool, so nobody can cancel it. */
  lemma RacingEnqueuesLosePlayer(s: State, id: Uuid)
    requires Init(s) && |s.procs| == 2
    ensures exists t :: Reaches(s, t, RACING) && |t.players| == 2 && t.players[0].state == Waiting && !InPool(t, 0)
  {
    hide Reaches;
    Here(s, RACING);
    Then(s, s, Begin(0, Enqueue(id, 0)), RACING);
    var s1 := Exec(s, Begin(0, Enqueue(id, 0)));
    Then(s, s1, Begin(1, Enqueue(id, 0)), RACING);
    var s2 := Exec(s1, Begin(1, Enqueue(id, 0)));
    Then(s, s2, Step(0, 0), RACING);
    var s3 := Exec(s2, Step(0, 0));
    Then(s, s3, Step(1, 0), RACING);
    var s4 := Exec(s3, Step(1, 0));
    assert |s4.players| == 2 && s4.players[0].state == Waiting && !InPool(s4, 0);
  }

  lemma ReachedIsOwned(s: State, t: State)
    requires Init(s) && Reaches(s, t, BOTH)
    ensures Inv(t)
  {
    var acts :| Run(s, acts, BOTH) && Final(s, acts, BOTH) == t;
    InitInv(s);
    RunKeepsInv(s, acts, BOTH);
  }

  /** The recovery gap is reachable under both assumptions: a worker may crash right after
      claiming a player. By `UnstampedOrphanIsStuck` that player then stays claimed for ever. */
  lemma UnstampedOrphanReachable(s: State)
    requires Init(s) && |s.procs| > 0
    ensures exists t :: Reaches(s, t, BOTH) && Typed(t) && Orphan(t, 0) && t.players[0].claimTs == 0
  {
    hide Reaches;
    var s1 := EnqueueMany(s, 10, BOTH);
    StillUnstamped(s, s1);
    var s3 := FirstFound(s, s1, TEN);
    Then(s, s3, Step(0, 1), BOTH);
    var s4 := Exec(s3, Step(0, 1));
    Then(s, s4, Crash(0), BOTH);
    var s5 := Exec(s4, Crash(0));
    assert Orphan(s5, 0) && s5.players[0].claimTs == 0;
  }

  /** Worker 0 scans and finds the ten players. */
  lemma FirstFound(s0: State, s: State, c: seq<Ref>) returns (t: State)
    requires FirstTen(c) && Reaches(s0, s, BOTH) && Typed(s) && |s.procs| > 0 && s.procs[0] == Process(Idle, false)
    requires AllStates(s, Waiting)
    ensures Reaches(s0, t, BOTH) && Typed(t) && |t.procs| == |s.procs| && t.players == s.players
    ensures t.procs[0] == Process(Claiming(FirstSeed(s), c, 0, []), false)
  {
    hide Reaches;
    Then(s0, s, Begin(0, Attempt(0, 0)), BOTH);
    var s1 := Exec(s, Begin(0, Attempt(0, 0)));
    Then(s0, s1, Step(0, 0), BOTH);
    var s2 := Exec(s1, Step(0, 0));
    Then(s0, s2, Found(0, c), BOTH);
    t := Exec(s2, Found(0, c));
  }

  /** Under the assumptions a waiting player is never stamped. */
  lemma StillUnstamped(s: State, t: State)
    requires Init(s) && Reaches(s, t, BOTH) && Typed(t) && |t.players| > 0 && t.players[0].state == Waiting
    ensures t.players[0].claimTs == 0
  {
    var acts :| Run(s, acts, BOTH) && Final(s, acts, BOTH) == t;
    ClaimFieldsAreAccurate(s, acts, BOTH, 0);
  }

  /** Worker 0 has claimed the ten players. */
  lemma FirstMarking(s: State) returns (t: State)
    requires Init(s) && |s.procs| > 0
    ensures Reaches(s, t, BOTH) && Typed(t) && |t.procs| > 0 && |t.players| == 10
    ensures t.procs[0] == Process(Marking(FirstSeed(t), TEN, 0), false)
  {
    var s1 := EnqueueMany(s, 10, BOTH);
    assert s1.procs[0] == Process(Idle, false);
    t := ClaimAll(s, s1, 0, TEN, BOTH);
  }

  lemma CrashTaken(s0: State, s: State)
    requires Init(s0) && Reaches(s0, s, BOTH) && Typed(s) && |s.procs| > 0 && !s.procs[0].crashed && |s.players| > 0
    requires StandingOf(s.procs[0].pc, 0).taken
    ensures var t := Exec(s, Crash(0));
      && Inv(t) && Reaches(s0, t, BOTH) && HalfMatched(t, 0)
      && t.owner[0] == 0 && |t.procs| > 0 && t.procs[0].pc == s.procs[0].pc
  {
    Then(s0, s, Crash(0), BOTH);
    ReachedIsOwned(s0, s);
    ReachedIsOwned(s0, Exec(s, Crash(0)));
    assert RecordOk(s, 0) && StandingOk(s, 0, 0);
  }

  /** The other gap is reachable under both assumptions too, inside the pool and out of it: a
      worker may crash with one player marked, or with all ten removed and nothing recorded. By
      `HalfMatchedIsStuck` those players are never in any match. */
  lemma HalfMatchedReachable(s: State)
    requires Init(s) && |s.procs| > 0
    ensures exists t :: Reaches(s, t, BOTH) && HalfMatched(t, 0) && InPool(t, 0)
    ensures exists t :: Reaches(s, t, BOTH) && HalfMatched(t, 0) && !InPool(t, 0)
  {
    var s1 := FirstMarking(s);
    MarkedAndCrashed(s, s1);
    RemovedAndCrashed(s, s1);
  }

  lemma MarkedAndCrashed(s0: State, s: State)
    requires Init(s0) && Reaches(s0, s, BOTH) && Typed(s) && |s.procs| > 0 && |s.players| == 10
    requires s.procs[0] == Process(Marking(FirstSeed(s), TEN, 0), false)
    ensures exists t :: Reaches(s0, t, BOTH) && HalfMatched(t, 0) && InPool(t, 0)
  {
    hide Reaches;
    hide Inv;
    hide HalfMatched;
    Then(s0, s, Step(0, 0), BOTH);
    var s1 := Exec(s, Step(0, 0));
    assert TEN[..1][0] == 0;
    CrashTaken(s0, s1);
    var t := Exec(s1, Crash(0));
    HalfMatchedPlaces(t, 0);
    assert Reaches(s0, t, BOTH) && HalfMatched(t, 0) && InPool(t, 0);
  }

  lemma RemovedAndCrashed(s0: State, s: State)
    requires Init(s0) && Reaches(s0, s, BOTH) && Typed(s) && |s.procs| > 0 && |s.players| == 10
    requires s.procs[0] == Process(Marking(FirstSeed(s), TEN, 0), false)
    ensures exists t :: Reaches(s0, t, BOTH) && HalfMatched(t, 0) && !InPool(t, 0)
  {
    hide Reaches;
    hide Inv;
    hide HalfMatched;
    var s1 := MarkRun(s0, s, 0, TEN, 0, BOTH);
    var s2 := RemoveRun(s0, s1, 0, TEN, 0, BOTH);
    assert TEN[0] == 0;
    assert PcTyped(s2.players, s2.procs[0].pc);
    CrashTaken(s0, s2);
    var t := Exec(s2, Crash(0));
    HalfMatchedPlaces(t, 0);
    assert Reaches(s0, t, BOTH) && HalfMatched(t, 0) && !InPool(t, 0);
  }
}
