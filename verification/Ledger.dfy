/** The engine as one caller sees it: any sequence of joins, cancellations and match attempts,
    each run to its end before the next. Here the attempt counters are included. */
module Ledger {
  import opened Basics
  import opened Records
  import opened Models
  import opened Orders
  import opened Configuration
  import opened Relaxation
  import opened Balancer
  import opened QueueSpec
  import opened MatcherSpec
  import opened AttemptFacts
  import opened Engine

  /** One call. An attempt is made by any worker, with any guard. */
  datatype Call =
    | Join(id: Uuid, rating: nat, now: nat)
    | Leave(id: Uuid)
    | TryMatch(worker: nat, guard: Guard, clk: Clock)

  ghost predicate ValidCalls(calls: seq<Call>) {
    forall i :: 0 <= i < |calls| && calls[i].TryMatch? ==> ValidClock(calls[i].clk)
  }

  ghost function Serve(w: World, c: Call, cfg: Config, limit: nat): World
    requires ValidQueue(w.queue) && (c.TryMatch? ==> ValidClock(c.clk))
  {
    match c
    case Join(id, rating, now) => EnqueueSpec(w, id, rating, now).0
    case Leave(id) => CancelSpec(w, id).0
    case TryMatch(worker, guard, clk) => AttemptSpec(w, guard, cfg, worker, clk, limit).world
  }

  const EMPTY: World := World({}, [], MetricValues(0, 0, 0, 0, 0, 0, 0, 0, 0, 0, 0, 0, 0, 0))

  /** Between calls everybody in the queue is waiting, with no claim, and the books balance. */
  ghost predicate Orderly(w: World, limit: nat) {
    && ValidQueue(w.queue) && (forall r :: r in w.queue ==> Unclaimed(r))
    && Accounts(|w.queue|, |w.history|, w.metrics, limit)
  }

  /** Nobody is lost: who joined has left, was matched, or is still in the queue. Every attempt
      that found a seed counted one cycle and one result. */
  predicate Accounts(queued: nat, kept: nat, m: MetricValues, limit: nat) {
    && m.queueSize == queued
    && m.playersEnqueued == m.playersCancelled + m.playersMatched + queued
    && m.playersMatched == MATCH_SIZE * m.matchesCreated
    && m.workerCycles == m.attemptsInsufficient + m.attemptsClaimFailed + m.matchesCreated
    && m.attemptsClaimFailed == 0 && m.staleClaimsRecovered == 0
    && m.spreadCount == m.deltaCount == m.matchesCreated
    && m.deltaSum <= m.spreadSum <= MAX_SKILL_RATING * m.matchesCreated
    && kept == Min(m.matchesCreated, limit)
  }

  lemma JoinKeepsOrder(w: World, id: Uuid, rating: nat, now: nat, limit: nat)
    requires Orderly(w, limit)
    ensures Orderly(EnqueueSpec(w, id, rating, now).0, limit)
  {
    var joined := EnqueueSpec(w, id, rating, now).0;
    if rating <= MAX_SKILL_RATING && RecordOf(w.queue, id).None? {
      var r := NewRec(id, rating, now);
      assert r !in w.queue;
      assert joined.queue == w.queue + {r};
    }
  }

  lemma LeaveKeepsOrder(w: World, id: Uuid, limit: nat)
    requires Orderly(w, limit)
    ensures Orderly(CancelSpec(w, id).0, limit)
  {
  }

  /** A successful attempt: the queue loses ten, the books gain one match. */
  lemma SuccessMetrics(w: World, g: Guard, cfg: Config, worker: nat, clk: Clock, limit: nat)
    requires ValidQueue(w.queue) && ValidClock(clk)
    ensures var a := AttemptSpec(w, g, cfg, worker, clk, limit);
      a.outcome.Success? ==>
        exists totalWait: nat :: a.world.metrics == CountSuccess(CountCycle(w.metrics), a.outcome.m, totalWait)
  {
    if SelectSeed(w.queue, g, cfg, clk.guardNow).Some? {
      var seed := SelectSeed(w.queue, g, cfg, clk.guardNow).value;
      ScanMeans(w.queue, SeedBounds(seed, clk.scanNow, cfg));
    }
  }

  lemma SuccessAccounts(n: nat, h: seq<Match>, v: MetricValues, m: Match, totalWait: nat, limit: nat)
    requires Accounts(n, |h|, v, limit) && n >= MATCH_SIZE
    requires m.teamDelta <= m.skillSpread <= MAX_SKILL_RATING
    ensures Accounts(n - MATCH_SIZE, |Newest(h + [m], limit)|, CountSuccess(CountCycle(v), m, totalWait), limit)
  {
  }

  lemma SuccessKeepsOrder(w: World, picked: set<Rec>, m: Match, totalWait: nat, limit: nat)
    requires Orderly(w, limit) && picked <= w.queue && |picked| == MATCH_SIZE
    requires m.teamDelta <= m.skillSpread <= MAX_SKILL_RATING
    ensures Orderly(World(w.queue - picked, Newest(w.history + [m], limit),
                           CountSuccess(CountCycle(w.metrics), m, totalWait)), limit)
  {
    hide Accounts;
    assert |w.queue - picked| == |w.queue| - |picked|;
    SubsetSize(picked, w.queue);
    SuccessAccounts(|w.queue|, w.history, w.metrics, m, totalWait, limit);
  }

  /** What a successful attempt does to the world. */
  lemma SuccessWorld(w: World, g: Guard, cfg: Config, worker: nat, clk: Clock, limit: nat)
    returns (picked: set<Rec>, totalWait: nat)
    requires ValidQueue(w.queue) && ValidClock(clk)
    requires AttemptSpec(w, g, cfg, worker, clk, limit).outcome.Success?
    ensures picked <= w.queue && |picked| == MATCH_SIZE
    ensures var a := AttemptSpec(w, g, cfg, worker, clk, limit);
      && a.outcome.m.teamDelta <= a.outcome.m.skillSpread <= MAX_SKILL_RATING
      && a.world == World(w.queue - picked, Newest(w.history + [a.outcome.m], limit),
                          CountSuccess(CountCycle(w.metrics), a.outcome.m, totalWait))
  {
    hide AttemptSpec;
    hide CountSuccess;
    hide CountCycle;
    hide Picked;
    hide Newest;
    SeedOfSuccess(w, g, cfg, worker, clk, limit);
    var seed := SelectSeed(w.queue, g, cfg, clk.guardNow).value;
    SeedIsQueued(w.queue, g, cfg, clk.guardNow, seed);
    BoundsAreSound(seed.rating, Elapsed(seed.join, clk.scanNow), cfg);
    SuccessMetrics(w, g, cfg, worker, clk, limit);
    AttemptSucceedsExactlyWhen(w, g, cfg, worker, clk, limit, seed);
    var a := AttemptSpec(w, g, cfg, worker, clk, limit);
    picked := Picked(w.queue, SeedBounds(seed, clk.scanNow, cfg));
    totalWait :| a.world.metrics == CountSuccess(CountCycle(w.metrics), a.outcome.m, totalWait);
  }

  lemma AttemptKeepsOrder(w: World, g: Guard, cfg: Config, worker: nat, clk: Clock, limit: nat)
    requires Orderly(w, limit) && ValidClock(clk)
    ensures Orderly(AttemptSpec(w, g, cfg, worker, clk, limit).world, limit)
  {
    hide AttemptSpec;
    hide CountSuccess;
    hide CountCycle;
    hide Newest;
    var a := AttemptSpec(w, g, cfg, worker, clk, limit);
    FailureLeavesNoTrace(w, g, cfg, worker, clk, limit);
    if a.outcome.Success? {
      var picked, totalWait := SuccessWorld(w, g, cfg, worker, clk, limit);
      SuccessKeepsOrder(w, picked, a.outcome.m, totalWait, limit);
    }
  }

  lemma SeedOfSuccess(w: World, g: Guard, cfg: Config, worker: nat, clk: Clock, limit: nat)
    requires ValidQueue(w.queue) && ValidClock(clk)
    requires AttemptSpec(w, g, cfg, worker, clk, limit).outcome.Success?
    ensures SelectSeed(w.queue, g, cfg, clk.guardNow).Some?
  {
  }

  /** The world after a sequence of calls. */
  ghost function Served(calls: seq<Call>, cfg: Config, limit: nat): (w: World)
    requires ValidCalls(calls)
    ensures Orderly(w, limit)
  {
    if calls == [] then EMPTY
    else
      var n := |calls| - 1;
      var before := Served(calls[..n], cfg, limit);
      ServeKeepsOrder(before, calls[n], cfg, limit);
      Serve(before, calls[n], cfg, limit)
  }

  lemma ServeKeepsOrder(w: World, c: Call, cfg: Config, limit: nat)
    requires Orderly(w, limit) && (c.TryMatch? ==> ValidClock(c.clk))
    ensures Orderly(Serve(w, c, cfg, limit), limit)
  {
    hide Orderly;
    hide AttemptSpec;
    hide EnqueueSpec;
    hide CancelSpec;
    match c
    case Join(id, rating, now) => JoinKeepsOrder(w, id, rating, now, limit);
    case Leave(id) => LeaveKeepsOrder(w, id, limit);
    case TryMatch(worker, guard, clk) => AttemptKeepsOrder(w, guard, cfg, worker, clk, limit);
  }

  lemma DivTimes(a: nat, b: nat)
    ensures CheckedDiv(a, b) * b <= a
  {
  }

  lemma AccountAverages(queued: nat, kept: nat, m: MetricValues, limit: nat)
    requires Accounts(queued, kept, m, limit)
    ensures var s := SnapshotOf(m);
      && s.avgTeamDelta <= s.avgSkillSpread <= MAX_SKILL_RATING
      && s.avgWaitMs * m.playersMatched <= m.waitTimeMs
  {
    var n := m.matchesCreated;
    DivMonotone(m.deltaSum, m.spreadSum, n);
    DivMonotone(m.spreadSum, MAX_SKILL_RATING * n, n);
    DivBound(MAX_SKILL_RATING, n);
    DivTimes(m.waitTimeMs, m.playersMatched);
  }

  /** The averages of a snapshot taken between calls: teams differ on average by no more than
      the spread of their match, which is never more than the rating scale. */
  lemma SnapshotAverages(calls: seq<Call>, cfg: Config, limit: nat)
    requires ValidCalls(calls)
    ensures var s := SnapshotOf(Served(calls, cfg, limit).metrics);
      && s.avgTeamDelta <= s.avgSkillSpread <= MAX_SKILL_RATING
      && s.avgWaitMs * s.values.playersMatched <= s.values.waitTimeMs
  {
    hide Accounts;
    var w := Served(calls, cfg, limit);
    AccountAverages(|w.queue|, |w.history|, w.metrics, limit);
  }
}
