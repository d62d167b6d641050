/** What one match attempt does (src/engine/matcher.rs), as a function of the state it runs in.
    The method `Matcher.WorkerContext.AttemptMatch` computes exactly this. */
module MatcherSpec {
  import opened Basics
  import opened Records
  import opened Models
  import opened Orders
  import opened Configuration
  import opened Relaxation
  import opened Balancer
  import opened QueueSpec

  /** Consecutive failures after which a seed is skipped. */
  const SEED_RETRY_LIMIT: nat := 3

  /** The atomic counters. The queue size is the one that may go down. */
  datatype MetricValues = MetricValues(
    playersEnqueued: nat,
    playersCancelled: nat,
    matchesCreated: nat,
    playersMatched: nat,
    attemptsInsufficient: nat,
    attemptsClaimFailed: nat,
    workerCycles: nat,
    staleClaimsRecovered: nat,
    queueSize: int,
    waitTimeMs: nat,
    spreadSum: nat,
    spreadCount: nat,
    deltaSum: nat,
    deltaCount: nat
  )

  datatype MetricsSnapshot = MetricsSnapshot(values: MetricValues, avgWaitMs: nat, avgSkillSpread: nat, avgTeamDelta: nat)

  function SnapshotOf(m: MetricValues): MetricsSnapshot {
    MetricsSnapshot(m, CheckedDiv(m.waitTimeMs, m.playersMatched), CheckedDiv(m.spreadSum, m.spreadCount),
                    CheckedDiv(m.deltaSum, m.deltaCount))
  }

  /** Per-worker failure tracking. */
  datatype Guard = Guard(seedId: Option<Uuid>, failures: nat)

  const NO_FAILURES: Guard := Guard(None, 0)

  function RecordFailure(g: Guard, id: Uuid): Guard {
    if g.seedId == Some(id) then g.(failures := g.failures + 1) else Guard(Some(id), 1)
  }

  /** The seed failed its limit of consecutive attempts. */
  predicate Tripped(g: Guard, seed: Rec) {
    g.seedId == Some(seed.id) && g.failures >= SEED_RETRY_LIMIT
  }

  /** The clock readings of one attempt: when the guard, the scan bounds and the stage are
      computed, the claim time, and one reading per player marked as matched. */
  datatype Clock = Clock(guardNow: nat, scanNow: nat, stageNow: nat, claimMs: nat, marks: seq<nat>)

  ghost predicate ValidClock(clk: Clock) {
    |clk.marks| == MATCH_SIZE
  }

  function SeedBounds(seed: Rec, now: nat, cfg: Config): Bounds {
    ScanBounds(seed.rating, Elapsed(seed.join, now), cfg)
  }

  /** What the bounds of a scan admit, in plain arithmetic: the ratings within the window of
      somebody who has waited since joining. A clock behind the join counts as no wait. */
  lemma SeedBoundsMean(seed: Rec, now: nat, cfg: Config, other: nat)
    requires seed.rating <= 3000 && other <= 3000
    ensures var window := RelaxationWindow(if seed.join <= now then now - seed.join else 0, cfg);
      Within(other, SeedBounds(seed, now, cfg)) <==> other <= seed.rating + window && seed.rating <= other + window
  {
  }

  /** The oldest waiting player; once that player tripped the guard, the oldest one outside
      its range instead, if there is one. The pool is read twice, and the second read may see a
      different queue. */
  ghost function SelectSeedBetween(first: Queue, second: Queue, g: Guard, cfg: Config, now: nat): Option<Rec>
    requires UniqueIds(first) && UniqueIds(second)
  {
    match Oldest(first)
    case None => None
    case Some(primary) =>
      if Tripped(g, primary) then
        match OldestOf(OutOfRange(second, SeedBounds(primary, now, cfg)))
        case Some(alternate) => Some(alternate)
        case None => Some(primary)
      else Some(primary)
  }

  /** The seed when nobody interferes. */
  ghost function SelectSeed(q: Queue, g: Guard, cfg: Config, now: nat): Option<Rec>
    requires UniqueIds(q)
  {
    SelectSeedBetween(q, q, g, cfg, now)
  }

  datatype Outcome =
    | Success(m: Match)
    | PoolEmpty
    | InsufficientCandidates(found: nat, window: int, seedMmr: nat, stage: nat)
    | ClaimFailed(claimed: nat, needed: nat)

  /** The first `n` waiting records of a list. */
  function FirstWaiting(cands: seq<Rec>, n: nat): seq<Rec> {
    if cands == [] then []
    else
      var front := FirstWaiting(cands[..|cands| - 1], n);
      var last := cands[|cands| - 1];
      if |front| < n && last.state == Waiting then front + [last] else front
  }

  /** The claim loop takes candidate `k`: it is waiting, and fewer than `n` were taken before. */
  predicate Takes(was: seq<Rec>, n: nat, k: nat)
    requires k < |was|
  {
    |FirstWaiting(was[..k], n)| < n && was[k].state == Waiting
  }

  /** The candidates after the attempt: those it took are matched, each at its own reading, if
      there were ten of them; all others, and all of them otherwise, are as they were. */
  function CandidatesAfter(was: seq<Rec>, worker: nat, clk: Clock): (after: seq<Rec>)
    requires |clk.marks| == MATCH_SIZE
    ensures |after| == |was|
  {
    seq(|was|, k requires 0 <= k < |was| =>
      if |FirstWaiting(was, MATCH_SIZE)| == MATCH_SIZE && Takes(was, MATCH_SIZE, k) then
        MarkMatched(TryClaim(was[k], worker, clk.claimMs), clk.marks[|FirstWaiting(was[..k], MATCH_SIZE)|])
      else was[k])
  }

  /** The claimed players once they are marked. */
  function MarkedAll(claimed: seq<Rec>, worker: nat, clk: Clock): (r: seq<Rec>)
    requires |claimed| <= |clk.marks|
    ensures |r| == |claimed|
  {
    seq(|claimed|, i requires 0 <= i < |claimed| => MarkMatched(TryClaim(claimed[i], worker, clk.claimMs), clk.marks[i]))
  }

  function Waits(recs: seq<Rec>, now: nat): (w: seq<int>)
    ensures |w| == |recs|
    ensures forall i :: 0 <= i < |w| ==> w[i] == WaitMs(recs[i], now)
  {
    seq(|recs|, i requires 0 <= i < |recs| => WaitMs(recs[i], now))
  }

  function RecRatings(recs: seq<Rec>): (r: seq<int>)
    ensures |r| == |recs|
    ensures forall i :: 0 <= i < |r| ==> r[i] == recs[i].rating
  {
    seq(|recs|, i requires 0 <= i < |recs| => recs[i].rating)
  }

  function Snapshots(recs: seq<Rec>, now: nat): (s: seq<PlayerSnapshot>)
    ensures |s| == |recs|
    ensures forall i :: 0 <= i < |s| ==> s[i] == Capture(recs[i], now)
  {
    seq(|recs|, i requires 0 <= i < |recs| => Capture(recs[i], now))
  }

  /** The match of ten marked players. `now` would only matter for a player without a match
      time, of which there are none. */
  ghost function FormMatch(recs: seq<Rec>, now: nat): Match
    requires |recs| == MATCH_SIZE && SafeRatings(RecRatings(recs))
  {
    var c := Bits(Best(RecRatings(recs)), MATCH_SIZE);
    NonNegativeSum(Waits(recs, now));
    NewMatch(NewTeam(Snapshots(Chosen(recs, c), now)), NewTeam(Snapshots(Chosen(recs, Complement(c)), now)),
             Spread(RecRatings(recs)), Sum(Waits(recs, now)) / MATCH_SIZE, Largest(Waits(recs, now)))
  }

  function CountInsufficient(m: MetricValues): MetricValues {
    m.(workerCycles := m.workerCycles + 1, attemptsInsufficient := m.attemptsInsufficient + 1)
  }

  function CountClaimFailed(m: MetricValues): MetricValues {
    m.(attemptsClaimFailed := m.attemptsClaimFailed + 1)
  }

  function CountCycle(m: MetricValues): MetricValues {
    m.(workerCycles := m.workerCycles + 1)
  }

  function CountEnqueue(m: MetricValues): MetricValues {
    m.(playersEnqueued := m.playersEnqueued + 1, queueSize := m.queueSize + 1)
  }

  function CountCancel(m: MetricValues): MetricValues {
    m.(queueSize := m.queueSize - 1, playersCancelled := m.playersCancelled + 1)
  }

  function CountSuccess(v: MetricValues, m: Match, totalWait: nat): MetricValues {
    v.(matchesCreated := v.matchesCreated + 1,
       playersMatched := v.playersMatched + MATCH_SIZE,
       queueSize := v.queueSize - MATCH_SIZE,
       waitTimeMs := v.waitTimeMs + totalWait,
       spreadSum := v.spreadSum + m.skillSpread,
       spreadCount := v.spreadCount + 1,
       deltaSum := v.deltaSum + m.teamDelta,
       deltaCount := v.deltaCount + 1)
  }

  datatype World = World(queue: Queue, history: seq<Match>, metrics: MetricValues)

  datatype Attempt = Attempt(world: World, guard: Guard, outcome: Outcome)

  ghost predicate ValidQueue(q: Queue) {
    UniqueIds(q) && forall r :: r in q ==> r.rating <= MAX_SKILL_RATING
  }

  /** From the claims on: commit if ten candidates could be claimed, else roll back. The queue
      loses the players that were claimed. */
  ghost function CommitSpec(w: World, g: Guard, seedId: Uuid, worker: nat, cands: seq<Rec>, clk: Clock, limit: nat): Attempt
    requires ValidClock(clk) && forall i :: 0 <= i < |cands| ==> cands[i].rating <= MAX_SKILL_RATING
  {
    var claimed := FirstWaiting(cands, MATCH_SIZE);
    FirstWaitingFacts(cands, MATCH_SIZE);
    if |claimed| < MATCH_SIZE then
      Attempt(w.(metrics := CountClaimFailed(w.metrics)), RecordFailure(g, seedId), ClaimFailed(|claimed|, MATCH_SIZE))
    else
      var marked := MarkedAll(claimed, worker, clk);
      var m := FormMatch(marked, 0);
      NonNegativeSum(Waits(marked, 0));
      Attempt(World(w.queue - Elements(claimed), Newest(w.history + [m], limit),
                    CountSuccess(w.metrics, m, Sum(Waits(marked, 0)))),
              NO_FAILURES, Success(m))
  }

  /** From the scan on, with the given seed. */
  ghost function SeededSpec(w: World, g: Guard, cfg: Config, worker: nat, clk: Clock, limit: nat, seed: Rec): Attempt
    requires ValidQueue(w.queue) && ValidClock(clk)
  {
    var b := SeedBounds(seed, clk.scanNow, cfg);
    var cands := Scan(w.queue, b);
    ScanMeans(w.queue, b);
    if |cands| < MATCH_SIZE then
      Attempt(w.(metrics := CountInsufficient(w.metrics)), RecordFailure(g, seed.id),
              InsufficientCandidates(|cands|, b.hi - b.lo, seed.rating,
                                     RelaxationStage(Elapsed(seed.join, clk.stageNow), cfg)))
    else
      assert forall i :: 0 <= i < |cands| ==> cands[i] in cands;
      CommitSpec(w.(metrics := CountCycle(w.metrics)), g, seed.id, worker, cands, clk, limit)
  }

  /** One whole attempt, run without interference. */
  ghost function AttemptSpec(w: World, g: Guard, cfg: Config, worker: nat, clk: Clock, limit: nat): Attempt
    requires ValidQueue(w.queue) && ValidClock(clk)
  {
    match SelectSeed(w.queue, g, cfg, clk.guardNow)
    case None => Attempt(w, g, PoolEmpty)
    case Some(seed) => SeededSpec(w, g, cfg, worker, clk, limit, seed)
  }

  lemma {:induction false} FirstWaitingFacts(cands: seq<Rec>, n: nat)
    ensures |FirstWaiting(cands, n)| <= n
    ensures forall i :: 0 <= i < |FirstWaiting(cands, n)| ==>
      FirstWaiting(cands, n)[i] in cands && FirstWaiting(cands, n)[i].state == Waiting
  {
    if cands != [] {
      FirstWaitingFacts(cands[..|cands| - 1], n);
    }
  }

  /** What the ten marked players and their match look like. */
  ghost predicate Formed(marked: seq<Rec>, m: Match, totalWait: int) {
    && |marked| == MATCH_SIZE && SafeRatings(RecRatings(marked))
    && m == FormMatch(marked, 0) && totalWait == Sum(Waits(marked, 0))
  }

  /** The two outcomes of the claims, case by case. */
  lemma CommitCases(w: World, g: Guard, seedId: Uuid, worker: nat, was: seq<Rec>, clk: Clock, limit: nat)
    requires ValidClock(clk) && forall k :: 0 <= k < |was| ==> was[k].rating <= MAX_SKILL_RATING
    ensures var claimed := FirstWaiting(was, MATCH_SIZE);
      var a := CommitSpec(w, g, seedId, worker, was, clk, limit);
      && (|claimed| < MATCH_SIZE ==>
            a == Attempt(w.(metrics := CountClaimFailed(w.metrics)), RecordFailure(g, seedId),
                         ClaimFailed(|claimed|, MATCH_SIZE)))
      && (forall m, totalWait: nat :: |claimed| == MATCH_SIZE && Formed(MarkedAll(claimed, worker, clk), m, totalWait) ==>
            a == Attempt(World(w.queue - Elements(claimed), Newest(w.history + [m], limit),
                                           CountSuccess(w.metrics, m, totalWait)),
                         NO_FAILURES, Success(m)))
  {
    FirstWaitingFacts(was, MATCH_SIZE);
  }

  /** The two outcomes of the scan, case by case. */
  lemma SeededCases(w: World, g: Guard, cfg: Config, worker: nat, clk: Clock, limit: nat, seed: Rec)
    requires ValidQueue(w.queue) && ValidClock(clk)
    ensures UniqueIds(w.queue)
    ensures var b := SeedBounds(seed, clk.scanNow, cfg);
      var cands := Scan(w.queue, b);
      var a := SeededSpec(w, g, cfg, worker, clk, limit, seed);
      && (forall i :: 0 <= i < |cands| ==> cands[i].rating <= MAX_SKILL_RATING)
      && (if |cands| < MATCH_SIZE then
            a == Attempt(w.(metrics := CountInsufficient(w.metrics)), RecordFailure(g, seed.id),
                         InsufficientCandidates(|cands|, b.hi - b.lo, seed.rating,
                                                RelaxationStage(Elapsed(seed.join, clk.stageNow), cfg)))
          else a == CommitSpec(w.(metrics := CountCycle(w.metrics)), g, seed.id, worker, cands, clk, limit))
  {
    hide CommitSpec;
    var b := SeedBounds(seed, clk.scanNow, cfg);
    ScanMeans(w.queue, b);
    assert forall i :: 0 <= i < |Scan(w.queue, b)| ==> Scan(w.queue, b)[i] in Scan(w.queue, b);
  }
}
