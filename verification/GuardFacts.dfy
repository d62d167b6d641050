/** The seed retry guard of one worker over runs (src/engine/matcher.rs): between its attempts
    anything may happen to the queue, and an attempt may succeed or fail. */
module GuardFacts {
  import opened Basics
  import opened Records
  import opened Models
  import opened Orders
  import opened Configuration
  import opened Relaxation
  import opened Balancer
  import opened QueueSpec
  import opened MatcherSpec

  /** One attempt as the guard sees it: what the two reads of the pool find while the seed is
      selected, the clock, and whether the attempt succeeded. */
  datatype Try = Try(first: Queue, second: Queue, now: nat, ok: bool)

  ghost predicate Readable(t: Try) {
    UniqueIds(t.first) && UniqueIds(t.second)
  }

  ghost predicate ValidTries(ts: seq<Try>) {
    forall i :: 0 <= i < |ts| ==> Readable(ts[i])
  }

  ghost function Seed(g: Guard, t: Try, cfg: Config): Option<Rec>
    requires Readable(t)
  {
    SelectSeedBetween(t.first, t.second, g, cfg, t.now)
  }

  ghost function After(g: Guard, t: Try, cfg: Config): Guard
    requires Readable(t)
  {
    match Seed(g, t, cfg)
    case None => g
    case Some(seed) => if t.ok then NO_FAILURES else RecordFailure(g, seed.id)
  }

  /** The seed is not the oldest waiting player. */
  ghost predicate PassesOver(g: Guard, t: Try, cfg: Config)
    requires Readable(t)
  {
    Oldest(t.first).Some? && Seed(g, t, cfg).value.id != Oldest(t.first).value.id
  }

  /** Waiting, and further from the primary's rating than the window of its waiting time. */
  predicate FarOff(r: Rec, primary: Rec, now: nat, cfg: Config) {
    var window := RelaxationWindow(if primary.join <= now then now - primary.join else 0, cfg);
    r.state == Waiting && (r.rating + window < primary.rating || primary.rating + window < r.rating)
  }

  /** Whom a worker selects, in plain terms. Without three failures recorded against the oldest
      waiting player, that player. With them, of the players in the second read that wait too far
      off for it, the one who joined first (then the lowest rating, then the lowest id); and if
      there is nobody, the oldest player after all. */
  lemma SeedMeans(g: Guard, t: Try, cfg: Config, primary: Rec)
    requires ValidQueue(t.first) && ValidQueue(t.second) && Oldest(t.first) == Some(primary)
    ensures primary in t.first && primary.state == Waiting
    ensures forall r :: r in t.first && r.state == Waiting ==> primary.join <= r.join
    ensures Seed(g, t, cfg).Some?
    ensures var seed := Seed(g, t, cfg).value;
      if g.seedId == Some(primary.id) && g.failures >= 3 && (exists r :: r in t.second && FarOff(r, primary, t.now, cfg)) then
        && seed in t.second && FarOff(seed, primary, t.now, cfg)
        && forall r :: r in t.second && FarOff(r, primary, t.now, cfg) ==>
             seed.join < r.join
             || (seed.join == r.join && (seed.rating < r.rating || (seed.rating == r.rating && seed.id <= r.id)))
      else seed == primary
  {
    var b := SeedBounds(primary, t.now, cfg);
    var outside := OutOfRange(t.second, b);
    assert IsLeast(ByAge, primary, WaitingIn(t.first));
    forall r | r in t.first && r.state == Waiting
      ensures primary.join <= r.join
    {
      OldestJoinedFirst(primary, WaitingIn(t.first), r);
    }
    forall r | r in t.second
      ensures r in outside <==> FarOff(r, primary, t.now, cfg)
    {
      SeedBoundsMean(primary, t.now, cfg, r.rating);
    }
    if outside != {} {
      assert IsLeast(ByAge, Least(ByAge, outside), outside);
    }
  }

  /** A match attempt that nobody interferes with treats its guard in just this way. */
  lemma AttemptMovesGuard(w: World, g: Guard, cfg: Config, worker: nat, clk: Clock, limit: nat)
    requires ValidQueue(w.queue) && ValidClock(clk)
    ensures var a := AttemptSpec(w, g, cfg, worker, clk, limit);
      a.guard == After(g, Try(w.queue, w.queue, clk.guardNow, a.outcome.Success?), cfg)
  {
    match Seed(g, Try(w.queue, w.queue, clk.guardNow, false), cfg)
    case None =>
    case Some(seed) => ScanMeans(w.queue, SeedBounds(seed, clk.scanNow, cfg));
  }

  /** So does one that others interfere with: whatever the two reads found, whatever the world
      `w` is by the time of the scan, and however stale the candidates are when claimed. */
  lemma ContendedAttemptMovesGuard(t: Try, w: World, g: Guard, cfg: Config, worker: nat, cands: seq<Rec>, clk: Clock, limit: nat)
    requires Readable(t) && Seed(g, t, cfg).Some? && ValidQueue(w.queue) && ValidClock(clk)
    requires forall i :: 0 <= i < |cands| ==> cands[i].rating <= MAX_SKILL_RATING
    ensures var seed := Seed(g, t, cfg).value;
      && (var a := CommitSpec(w, g, seed.id, worker, cands, clk, limit);
          a.guard == After(g, t.(ok := a.outcome.Success?), cfg))
      && (var a := SeededSpec(w, g, cfg, worker, clk, limit, seed);
          a.guard == After(g, t.(ok := a.outcome.Success?), cfg))
  {
    ScanMeans(w.queue, SeedBounds(Seed(g, t, cfg).value, clk.scanNow, cfg));
    FirstWaitingFacts(cands, MATCH_SIZE);
  }

  /** The guard before attempt `k`. */
  ghost function GuardAt(g: Guard, ts: seq<Try>, k: nat, cfg: Config): Guard
    requires ValidTries(ts) && k <= |ts|
  {
    if k == 0 then g else After(GuardAt(g, ts, k - 1, cfg), ts[k - 1], cfg)
  }

  /** Attempt `k` passes over the oldest waiting player. */
  ghost predicate Skips(g: Guard, ts: seq<Try>, k: nat, cfg: Config)
    requires ValidTries(ts) && k < |ts|
  {
    PassesOver(GuardAt(g, ts, k, cfg), ts[k], cfg)
  }

  /** Attempt `k` has a seed, and it is the oldest waiting player of that moment. */
  ghost predicate Anchored(g: Guard, ts: seq<Try>, k: nat, cfg: Config)
    requires ValidTries(ts) && k < |ts|
  {
    Oldest(ts[k].first).Some? && !Skips(g, ts, k, cfg)
  }

  ghost function AnchoredCount(g: Guard, ts: seq<Try>, i: nat, k: nat, cfg: Config): nat
    requires ValidTries(ts) && i <= k <= |ts|
    decreases k
  {
    if k == i then 0
    else AnchoredCount(g, ts, i, k - 1, cfg) + if Anchored(g, ts, k - 1, cfg) then 1 else 0
  }

  /** What a skip needs, and what it leaves in the guard. */
  lemma SkipMeans(g: Guard, t: Try, cfg: Config)
    requires Readable(t) && PassesOver(g, t, cfg)
    ensures Tripped(g, Oldest(t.first).value)
    ensures After(g, t, cfg).failures <= 1
    ensures After(g, t, cfg).seedId != Some(Oldest(t.first).value.id)
  {
  }

  lemma {:induction false} FailuresAreAnchored(g: Guard, ts: seq<Try>, i: nat, k: nat, cfg: Config)
    requires ValidTries(ts) && i < k <= |ts| && Skips(g, ts, i, cfg)
    ensures GuardAt(g, ts, k, cfg).failures <= 1 + AnchoredCount(g, ts, i + 1, k, cfg)
    decreases k
  {
    if k == i + 1 {
      SkipMeans(GuardAt(g, ts, i, cfg), ts[i], cfg);
    } else {
      FailuresAreAnchored(g, ts, i, k - 1, cfg);
      if Skips(g, ts, k - 1, cfg) {
        SkipMeans(GuardAt(g, ts, k - 1, cfg), ts[k - 1], cfg);
      }
    }
  }

  /** Skipping cannot starve the oldest player of attention: between two attempts that skip it,
      however far apart and whatever happens in between, at least two attempts are anchored on
      whoever is then the oldest. Players are told apart by id: an alternate that is the oldest
      player again, queued anew between the two reads, is no skip. */
  lemma TwoAnchoredBetweenSkips(g: Guard, ts: seq<Try>, i: nat, j: nat, cfg: Config)
    requires ValidTries(ts) && i < j < |ts| && Skips(g, ts, i, cfg) && Skips(g, ts, j, cfg)
    ensures AnchoredCount(g, ts, i + 1, j, cfg) >= 2
  {
    FailuresAreAnchored(g, ts, i, j, cfg);
    SkipMeans(GuardAt(g, ts, j, cfg), ts[j], cfg);
  }

  /** The attempt fails, the oldest waiting player has this id and does not change between the
      reads, and somebody waits outside that player's range. */
  ghost predicate Stuck(t: Try, id: Uuid, cfg: Config) {
    && ValidQueue(t.first) && ValidQueue(t.second) && !t.ok
    && Oldest(t.first).Some? && Oldest(t.first).value.id == id && Oldest(t.first).value in t.second
    && OutOfRange(t.second, SeedBounds(Oldest(t.first).value, t.now, cfg)) != {}
  }

  /** While stuck, the seed is passed over exactly when its failures have reached the limit. */
  lemma StuckStep(g: Guard, t: Try, id: Uuid, cfg: Config)
    requires Stuck(t, id, cfg)
    ensures var tripped := g.seedId == Some(id) && g.failures >= SEED_RETRY_LIMIT;
      && (PassesOver(g, t, cfg) <==> tripped)
      && (tripped ==> After(g, t, cfg).seedId != Some(id) && After(g, t, cfg).failures == 1)
      && (!tripped ==> After(g, t, cfg) == RecordFailure(g, id))
  {
    var primary := Oldest(t.first).value;
    var outside := OutOfRange(t.second, SeedBounds(primary, t.now, cfg));
    assert IsLeast(ByAge, primary, WaitingIn(t.first));
    assert IsLeast(ByAge, Least(ByAge, outside), outside);
    BoundsAreSound(primary.rating, Elapsed(primary.join, t.now), cfg);
    assert primary !in outside;
    assert Least(ByAge, outside).id != id;
  }

  /** At most three consecutive failures anchor on an unchanged oldest player while somebody
      waits outside its range: of any four such attempts, one skips it. */
  lemma FourFailuresSkip(g: Guard, ts: seq<Try>, k: nat, id: Uuid, cfg: Config)
    requires ValidTries(ts) && k + 4 <= |ts| && forall i :: k <= i < k + 4 ==> Stuck(ts[i], id, cfg)
    ensures exists i :: k <= i < k + 4 && Skips(g, ts, i, cfg)
  {
    StuckStep(GuardAt(g, ts, k, cfg), ts[k], id, cfg);
    StuckStep(GuardAt(g, ts, k + 1, cfg), ts[k + 1], id, cfg);
    StuckStep(GuardAt(g, ts, k + 2, cfg), ts[k + 2], id, cfg);
    StuckStep(GuardAt(g, ts, k + 3, cfg), ts[k + 3], id, cfg);
    if !Skips(g, ts, k, cfg) && !Skips(g, ts, k + 1, cfg) && !Skips(g, ts, k + 2, cfg) {
      assert Skips(g, ts, k + 3, cfg);
    }
  }

  /** `n` failures in a row are recorded against this id. */
  ghost predicate Failed(g: Guard, id: Uuid, n: nat) {
    if n == 0 then g.seedId != Some(id) else g.seedId == Some(id) && g.failures == n
  }

  lemma StuckCycle(g: Guard, t: Try, id: Uuid, n: nat, cfg: Config)
    requires Stuck(t, id, cfg) && n < 4 && Failed(g, id, n)
    ensures PassesOver(g, t, cfg) <==> n == 3
    ensures Failed(After(g, t, cfg), id, if n == 3 then 0 else n + 1)
  {
    StuckStep(g, t, id, cfg);
  }

  lemma {:induction false} FailuresCycle(ts: seq<Try>, k: nat, id: Uuid, cfg: Config)
    requires ValidTries(ts) && k <= |ts| && forall i :: 0 <= i < k ==> Stuck(ts[i], id, cfg)
    ensures Failed(GuardAt(NO_FAILURES, ts, k, cfg), id, k % 4)
  {
    hide After;
    hide PassesOver;
    hide Stuck;
    if k > 0 {
      FailuresCycle(ts, k - 1, id, cfg);
      StuckCycle(GuardAt(NO_FAILURES, ts, k - 1, cfg), ts[k - 1], id, (k - 1) % 4, cfg);
      assert k % 4 == if (k - 1) % 4 == 3 then 0 else (k - 1) % 4 + 1;
    }
  }

  /** A worker that starts fresh and stays stuck skips exactly every fourth attempt. */
  lemma SkipsEveryFourth(ts: seq<Try>, k: nat, id: Uuid, cfg: Config)
    requires ValidTries(ts) && k < |ts| && forall i :: 0 <= i <= k ==> Stuck(ts[i], id, cfg)
    ensures Skips(NO_FAILURES, ts, k, cfg) <==> k % 4 == 3
  {
    FailuresCycle(ts, k, id, cfg);
    StuckCycle(GuardAt(NO_FAILURES, ts, k, cfg), ts[k], id, k % 4, cfg);
  }
}
