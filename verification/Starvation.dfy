/** How long the oldest player can wait. A scan returns at most 200 candidates, the lowest by
    `(rating, id)`, so an old player with a high rating may be left out of its own scan. Each
    attempt then takes ten players that stand before it, and its turn comes. */
module Starvation {
  import opened Basics
  import opened Records
  import opened Models
  import opened Orders
  import opened Configuration
  import opened Relaxation
  import opened Balancer
  import opened QueueSpec
  import opened MatcherSpec
  import opened AttemptFacts

  /** The waiting players before `p` in `(rating, id)` order. */
  ghost function Below(q: Queue, p: Rec): set<Rec> {
    set r | r in q && r.state == Waiting && Less(ByRating, r, p)
  }

  /** Attempts until a player with `below` players before it is matched. */
  function AttemptsNeeded(below: nat): nat {
    if below < MAX_CANDIDATES then 1 else 1 + AttemptsNeeded(below - MATCH_SIZE)
  }

  /** The closed form, in terms of how many players are waiting. */
  lemma {:induction false} AttemptsNeededBound(below: nat, waiting: nat)
    requires below < waiting
    ensures AttemptsNeeded(below) <= (SaturatingSub(waiting, MAX_CANDIDATES) + MATCH_SIZE - 1) / MATCH_SIZE + 1
    decreases below
  {
    if below >= MAX_CANDIDATES {
      AttemptsNeededBound(below - MATCH_SIZE, waiting - MATCH_SIZE);
    }
  }

  /** The oldest waiting player is past the last threshold, whose delta covers the scale. */
  ghost predicate Floored(p: Rec, clk: Clock, cfg: Config) {
    && ValidClock(clk) && Validate(cfg).Ok? && cfg.stage5Delta >= MAX_SKILL_RATING
    && p.join <= clk.guardNow && clk.guardNow - p.join >= cfg.stage4Ms
    && p.join <= clk.scanNow && clk.scanNow - p.join >= cfg.stage4Ms
  }

  const WHOLE_SCALE: Bounds := Bounds(0, MAX_SKILL_RATING)

  /** Such a player is the seed whatever the retry guard says: its range leaves nobody out, so
      the guard finds no alternate. */
  lemma FlooredSeed(q: Queue, g: Guard, cfg: Config, clk: Clock, p: Rec)
    requires ValidQueue(q) && Oldest(q) == Some(p) && Floored(p, clk, cfg)
    ensures SelectSeed(q, g, cfg, clk.guardNow) == Some(p)
    ensures SeedBounds(p, clk.scanNow, cfg) == WHOLE_SCALE
    ensures InRange(q, WHOLE_SCALE) == WaitingIn(q)
  {
    assert p in q by {
      assert IsLeast(ByAge, p, WaitingIn(q));
    }
    assert SeedBounds(p, clk.guardNow, cfg) == WHOLE_SCALE;
    assert OutOfRange(q, WHOLE_SCALE) == {};
  }

  /** With fewer than 200 players before it, the player is scanned, and as the oldest it is
      taken. */
  lemma NearPlayerIsPicked(q: Queue, p: Rec)
    requires ValidQueue(q) && Oldest(q) == Some(p) && |Below(q, p)| < MAX_CANDIDATES
    requires InRange(q, WHOLE_SCALE) == WaitingIn(q)
    ensures p in Picked(q, WHOLE_SCALE)
  {
    var waiting := WaitingIn(q);
    var capped := Capped(q, WHOLE_SCALE);
    assert IsLeast(ByAge, p, waiting);
    LeastKIsLeast(ByRating, waiting, MAX_CANDIDATES);
    if p !in capped {
      assert capped <= Below(q, p);
      SubsetSize(capped, Below(q, p));
      ProperSubsetSmaller(capped, waiting);
    }
    LeastKIsLeast(ByAge, capped, MATCH_SIZE);
    LeastIsAmong(ByAge, p, capped, Picked(q, WHOLE_SCALE), MATCH_SIZE);
  }

  lemma NotBefore(q: Queue, p: Rec, x: Rec, y: Rec)
    requires UniqueIds(q) && p in q && x in WaitingIn(q) && x !in Below(q, p) && Less(ByRating, x, y)
    ensures !Less(ByRating, y, p)
  {
    assert x == p || Less(ByRating, p, x);
    LessTransitive(p, x, y);
    LessAsymmetric(ByRating, p, y);
  }

  /** With more players before it, everybody taken is one of them. */
  lemma FarPlayerAdvances(q: Queue, p: Rec)
    requires ValidQueue(q) && Oldest(q) == Some(p) && |Below(q, p)| >= MAX_CANDIDATES
    requires InRange(q, WHOLE_SCALE) == WaitingIn(q)
    ensures Picked(q, WHOLE_SCALE) <= Below(q, p) && |Picked(q, WHOLE_SCALE)| == MATCH_SIZE
  {
    var waiting := WaitingIn(q);
    var capped := Capped(q, WHOLE_SCALE);
    var below := Below(q, p);
    assert IsLeast(ByAge, p, waiting);
    LeastKIsLeast(ByRating, waiting, MAX_CANDIDATES);
    SubsetSize(below, waiting);
    LeastKIsLeast(ByAge, capped, MATCH_SIZE);
    forall x | x in capped
      ensures x in below
    {
      if x !in below {
        if below <= capped {
          ProperSubsetSmaller(below, capped);
        } else {
          var y :| y in below && y !in capped;
          assert Less(ByRating, x, y);
          NotBefore(q, p, x, y);
        }
      }
    }
  }

  /** One attempt: success either way. */
  lemma FlooredAttempt(w: World, g: Guard, cfg: Config, worker: nat, clk: Clock, limit: nat, p: Rec)
    requires ValidQueue(w.queue) && Oldest(w.queue) == Some(p) && Floored(p, clk, cfg)
    requires |WaitingIn(w.queue)| >= MATCH_SIZE
    ensures var a := AttemptSpec(w, g, cfg, worker, clk, limit);
      && a.outcome.Success? && ValidQueue(a.world.queue)
      && (if |Below(w.queue, p)| < MAX_CANDIDATES then p !in a.world.queue && p.id in PlayersOf(a.outcome.m)
          else
            && Oldest(a.world.queue) == Some(p)
            && |Below(a.world.queue, p)| == |Below(w.queue, p)| - MATCH_SIZE)
  {
    hide AttemptSpec;
    hide MatchOf;
    var a := AttemptSpec(w, g, cfg, worker, clk, limit);
    var picked := Picked(w.queue, WHOLE_SCALE);
    FlooredSeed(w.queue, g, cfg, clk, p);
    AttemptSucceedsExactlyWhen(w, g, cfg, worker, clk, limit, p);
    if |Below(w.queue, p)| < MAX_CANDIDATES {
      NearPlayerIsPicked(w.queue, p);
      PickedIsInMatch(AttemptSpec(w, g, cfg, worker, clk, limit).outcome.m, Picked(w.queue, WHOLE_SCALE), WHOLE_SCALE, p);
    } else {
      FarPlayerAdvances(w.queue, p);
      StillWaits(w.queue, Picked(w.queue, WHOLE_SCALE), p);
    }
  }

  lemma PickedIsInMatch(m: Match, picked: set<Rec>, b: Bounds, p: Rec)
    requires MatchOf(m, picked, b) && p in picked
    ensures p.id in PlayersOf(m)
  {
    assert p.id in Ids(picked);
  }

  lemma StillWaits(q: Queue, picked: set<Rec>, p: Rec)
    requires UniqueIds(q) && Oldest(q) == Some(p) && picked <= Below(q, p)
    ensures UniqueIds(q - picked) && Oldest(q - picked) == Some(p)
    ensures |Below(q - picked, p)| == |Below(q, p)| - |picked|
  {
    assert Below(q - picked, p) == Below(q, p) - picked;
    LessAsymmetric(ByRating, p, p);
    assert IsLeast(ByAge, p, WaitingIn(q));
    StillOldest(q, q - picked, p);
  }

  lemma StillOldest(q: Queue, rest: Queue, p: Rec)
    requires UniqueIds(q) && rest <= q && p in rest && Oldest(q) == Some(p)
    ensures UniqueIds(rest) && Oldest(rest) == Some(p)
  {
    assert IsLeast(ByAge, p, WaitingIn(q));
    assert IsLeast(ByAge, p, WaitingIn(rest));
    LeastUnique(ByAge, WaitingIn(rest), p, Least(ByAge, WaitingIn(rest)));
  }

  // ---- Runs of attempts ------------------------------------------------------------------

  /** Attempts by any workers, whatever their guards and clocks say. */
  datatype Turn = Turn(worker: nat, guard: Guard, clk: Clock)

  ghost predicate ValidTurns(turns: seq<Turn>) {
    forall i :: 0 <= i < |turns| ==> ValidClock(turns[i].clk)
  }

  ghost function Act(w: World, t: Turn, cfg: Config, limit: nat): Attempt
    requires ValidQueue(w.queue) && ValidClock(t.clk)
  {
    AttemptSpec(w, t.guard, cfg, t.worker, t.clk, limit)
  }

  /** An attempt that comes too early brings the player one attempt closer. */
  lemma OneCloser(w: World, t: Turn, cfg: Config, limit: nat, p: Rec)
    requires ValidQueue(w.queue) && Oldest(w.queue) == Some(p) && Floored(p, t.clk, cfg)
    requires |WaitingIn(w.queue)| >= MATCH_SIZE && AttemptsNeeded(|Below(w.queue, p)|) > 1
    ensures var q := Act(w, t, cfg, limit).world.queue;
      && ValidQueue(q) && Oldest(q) == Some(p) && |WaitingIn(q)| >= MATCH_SIZE
      && AttemptsNeeded(|Below(q, p)|) == AttemptsNeeded(|Below(w.queue, p)|) - 1
  {
    hide AttemptSpec;
    hide ValidQueue;
    FlooredAttempt(w, t.guard, cfg, t.worker, t.clk, limit, p);
    var q := Act(w, t, cfg, limit).world.queue;
    SubsetSize(Below(q, p), WaitingIn(q));
  }

  /** The world after each of some attempts, with no arrivals and no departures otherwise. */
  ghost predicate Played(ws: seq<World>, turns: seq<Turn>, cfg: Config, limit: nat) {
    && ValidTurns(turns) && |ws| == |turns| + 1
    && forall i :: 0 <= i < |turns| ==>
         ValidQueue(ws[i].queue) && ws[i + 1] == Act(ws[i], turns[i], cfg, limit).world
  }

  /** While the player is not yet due, `i` attempts have put it `10 * i` places forward. */
  lemma {:induction false} Advancing(ws: seq<World>, turns: seq<Turn>, cfg: Config, limit: nat, p: Rec, i: nat)
    requires Played(ws, turns, cfg, limit) && ValidQueue(ws[0].queue) && Oldest(ws[0].queue) == Some(p)
    requires |WaitingIn(ws[0].queue)| >= MATCH_SIZE
    requires forall k :: 0 <= k < |turns| ==> Floored(p, turns[k].clk, cfg)
    requires i <= |turns| && i < AttemptsNeeded(|Below(ws[0].queue, p)|)
    ensures ValidQueue(ws[i].queue) && Oldest(ws[i].queue) == Some(p)
    ensures |WaitingIn(ws[i].queue)| >= MATCH_SIZE
    ensures AttemptsNeeded(|Below(ws[i].queue, p)|) == AttemptsNeeded(|Below(ws[0].queue, p)|) - i
    decreases i
  {
    hide Act;
    hide AttemptsNeeded;
    hide Below;
    hide WaitingIn;
    hide ValidQueue;
    hide Floored;
    if i > 0 {
      Advancing(ws, turns, cfg, limit, p, i - 1);
      OneCloser(ws[i - 1], turns[i - 1], cfg, limit, p);
      assert ws[i - 1 + 1] == Act(ws[i - 1], turns[i - 1], cfg, limit).world;
    }
  }

  /** The oldest player, once past the last threshold, is matched by exactly the attempt that
      its place in the rating order dictates: not before, and then at the latest after one
      attempt for every ten players waiting beyond the first 200, and one more. */
  lemma OldestIsMatchedInTime(ws: seq<World>, turns: seq<Turn>, cfg: Config, limit: nat, p: Rec)
    requires Played(ws, turns, cfg, limit) && ValidQueue(ws[0].queue) && Oldest(ws[0].queue) == Some(p)
    requires |WaitingIn(ws[0].queue)| >= MATCH_SIZE
    requires forall k :: 0 <= k < |turns| ==> Floored(p, turns[k].clk, cfg)
    ensures var n := AttemptsNeeded(|Below(ws[0].queue, p)|);
      && n <= (SaturatingSub(|WaitingIn(ws[0].queue)|, MAX_CANDIDATES) + MATCH_SIZE - 1) / MATCH_SIZE + 1
      && (forall i :: 0 <= i < n && i <= |turns| ==> p in ws[i].queue)
      && (n <= |turns| ==>
            && ValidQueue(ws[n - 1].queue) && p !in ws[n].queue
            && Act(ws[n - 1], turns[n - 1], cfg, limit).outcome.Success?
            && p.id in PlayersOf(Act(ws[n - 1], turns[n - 1], cfg, limit).outcome.m))
  {
    var below, waiting := Below(ws[0].queue, p), WaitingIn(ws[0].queue);
    var n := AttemptsNeeded(|below|);
    assert IsLeast(ByAge, p, waiting);
    LessAsymmetric(ByRating, p, p);
    ProperSubsetSmaller(below, waiting);
    AttemptsNeededBound(|below|, |waiting|);
    forall i | 0 <= i < n && i <= |turns|
      ensures p in ws[i].queue
    {
      Advancing(ws, turns, cfg, limit, p, i);
      assert IsLeast(ByAge, p, WaitingIn(ws[i].queue));
    }
    if n <= |turns| {
      Advancing(ws, turns, cfg, limit, p, n - 1);
      var t := turns[n - 1];
      FlooredAttempt(ws[n - 1], t.guard, cfg, t.worker, t.clk, limit, p);
      assert ws[n - 1 + 1] == Act(ws[n - 1], t, cfg, limit).world;
    }
  }
}
