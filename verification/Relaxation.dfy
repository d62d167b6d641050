/** Time-based constraint relaxation (src/engine/relaxation.rs). Times are passed in:
    `elapsedMs` is how long the player has been queued. */
module Relaxation {
  import opened Basics
  import opened Configuration

  function RelaxationWindow(elapsedMs: nat, c: Config): nat {
    if elapsedMs < c.stage1Ms then c.stage1Delta
    else if elapsedMs < c.stage2Ms then c.stage2Delta
    else if elapsedMs < c.stage3Ms then c.stage3Delta
    else if elapsedMs < c.stage4Ms then c.stage4Delta
    else c.stage5Delta
  }

  function RelaxationStage(elapsedMs: nat, c: Config): nat {
    if elapsedMs < c.stage1Ms then 1
    else if elapsedMs < c.stage2Ms then 2
    else if elapsedMs < c.stage3Ms then 3
    else if elapsedMs < c.stage4Ms then 4
    else 5
  }

  datatype Bounds = Bounds(lo: nat, hi: int)

  function ScanBounds(rating: nat, elapsedMs: nat, c: Config): Bounds {
    var window := RelaxationWindow(elapsedMs, c);
    Bounds(SaturatingSub(rating, window), Min(SaturatingAddU32(rating, window), MAX_SKILL_RATING))
  }

  predicate Within(rating: int, b: Bounds) {
    b.lo <= rating <= b.hi
  }

  /** How many thresholds lie at or below the elapsed time, in whatever order they come. */
  function Passed(thresholds: seq<nat>, elapsedMs: nat): nat {
    if thresholds == [] then 0
    else (if thresholds[0] <= elapsedMs then 1 else 0) + Passed(thresholds[1..], elapsedMs)
  }

  /** For a validated configuration the stage counts the thresholds already passed, and the
      window is that stage's delta. */
  lemma StageCountsThresholds(elapsedMs: nat, c: Config)
    requires Validate(c).Ok?
    ensures RelaxationStage(elapsedMs, c) == 1 + Passed(Thresholds(c), elapsedMs)
    ensures RelaxationWindow(elapsedMs, c) == Deltas(c)[RelaxationStage(elapsedMs, c) - 1]
  {
    PassedCons(c.stage4Ms, [], elapsedMs);
    PassedCons(c.stage3Ms, [c.stage4Ms], elapsedMs);
    PassedCons(c.stage2Ms, [c.stage3Ms, c.stage4Ms], elapsedMs);
    PassedCons(c.stage1Ms, [c.stage2Ms, c.stage3Ms, c.stage4Ms], elapsedMs);
    assert Thresholds(c) == [c.stage1Ms] + [c.stage2Ms, c.stage3Ms, c.stage4Ms];
    assert [c.stage2Ms] + [c.stage3Ms, c.stage4Ms] == [c.stage2Ms, c.stage3Ms, c.stage4Ms];
    assert [c.stage3Ms] + [c.stage4Ms] == [c.stage3Ms, c.stage4Ms];
    assert [c.stage4Ms] + [] == [c.stage4Ms];
  }

  lemma PassedCons(t: nat, ts: seq<nat>, elapsedMs: nat)
    ensures Passed([t] + ts, elapsedMs) == (if t <= elapsedMs then 1 else 0) + Passed(ts, elapsedMs)
  {
    assert ([t] + ts)[1..] == ts;
  }

  /** A player's window never narrows. */
  lemma WindowNeverNarrows(c: Config, t0: nat, t1: nat)
    requires Validate(c).Ok? && t0 <= t1
    ensures c.stage1Delta <= RelaxationWindow(t0, c) <= RelaxationWindow(t1, c) <= c.stage5Delta
    ensures RelaxationStage(t0, c) <= RelaxationStage(t1, c)
  {
  }

  /** Validation is needed for that: whenever two adjacent stages, each of positive length,
      have decreasing deltas, some player's window narrows. */
  lemma WindowNarrowsWithoutValidation(c: Config)
    requires forall i :: 1 <= i < 4 ==> Thresholds(c)[i - 1] < Thresholds(c)[i]
    requires c.stage1Ms > 0
    ensures (forall t0: nat, t1: nat :: t0 <= t1 ==> RelaxationWindow(t0, c) <= RelaxationWindow(t1, c))
            <==> (forall i :: 1 <= i < 5 ==> Deltas(c)[i - 1] <= Deltas(c)[i])
  {
    var t := Thresholds(c);
    assert t[0] < t[1] && t[1] < t[2] && t[2] < t[3];
    var d := Deltas(c);
    assert RelaxationWindow(0, c) == d[0] && RelaxationWindow(t[0], c) == d[1];
    assert RelaxationWindow(t[1], c) == d[2] && RelaxationWindow(t[2], c) == d[3];
    assert RelaxationWindow(t[3], c) == d[4];
    if forall i :: 1 <= i < 5 ==> d[i - 1] <= d[i] {
      assert d[0] <= d[1] && d[1] <= d[2] && d[2] <= d[3] && d[3] <= d[4];
    }
  }

  /** For every rating the queue accepts, at any age: the bounds contain the rating, are
      ordered, stay inside the rating scale, and are no wider than twice the window. */
  lemma BoundsAreSound(rating: nat, elapsedMs: nat, c: Config)
    requires rating <= MAX_SKILL_RATING
    ensures var b := ScanBounds(rating, elapsedMs, c);
      && 0 <= b.lo <= b.hi <= MAX_SKILL_RATING && Within(rating, b)
      && b.hi - b.lo <= 2 * RelaxationWindow(elapsedMs, c)
  {
  }

  /** What the bounds select, with no clamping in sight: on the rating scale, exactly the
      ratings at distance at most the window. */
  lemma BoundsSelectTheWindow(rating: nat, elapsedMs: nat, c: Config, other: nat)
    requires rating <= U32_MAX && other <= MAX_SKILL_RATING
    ensures Within(other, ScanBounds(rating, elapsedMs, c))
            <==> AbsDiff(rating, other) <= RelaxationWindow(elapsedMs, c)
  {
  }

  /** The subtraction `max - min` underflows for some 32-bit ratings, but only for ratings
      more than a window above the scale, which the queue refuses. */
  lemma BoundsOrderedExactlyWhen(rating: nat, elapsedMs: nat, c: Config)
    requires rating <= U32_MAX
    ensures var b := ScanBounds(rating, elapsedMs, c);
      b.lo <= b.hi <==> rating <= MAX_SKILL_RATING + RelaxationWindow(elapsedMs, c)
  {
  }

  /** The range of acceptable opponents only ever grows. */
  lemma BoundsNest(rating: nat, t0: nat, t1: nat, c: Config)
    requires Validate(c).Ok? && t0 <= t1
    ensures var b0, b1 := ScanBounds(rating, t0, c), ScanBounds(rating, t1, c);
      b1.lo <= b0.lo && b0.hi <= b1.hi
  {
    WindowNeverNarrows(c, t0, t1);
  }

  /** The starvation floor covers the whole scale for every player exactly when the last
      delta is at least the scale's length; validation does not enforce that. */
  lemma FloorCoversScaleExactlyWhen(c: Config)
    ensures (forall rating: nat, elapsedMs: nat ::
               rating <= MAX_SKILL_RATING && elapsedMs >= c.stage4Ms && Validate(c).Ok? ==>
               ScanBounds(rating, elapsedMs, c) == Bounds(0, MAX_SKILL_RATING))
            <==> (Validate(c).Ok? ==> c.stage5Delta >= MAX_SKILL_RATING)
  {
    if Validate(c).Ok? && c.stage5Delta < MAX_SKILL_RATING {
      assert RelaxationWindow(c.stage4Ms, c) == c.stage5Delta;
      assert ScanBounds(0, c.stage4Ms, c).hi == c.stage5Delta;
    }
  }
}
