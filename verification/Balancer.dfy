/** Exhaustive team balance (src/engine/balancer.rs): the loop over 1024 masks, what it
    computes, and why that is the best split into two equal teams. */
module Balancer {
  import opened Basics
  import opened Models

  const MATCH_SIZE: nat := 10
  const TEAM_SIZE: nat := 5
  const MASKS: nat := 1024

  // ---- Choices: who is on team A -----------------------------------------------------

  /** One flag per player, true for team A: a subset of the player positions. */
  type Choice = seq<bool>

  function Size(c: Choice): nat {
    if c == [] then 0 else (if c[0] then 1 else 0) + Size(c[1..])
  }

  function ChosenSum(r: seq<int>, c: Choice): int
    requires |r| == |c|
  {
    if c == [] then 0 else (if c[0] then r[0] else 0) + ChosenSum(r[1..], c[1..])
  }

  function Chosen<T>(s: seq<T>, c: Choice): seq<T>
    requires |s| == |c|
  {
    if c == [] then [] else (if c[0] then [s[0]] else []) + Chosen(s[1..], c[1..])
  }

  function Complement(c: Choice): Choice {
    seq(|c|, i requires 0 <= i < |c| => !c[i])
  }

  /** Difference between the two teams' totals. */
  function Delta(r: seq<int>, c: Choice): nat
    requires |r| == |c|
  {
    AbsDiff(2 * ChosenSum(r, c), Sum(r))
  }

  predicate IsSplit(c: Choice) {
    |c| == MATCH_SIZE && Size(c) == TEAM_SIZE
  }

  lemma {:induction false} ChosenLength<T>(s: seq<T>, c: Choice)
    requires |s| == |c|
    ensures |Chosen(s, c)| == Size(c)
  {
    if c != [] {
      ChosenLength(s[1..], c[1..]);
    }
  }

  lemma {:induction false} ComplementSize(c: Choice)
    ensures Size(c) + Size(Complement(c)) == |c|
  {
    if c != [] {
      assert Complement(c)[1..] == Complement(c[1..]);
      ComplementSize(c[1..]);
    }
  }

  lemma {:induction false} ComplementSum(r: seq<int>, c: Choice)
    requires |r| == |c|
    ensures ChosenSum(r, c) + ChosenSum(r, Complement(c)) == Sum(r)
  {
    if c != [] {
      assert Complement(c)[1..] == Complement(c[1..]);
      ComplementSum(r[1..], c[1..]);
    }
  }

  lemma ComplementCons(c: Choice)
    requires c != []
    ensures Complement(c) == [!c[0]] + Complement(c[1..])
  {
  }

  /** Nobody is lost and nobody is on both teams. */
  lemma {:induction false} TeamsPartition<T>(s: seq<T>, c: Choice)
    requires |s| == |c|
    ensures multiset(Chosen(s, c)) + multiset(Chosen(s, Complement(c))) == multiset(s)
  {
    if c != [] {
      ComplementCons(c);
      TeamsPartition(s[1..], c[1..]);
      assert Complement(c)[1..] == Complement(c[1..]);
      DealOne(s[0], Chosen(s[1..], c[1..]), Chosen(s[1..], Complement(c[1..])), s[1..], c[0]);
      assert s == [s[0]] + s[1..];
    }
  }

  lemma DealOne<T>(x: T, a: seq<T>, b: seq<T>, rest: seq<T>, toA: bool)
    requires multiset(a) + multiset(b) == multiset(rest)
    ensures multiset((if toA then [x] else []) + a) + multiset((if !toA then [x] else []) + b) == multiset([x] + rest)
  {
  }

  lemma {:induction false} ChosenSumBounds(r: seq<int>, c: Choice, hi: nat)
    requires |r| == |c|
    requires forall i :: 0 <= i < |r| ==> 0 <= r[i] <= hi
    ensures 0 <= ChosenSum(r, c) <= Size(c) * hi
    ensures ChosenSum(r, c) <= Sum(r)
  {
    if c != [] {
      ChosenSumBounds(r[1..], c[1..], hi);
      assert Size(c) * hi == (if c[0] then hi else 0) + Size(c[1..]) * hi;
    }
  }

  lemma {:induction false} ChosenSumConcat(r: seq<int>, t: seq<int>, c: Choice, d: Choice)
    requires |r| == |c| && |t| == |d|
    ensures ChosenSum(r + t, c + d) == ChosenSum(r, c) + ChosenSum(t, d)
    ensures Size(c + d) == Size(c) + Size(d)
  {
    if c == [] {
      assert r + t == t && c + d == d;
    } else {
      assert (r + t)[1..] == r[1..] + t && (c + d)[1..] == c[1..] + d;
      ChosenSumConcat(r[1..], t, c[1..], d);
    }
  }

  // ---- Masks: the machine form of a choice -------------------------------------------

  function ShiftRight(mask: nat, i: nat): nat {
    if i == 0 then mask else ShiftRight(mask / 2, i - 1)
  }

  predicate Bit(mask: nat, i: nat) {
    ShiftRight(mask, i) % 2 == 1
  }

  function CountOnes(mask: nat): nat {
    if mask == 0 then 0 else mask % 2 + CountOnes(mask / 2)
  }

  /** The choice a mask stands for: bit i decides player i. */
  function Bits(mask: nat, n: nat): (c: Choice)
    ensures |c| == n
    decreases n
  {
    if n == 0 then [] else [mask % 2 == 1] + Bits(mask / 2, n - 1)
  }

  function Mask(c: Choice): nat {
    if c == [] then 0 else (if c[0] then 1 else 0) + 2 * Mask(c[1..])
  }

  function Pow2(n: nat): nat {
    if n == 0 then 1 else 2 * Pow2(n - 1)
  }

  lemma {:induction false} BitsAt(mask: nat, n: nat, i: nat)
    requires i < n
    ensures Bits(mask, n)[i] == Bit(mask, i)
    decreases n
  {
    if i > 0 {
      BitsAt(mask / 2, n - 1, i - 1);
    }
  }

  /** Masks and choices are the same thing: every choice has a mask, which selects it. */
  lemma {:induction false} MaskRoundTrip(c: Choice)
    ensures Mask(c) < Pow2(|c|)
    ensures Bits(Mask(c), |c|) == c
    ensures CountOnes(Mask(c)) == Size(c)
  {
    if c != [] {
      MaskRoundTrip(c[1..]);
      assert Mask(c) / 2 == Mask(c[1..]);
    }
  }

  lemma {:induction false} CountOnesIsSize(mask: nat, n: nat)
    requires mask < Pow2(n)
    ensures CountOnes(mask) == Size(Bits(mask, n))
    decreases n
  {
    if n > 0 {
      assert Bits(mask, n)[1..] == Bits(mask / 2, n - 1);
      CountOnesIsSize(mask / 2, n - 1);
      if mask == 0 {
        assert mask / 2 == 0;
      }
    }
  }

  // ---- The search ----------------------------------------------------------------------

  /** What the search knows of one mask: the delta of its split and team A's total. */
  datatype Score = Score(delta: nat, aSum: int)

  /** The update rule: a smaller delta wins; on equal deltas the richer team A wins. */
  predicate Beats(x: Score, y: Score) {
    x.delta < y.delta || (x.delta == y.delta && x.aSum > y.aSum)
  }

  function MaskSum(r: seq<int>, mask: nat): int {
    ChosenSum(r, Bits(mask, |r|))
  }

  function MaskDelta(r: seq<int>, mask: nat): nat {
    AbsDiff(2 * MaskSum(r, mask), Sum(r))
  }

  /** The masks that count: those with exactly five bits set, each with its score. */
  function SplitScores(r: seq<int>): nat -> Option<Score> {
    (mask: nat) => if CountOnes(mask) == TEAM_SIZE then Some(Score(MaskDelta(r, mask), MaskSum(r, mask))) else None
  }

  /** The mask the search settles on among the first `bound`: no other split beats it, and it
      beats every split with a smaller mask. */
  ghost predicate IsBest(scores: nat -> Option<Score>, best: nat, bound: nat) {
    && best < bound && scores(best).Some?
    && (forall m: nat :: m < bound && scores(m).Some? ==> !Beats(scores(m).value, scores(best).value))
    && (forall m: nat :: m < best && scores(m).Some? ==> Beats(scores(best).value, scores(m).value))
  }

  lemma BestIsUnique(scores: nat -> Option<Score>, a: nat, b: nat, bound: nat)
    requires IsBest(scores, a, bound) && IsBest(scores, b, bound)
    ensures a == b
  {
  }

  /** The loop's variables after the first `bound` masks. */
  ghost predicate SearchState(scores: nat -> Option<Score>, bound: nat, mask: nat, score: Score) {
    || (IsBest(scores, mask, bound) && scores(mask) == Some(score))
    || ((forall m: nat :: m < bound ==> scores(m).None?) && mask == 0 && score == Score(U32_MAX, 0))
  }

  lemma SearchStep(scores: nat -> Option<Score>, bound: nat, mask: nat, score: Score)
    requires SearchState(scores, bound, mask, score)
    requires scores(bound).Some? ==> scores(bound).value.delta < U32_MAX
    ensures if scores(bound).Some? && Beats(scores(bound).value, score)
            then SearchState(scores, bound + 1, bound, scores(bound).value)
            else SearchState(scores, bound + 1, mask, score)
  {
  }

  /** If any mask counts, there is a best one. */
  lemma {:induction false} BestExists(scores: nat -> Option<Score>, bound: nat, some: nat)
    requires some < bound && scores(some).Some?
    requires forall m: nat :: m < bound && scores(m).Some? ==> scores(m).value.delta < U32_MAX
    ensures exists best :: IsBest(scores, best, bound)
  {
    var n, mask, score := 0, 0, Score(U32_MAX, 0);
    while n < bound
      invariant n <= bound && SearchState(scores, n, mask, score)
    {
      SearchStep(scores, n, mask, score);
      if scores(n).Some? && Beats(scores(n).value, score) {
        mask, score := n, scores(n).value;
      }
      n := n + 1;
    }
    assert IsBest(scores, mask, bound);
  }

  /** The mask `BestMask` returns, as a function: there is exactly one best mask. */
  ghost function Best(r: seq<int>): (best: nat)
    requires |r| == MATCH_SIZE && SafeRatings(r)
    ensures IsBest(SplitScores(r), best, MASKS)
  {
    LowestFiveBits();
    assert forall m: nat {:trigger SplitScores(r)(m)} :: m < MASKS && SplitScores(r)(m).Some? ==>
      SplitScores(r)(m).value.delta < U32_MAX by {
      forall m: nat | m < MASKS
        ensures SplitScores(r)(m).Some? ==> SplitScores(r)(m).value.delta < U32_MAX
      {
        ScoresFit(r, m);
      }
    }
    BestExists(SplitScores(r), MASKS, 31);
    var best :| IsBest(SplitScores(r), best, MASKS);
    best
  }

  datatype BalanceResult<T> = BalanceResult(teamA: seq<T>, teamB: seq<T>, teamDelta: nat, totalRating: nat)

  function SkillRatings(players: seq<Player>): (r: seq<int>)
    ensures |r| == |players|
    ensures forall i :: 0 <= i < |r| ==> r[i] == players[i].skillRating
  {
    seq(|players|, i requires 0 <= i < |players| => players[i].skillRating)
  }

  /** The largest bound on ratings under which no 32-bit sum in the search can overflow. */
  const SAFE_RATING: nat := 429_496_729

  ghost predicate SafeRatings(r: seq<int>) {
    forall i :: 0 <= i < |r| ==> 0 <= r[i] <= SAFE_RATING
  }

  /** Every 32-bit value of the search fits when ratings are at most `SAFE_RATING`. */
  lemma NoOverflow(r: seq<int>, c: Choice)
    requires |r| == MATCH_SIZE && IsSplit(c) && SafeRatings(r)
    ensures 0 <= Sum(r) < U32_MAX
    ensures 0 <= ChosenSum(r, c) <= 2 * ChosenSum(r, c) <= U32_MAX
    ensures Delta(r, c) < U32_MAX
  {
    SumBounds(r, 0, SAFE_RATING);
    ChosenSumBounds(r, c, SAFE_RATING);
  }

  /** `SAFE_RATING` is the exact limit: ten players who all have one rating keep the 32-bit
      total in range if and only if that rating is at most `SAFE_RATING`. */
  lemma SafeRatingIsTight(r: seq<int>, rating: nat)
    requires |r| == MATCH_SIZE && forall i :: 0 <= i < |r| ==> r[i] == rating
    ensures Sum(r) <= U32_MAX <==> rating <= SAFE_RATING
  {
    SumBounds(r, rating, rating);
  }

  /** The search over all masks: the split it finds and its delta, computed in 32 bits. */
  method BestMask(ratings: seq<int>) returns (bestMask: nat, bestDelta: nat)
    requires |ratings| == MATCH_SIZE && SafeRatings(ratings)
    ensures IsBest(SplitScores(ratings), bestMask, MASKS)
    ensures bestDelta == MaskDelta(ratings, bestMask)
  {
    SumBounds(ratings, 0, SAFE_RATING);
    var totalSum: nat := Sum(ratings);
    bestMask := 0;
    bestDelta := U32_MAX;
    var bestASum := 0;
    for mask := 0 to MASKS
      invariant SearchState(SplitScores(ratings), mask, bestMask, Score(bestDelta, bestASum))
    {
      ScoresFit(ratings, mask);
      SearchStep(SplitScores(ratings), mask, bestMask, Score(bestDelta, bestASum));
      if CountOnes(mask) != TEAM_SIZE {
        continue;
      }
      var aSum := MaskSum(ratings, mask);
      var delta := AbsDiff(2 * aSum, totalSum);
      if delta < bestDelta || (delta == bestDelta && aSum > bestASum) {
        bestDelta := delta;
        bestMask := mask;
        bestASum := aSum;
      }
    }
    LowestFiveBits();
    assert SplitScores(ratings)(31).Some?;
  }

  lemma LowestFiveBits()
    ensures CountOnes(31) == TEAM_SIZE
  {
    assert CountOnes(7) == 3;
    assert CountOnes(31) == 2 + CountOnes(7);
  }

  lemma ScoresFit(r: seq<int>, mask: nat)
    requires |r| == MATCH_SIZE && SafeRatings(r) && mask < MASKS
    ensures SplitScores(r)(mask).Some? ==> SplitScores(r)(mask).value.delta < U32_MAX
  {
    if CountOnes(mask) == TEAM_SIZE {
      Pow2Of10();
      CountOnesIsSize(mask, MATCH_SIZE);
      NoOverflow(r, Bits(mask, MATCH_SIZE));
    }
  }

  /** The two teams a mask stands for, each in input order. */
  method Teams(players: seq<Player>, mask: nat) returns (teamA: seq<Player>, teamB: seq<Player>)
    requires |players| == MATCH_SIZE
    ensures teamA == Chosen(players, Bits(mask, MATCH_SIZE))
    ensures teamB == Chosen(players, Complement(Bits(mask, MATCH_SIZE)))
  {
    ghost var c := Bits(mask, MATCH_SIZE);
    teamA, teamB := [], [];
    for i := 0 to MATCH_SIZE
      invariant teamA == Chosen(players[..i], c[..i])
      invariant teamB == Chosen(players[..i], Complement(c)[..i])
    {
      BitsAt(mask, MATCH_SIZE, i);
      ChosenSnoc(players, c, i);
      ChosenSnoc(players, Complement(c), i);
      if Bit(mask, i) {
        teamA := teamA + [players[i]];
      } else {
        teamB := teamB + [players[i]];
      }
    }
    assert players[..MATCH_SIZE] == players && c[..MATCH_SIZE] == c;
    assert Complement(c)[..MATCH_SIZE] == Complement(c);
  }

  lemma ChosenSnoc<T>(s: seq<T>, c: Choice, i: nat)
    requires |s| == |c| && i < |s|
    ensures Chosen(s[..i + 1], c[..i + 1]) == Chosen(s[..i], c[..i]) + (if c[i] then [s[i]] else [])
  {
    assert s[..i + 1] == s[..i] + [s[i]] && c[..i + 1] == c[..i] + [c[i]];
    ChosenAppend(s[..i], c[..i], s[i], c[i]);
  }

  lemma {:induction false} ChosenAppend<T>(s: seq<T>, c: Choice, x: T, b: bool)
    requires |s| == |c|
    ensures Chosen(s + [x], c + [b]) == Chosen(s, c) + (if b then [x] else [])
  {
    var tail := if b then [x] else [];
    if c == [] {
      assert s + [x] == [x] && c + [b] == [b];
      assert Chosen([x], [b]) == tail + Chosen<T>([], []);
    } else {
      var head := if c[0] then [s[0]] else [];
      assert (s + [x])[1..] == s[1..] + [x] && (c + [b])[1..] == c[1..] + [b];
      ChosenAppend(s[1..], c[1..], x, b);
      calc {
        Chosen(s + [x], c + [b]);
        head + Chosen(s[1..] + [x], c[1..] + [b]);
        head + (Chosen(s[1..], c[1..]) + tail);
        (head + Chosen(s[1..], c[1..])) + tail;
        Chosen(s, c) + tail;
      }
    }
  }

  /** The result of balancing, as a function of the best mask. */
  function Split(players: seq<Player>, mask: nat): BalanceResult<Player>
    requires |players| == MATCH_SIZE && Sum(SkillRatings(players)) >= 0
  {
    var c := Bits(mask, MATCH_SIZE);
    BalanceResult(Chosen(players, c), Chosen(players, Complement(c)),
                  MaskDelta(SkillRatings(players), mask), Sum(SkillRatings(players)))
  }

  method ExhaustiveBalance(players: seq<Player>) returns (b: BalanceResult<Player>)
    requires |players| == MATCH_SIZE && SafeRatings(SkillRatings(players))
    ensures Sum(SkillRatings(players)) >= 0
    ensures b == Split(players, Best(SkillRatings(players)))
    ensures |b.teamA| == |b.teamB| == TEAM_SIZE
    ensures multiset(b.teamA) + multiset(b.teamB) == multiset(players)
    ensures b.teamDelta == Sum(SkillRatings(b.teamA)) - Sum(SkillRatings(b.teamB))
    ensures forall c :: IsSplit(c) ==> b.teamDelta <= Delta(SkillRatings(players), c)
  {
    var ratings := SkillRatings(players);
    SumBounds(ratings, 0, SAFE_RATING);
    var mask, delta := BestMask(ratings);
    var teamA, teamB := Teams(players, mask);
    b := BalanceResult(teamA, teamB, delta, Sum(ratings));
    BestIsUnique(SplitScores(ratings), mask, Best(ratings), MASKS);
    SplitGuarantees(players, mask);
  }

  lemma SplitGuarantees(players: seq<Player>, mask: nat)
    requires |players| == MATCH_SIZE && Sum(SkillRatings(players)) >= 0
    requires IsBest(SplitScores(SkillRatings(players)), mask, MASKS)
    ensures var b := Split(players, mask);
      && |b.teamA| == |b.teamB| == TEAM_SIZE
      && multiset(b.teamA) + multiset(b.teamB) == multiset(players)
      && b.teamDelta == Sum(SkillRatings(b.teamA)) - Sum(SkillRatings(b.teamB))
      && forall c :: IsSplit(c) ==> b.teamDelta <= Delta(SkillRatings(players), c)
  {
    var r := SkillRatings(players);
    var c := Bits(mask, MATCH_SIZE);
    BestIsASplit(r, mask);
    ChosenLength(players, c);
    ChosenLength(players, Complement(c));
    TeamsPartition(players, c);
    ChosenRatings(players, c);
    ChosenRatings(players, Complement(c));
    ComplementSum(r, c);
    TeamAIsNotWeaker(r, mask);
    forall d | IsSplit(d)
      ensures MaskDelta(r, mask) <= Delta(r, d)
    {
      BestBeatsEverySplit(r, mask, d);
    }
  }

  lemma {:induction false} ChosenRatings(players: seq<Player>, c: Choice)
    requires |players| == |c|
    ensures Sum(SkillRatings(Chosen(players, c))) == ChosenSum(SkillRatings(players), c)
  {
    if c != [] {
      ChosenRatings(players[1..], c[1..]);
      assert SkillRatings(players)[1..] == SkillRatings(players[1..]);
      var rest := Chosen(players[1..], c[1..]);
      if c[0] {
        assert SkillRatings([players[0]] + rest) == [players[0].skillRating] + SkillRatings(rest);
      } else {
        assert Chosen(players, c) == rest;
      }
    } else {
      assert SkillRatings(Chosen(players, c)) == [];
    }
  }

  lemma Pow2Of10()
    ensures Pow2(10) == MASKS
  {
    assert Pow2(5) == 32;
    assert Pow2(10) == 32 * Pow2(5);
  }

  // ---- What the search guarantees ------------------------------------------------------

  lemma BestIsASplit(r: seq<int>, best: nat)
    requires IsBest(SplitScores(r), best, MASKS)
    ensures IsSplit(Bits(best, MATCH_SIZE)) && IsSplit(Complement(Bits(best, MATCH_SIZE)))
  {
    Pow2Of10();
    CountOnesIsSize(best, MATCH_SIZE);
    ComplementSize(Bits(best, MATCH_SIZE));
  }

  /** The best mask is at least as good as every way to pick five of the ten. */
  lemma BestBeatsEverySplit(r: seq<int>, best: nat, c: Choice)
    requires |r| == MATCH_SIZE && IsBest(SplitScores(r), best, MASKS) && IsSplit(c)
    ensures MaskDelta(r, best) <= Delta(r, c)
    ensures MaskDelta(r, best) == Delta(r, c) ==> MaskSum(r, best) >= ChosenSum(r, c)
  {
    Pow2Of10();
    MaskRoundTrip(c);
    assert SplitScores(r)(Mask(c)) == Some(Score(Delta(r, c), ChosenSum(r, c)));
  }

  /** The tie-break never leaves team A the weaker one: otherwise the complementary split
      would have won. Hence the delta is exactly A's total minus B's. */
  lemma TeamAIsNotWeaker(r: seq<int>, best: nat)
    requires |r| == MATCH_SIZE && IsBest(SplitScores(r), best, MASKS)
    ensures MaskSum(r, best) >= Sum(r) - MaskSum(r, best)
    ensures MaskDelta(r, best) == 2 * MaskSum(r, best) - Sum(r)
  {
    var c := Bits(best, MATCH_SIZE);
    BestIsASplit(r, best);
    ComplementSum(r, c);
    BestBeatsEverySplit(r, best, Complement(c));
  }

  /** Any split of one listing of the ratings is available in every other listing. */
  lemma {:induction false} Transfer(s: seq<int>, t: seq<int>, c: Choice) returns (d: Choice)
    requires multiset(s) == multiset(t) && |c| == |s|
    ensures |d| == |t| && Size(d) == Size(c) && ChosenSum(t, d) == ChosenSum(s, c)
    decreases |s|
  {
    if s == [] {
      assert |multiset(t)| == 0;
      d := [];
    } else {
      assert s[0] in multiset(t);
      var j :| 0 <= j < |t| && t[j] == s[0];
      RemoveOne(s, t, j);
      var e := Transfer(s[1..], t[..j] + t[j + 1..], c[1..]);
      assert |e| == |t| - 1;
      d := e[..j] + [c[0]] + e[j..];
      ChosenSumConcat(t[..j], t[j + 1..], e[..j], e[j..]);
      assert e == e[..j] + e[j..];
      ChosenSumConcat(t[..j], [t[j]] + t[j + 1..], e[..j], [c[0]] + e[j..]);
      assert ([t[j]] + t[j + 1..])[1..] == t[j + 1..] && ([c[0]] + e[j..])[1..] == e[j..];
      assert t[..j] + ([t[j]] + t[j + 1..]) == t;
      assert e[..j] + ([c[0]] + e[j..]) == d;
    }
  }

  /** Delta and both totals do not depend on the order in which the players were claimed. */
  lemma BalanceIgnoresOrder(s: seq<int>, t: seq<int>, bestS: nat, bestT: nat)
    requires |s| == MATCH_SIZE && |t| == MATCH_SIZE && multiset(s) == multiset(t)
    requires IsBest(SplitScores(s), bestS, MASKS) && IsBest(SplitScores(t), bestT, MASKS)
    ensures Sum(s) == Sum(t)
    ensures MaskDelta(s, bestS) == MaskDelta(t, bestT)
    ensures MaskSum(s, bestS) == MaskSum(t, bestT)
  {
    SumIgnoresOrder(s, t);
    BalanceNotWorse(s, t, bestS, bestT);
    BalanceNotWorse(t, s, bestT, bestS);
    TeamAIsNotWeaker(s, bestS);
    TeamAIsNotWeaker(t, bestT);
  }

  lemma BalanceNotWorse(s: seq<int>, t: seq<int>, bestS: nat, bestT: nat)
    requires |s| == MATCH_SIZE && |t| == MATCH_SIZE && multiset(s) == multiset(t)
    requires IsBest(SplitScores(s), bestS, MASKS) && IsBest(SplitScores(t), bestT, MASKS) && Sum(s) == Sum(t)
    ensures MaskDelta(t, bestT) <= MaskDelta(s, bestS)
  {
    BestIsASplit(s, bestS);
    var d := Transfer(s, t, Bits(bestS, MATCH_SIZE));
    BestBeatsEverySplit(t, bestT, d);
  }

  lemma {:induction false} SumIgnoresOrder(s: seq<int>, t: seq<int>)
    requires multiset(s) == multiset(t)
    ensures Sum(s) == Sum(t)
  {
    var all := seq(|s|, i => true);
    AllChosen(s, all);
    var d := Transfer(s, t, all);
    assert |s| == |t| by {
      assert |multiset(s)| == |multiset(t)|;
    }
    FullSizeIsAll(d);
    AllChosen(t, d);
  }

  lemma {:induction false} AllChosen(s: seq<int>, c: Choice)
    requires |s| == |c| && forall i :: 0 <= i < |c| ==> c[i]
    ensures ChosenSum(s, c) == Sum(s) && Size(c) == |c|
  {
    if c != [] {
      AllChosen(s[1..], c[1..]);
    }
  }

  lemma {:induction false} FullSizeIsAll(c: Choice)
    ensures Size(c) <= |c|
    ensures Size(c) == |c| ==> forall i :: 0 <= i < |c| ==> c[i]
  {
    if c != [] {
      FullSizeIsAll(c[1..]);
      assert c == [c[0]] + c[1..];
    }
  }

  function Largest(s: seq<int>): (m: int)
    requires s != []
    ensures m in s && forall x :: x in s ==> x <= m
  {
    if |s| == 1 then s[0]
    else
      var rest := Largest(s[1..]);
      assert s == [s[0]] + s[1..];
      if s[0] >= rest then s[0] else rest
  }

  function Smallest(s: seq<int>): (m: int)
    requires s != []
    ensures m in s && forall x :: x in s ==> m <= x
  {
    if |s| == 1 then s[0]
    else
      var rest := Smallest(s[1..]);
      assert s == [s[0]] + s[1..];
      if s[0] <= rest then s[0] else rest
  }

  /** The quality figure of a match: highest rating minus lowest. */
  function Spread(r: seq<int>): (spread: nat)
    requires r != []
  {
    Largest(r) - Smallest(r)
  }

  // ---- The delta never exceeds the spread ------------------------------------------------

  lemma SpreadInside(r: seq<int>, lo: int, hi: int)
    requires r != [] && forall i :: 0 <= i < |r| ==> lo <= r[i] <= hi
    ensures Spread(r) <= hi - lo
  {
  }

  predicate Sorted(s: seq<int>) {
    forall i, j :: 0 <= i < j < |s| ==> s[i] <= s[j]
  }

  function InsertInt(x: int, s: seq<int>): seq<int> {
    if s == [] || x <= s[0] then [x] + s else [s[0]] + InsertInt(x, s[1..])
  }

  function SortInts(s: seq<int>): seq<int> {
    if s == [] then [] else InsertInt(s[0], SortInts(s[1..]))
  }

  lemma {:induction false} InsertIntMultiset(x: int, s: seq<int>)
    ensures multiset(InsertInt(x, s)) == multiset(s) + multiset{x}
  {
    if s != [] && x > s[0] {
      InsertIntMultiset(x, s[1..]);
      assert s == [s[0]] + s[1..];
    }
  }

  lemma {:induction false} InsertIntSorted(x: int, s: seq<int>)
    requires Sorted(s)
    ensures Sorted(InsertInt(x, s))
  {
    if s != [] && x > s[0] {
      InsertIntSorted(x, s[1..]);
      InsertIntMultiset(x, s[1..]);
      var rest := InsertInt(x, s[1..]);
      forall i | 0 <= i < |rest|
        ensures s[0] <= rest[i]
      {
        assert rest[i] in multiset(rest);
        assert rest[i] == x || rest[i] in s[1..];
      }
    }
  }

  lemma {:induction false} SortIntsSorted(s: seq<int>)
    ensures Sorted(SortInts(s)) && multiset(SortInts(s)) == multiset(s)
  {
    if s != [] {
      SortIntsSorted(s[1..]);
      InsertIntSorted(s[0], SortInts(s[1..]));
      InsertIntMultiset(s[0], SortInts(s[1..]));
      assert s == [s[0]] + s[1..];
    }
  }

  /** Every second player. */
  function Alternating(n: nat): Choice {
    if n == 0 then [] else [false, true] + Alternating(n - 1)
  }

  /** On sorted ratings the alternating split's difference telescopes. */
  lemma {:induction false} AlternatingDelta(s: seq<int>, n: nat)
    requires Sorted(s) && |s| == 2 * n
    ensures |Alternating(n)| == 2 * n && Size(Alternating(n)) == n
    ensures n > 0 ==> 0 <= 2 * ChosenSum(s, Alternating(n)) - Sum(s) <= s[|s| - 1] - s[0]
    ensures n == 0 ==> ChosenSum(s, Alternating(n)) == Sum(s) == 0
    decreases n
  {
    if n > 0 {
      var rest := s[2..];
      AlternatingDelta(rest, n - 1);
      var alt := Alternating(n - 1);
      assert s == [s[0], s[1]] + rest;
      ChosenSumConcat([s[0], s[1]], rest, [false, true], alt);
      SumConcat([s[0], s[1]], rest);
      assert ChosenSum([s[0], s[1]], [false, true]) == s[1];
      assert Sum([s[0], s[1]]) == s[0] + s[1];
      assert Size([false, true]) == 1;
    }
  }

  lemma SomeSplitWithin(r: seq<int>, lo: int, hi: int) returns (d: Choice)
    requires |r| == MATCH_SIZE
    requires forall x :: x in multiset(r) ==> lo <= x <= hi
    ensures IsSplit(d) && Delta(r, d) <= hi - lo
  {
    var s := SortInts(r);
    SortIntsSorted(r);
    assert |s| == MATCH_SIZE by {
      assert |multiset(s)| == |multiset(r)|;
    }
    AlternatingDelta(s, TEAM_SIZE);
    d := Transfer(s, r, Alternating(TEAM_SIZE));
    SumIgnoresOrder(s, r);
    assert s[0] in multiset(s) && s[9] in multiset(s);
  }

  /** An optimal split is no worse than the alternating split of the sorted ratings, whose
      difference is at most the largest rating minus the smallest. */
  lemma DeltaAtMostSpread(r: seq<int>, best: nat)
    requires |r| == MATCH_SIZE && IsBest(SplitScores(r), best, MASKS)
    ensures MaskDelta(r, best) <= Spread(r)
  {
    assert forall x :: x in multiset(r) ==> x in r;
    var d := SomeSplitWithin(r, Smallest(r), Largest(r));
    BestBeatsEverySplit(r, best, d);
  }
}
