/** What one match attempt guarantees: which players it picks, how good the match is, and that
    a failed attempt leaves no trace. */
module AttemptFacts {
  import opened Basics
  import opened Records
  import opened Models
  import opened Orders
  import opened Configuration
  import opened Relaxation
  import opened Balancer
  import opened QueueSpec
  import opened MatcherSpec

  // ---- The match record ------------------------------------------------------------------

  lemma {:induction false} SnapshotSum(recs: seq<Rec>, c: Choice, now: nat)
    requires |recs| == |c|
    ensures Sum(Ratings(Snapshots(Chosen(recs, c), now))) == ChosenSum(RecRatings(recs), c)
  {
    if c == [] {
      assert Ratings(Snapshots(Chosen(recs, c), now)) == [];
    } else {
      SnapshotSum(recs[1..], c[1..], now);
      assert RecRatings(recs)[1..] == RecRatings(recs[1..]);
      var rest := Chosen(recs[1..], c[1..]);
      if c[0] {
        assert Ratings(Snapshots([recs[0]] + rest, now)) == [recs[0].rating as int] + Ratings(Snapshots(rest, now));
      } else {
        assert Chosen(recs, c) == rest;
      }
    }
  }

  /** The delta recomputed when the match record is built is the one the search minimised. */
  lemma MatchDeltaIsBalancedDelta(recs: seq<Rec>, now: nat)
    requires |recs| == MATCH_SIZE && SafeRatings(RecRatings(recs))
    ensures var r := RecRatings(recs); var m := FormMatch(recs, now);
      && m.teamDelta == MaskDelta(r, Best(r))
      && m.teamA.totalRating == MaskSum(r, Best(r))
      && m.teamA.totalRating + m.teamB.totalRating == Sum(r)
      && m.teamA.totalRating >= m.teamB.totalRating
  {
    var r := RecRatings(recs);
    var c := Bits(Best(r), MATCH_SIZE);
    SnapshotSum(recs, c, now);
    SnapshotSum(recs, Complement(c), now);
    ComplementSum(r, c);
    TeamAIsNotWeaker(r, Best(r));
  }

  lemma MeanAtMostMax(w: seq<int>)
    requires |w| == MATCH_SIZE && forall i :: 0 <= i < |w| ==> w[i] >= 0
    ensures Sum(w) / MATCH_SIZE <= Largest(w)
  {
    assert forall i :: 0 <= i < |w| ==> w[i] in w;
    SumBounds(w, 0, Largest(w));
  }

  /** Quality of the record built from any ten marked players within a window. */
  lemma MatchQuality(recs: seq<Rec>, now: nat, b: Bounds)
    requires |recs| == MATCH_SIZE && SafeRatings(RecRatings(recs))
    requires forall i :: 0 <= i < |recs| ==> Within(recs[i].rating, b)
    ensures var m := FormMatch(recs, now);
      && |m.teamA.players| == TEAM_SIZE && |m.teamB.players| == TEAM_SIZE
      && multiset(m.teamA.players) + multiset(m.teamB.players) == multiset(Snapshots(recs, now))
      && m.teamDelta <= m.skillSpread <= b.hi - b.lo
      && m.avgWaitMs <= m.maxWaitMs
  {
    var r := RecRatings(recs);
    var c := Bits(Best(r), MATCH_SIZE);
    MatchDeltaIsBalancedDelta(recs, now);
    DeltaAtMostSpread(r, Best(r));
    SpreadInside(r, b.lo, b.hi);
    BestIsASplit(r, Best(r));
    ChosenLength(recs, c);
    ChosenLength(recs, Complement(c));
    SnapshotsChosen(recs, c, now);
    SnapshotsChosen(recs, Complement(c), now);
    TeamsPartition(Snapshots(recs, now), c);
    MeanAtMostMax(Waits(recs, now));
  }

  lemma {:induction false} SnapshotsChosen(recs: seq<Rec>, c: Choice, now: nat)
    requires |recs| == |c|
    ensures Snapshots(Chosen(recs, c), now) == Chosen(Snapshots(recs, now), c)
  {
    if c != [] {
      SnapshotsChosen(recs[1..], c[1..], now);
      assert Snapshots(recs, now)[1..] == Snapshots(recs[1..], now);
      var rest := Chosen(recs[1..], c[1..]);
      if c[0] {
        assert Snapshots([recs[0]] + rest, now) == [Capture(recs[0], now)] + Snapshots(rest, now);
      } else {
        assert Chosen(recs, c) == rest;
        assert Chosen(Snapshots(recs, now), c) == Chosen(Snapshots(recs[1..], now), c[1..]);
      }
    }
  }

  /** How long a player had waited when it was marked, in plain arithmetic. */
  function WaitAt(r: Rec, mark: nat): nat {
    if r.join <= mark then mark - r.join else 0
  }

  lemma MarkedWaits(claimed: seq<Rec>, worker: nat, clk: Clock, now: nat, i: nat)
    requires i < |claimed| <= |clk.marks|
    ensures var r := MarkedAll(claimed, worker, clk)[i];
      && r.id == claimed[i].id && r.rating == claimed[i].rating
      && r.join == claimed[i].join && r.matchedAt == Some(clk.marks[i])
      && Waits(MarkedAll(claimed, worker, clk), now)[i] == WaitAt(claimed[i], clk.marks[i])
      && Capture(r, now) == PlayerSnapshot(claimed[i].id, claimed[i].rating, WaitAt(claimed[i], clk.marks[i]))
  {
  }

  /** Waiting times are measured from joining to the moment each player was marked, whenever
      the record is built; the record has their longest and their mean, rounded down. */
  lemma WaitsEndAtTheMatch(claimed: seq<Rec>, worker: nat, clk: Clock, now: nat)
    requires |claimed| == MATCH_SIZE && ValidClock(clk)
    requires SafeRatings(RecRatings(MarkedAll(claimed, worker, clk)))
    ensures var m := FormMatch(MarkedAll(claimed, worker, clk), now);
      var waits := seq(10, i requires 0 <= i < 10 => WaitAt(claimed[i], clk.marks[i]) as int);
      && m.maxWaitMs in waits && (forall i :: 0 <= i < 10 ==> waits[i] <= m.maxWaitMs)
      && 10 * m.avgWaitMs <= Sum(waits) < 10 * (m.avgWaitMs + 1)
  {
    var waits := Waits(MarkedAll(claimed, worker, clk), now);
    forall i | 0 <= i < 10
      ensures waits[i] == WaitAt(claimed[i], clk.marks[i]) && waits[i] in waits
    {
      MarkedWaits(claimed, worker, clk, now, i);
    }
    assert waits == seq(10, i requires 0 <= i < 10 => WaitAt(claimed[i], clk.marks[i]) as int);
  }

  /** What the match says of one of its players. */
  ghost predicate ListsOnce(m: Match, s: PlayerSnapshot) {
    && (s in m.teamA.players) != (s in m.teamB.players)
    && forall p :: p in m.teamA.players + m.teamB.players && p.id == s.id ==> p == s
  }

  /** The match lists every claimed player on exactly one team, with its id and rating and the
      time from its joining to its own mark; the longest of those times is the match's. */
  lemma PlayersAreRecorded(claimed: seq<Rec>, worker: nat, clk: Clock, now: nat)
    requires |claimed| == MATCH_SIZE && ValidClock(clk)
    requires forall i, j :: 0 <= i < j < |claimed| ==> claimed[i].id != claimed[j].id
    requires SafeRatings(RecRatings(MarkedAll(claimed, worker, clk)))
    ensures var m := FormMatch(MarkedAll(claimed, worker, clk), now);
      && |m.teamA.players| == 5 && |m.teamB.players| == 5
      && (forall i :: 0 <= i < 10 ==>
            ListsOnce(m, PlayerSnapshot(claimed[i].id, claimed[i].rating, WaitAt(claimed[i], clk.marks[i]))))
  {
    var marked := MarkedAll(claimed, worker, clk);
    var all := Snapshots(marked, now);
    var m := FormMatch(marked, now);
    var r := RecRatings(marked);
    forall i | 0 <= i < |marked|
      ensures Within(r[i], Bounds(0, SAFE_RATING))
    {
    }
    MatchQuality(marked, now, Bounds(0, SAFE_RATING));
    forall i | 0 <= i < 10
      ensures all[i] == PlayerSnapshot(claimed[i].id, claimed[i].rating, WaitAt(claimed[i], clk.marks[i]))
    {
      MarkedWaits(claimed, worker, clk, now, i);
    }
    forall i | 0 <= i < 10
      ensures ListsOnce(m, all[i])
    {
      DealtOnce(m, all, i);
    }
  }

  lemma DealtOnce(m: Match, all: seq<PlayerSnapshot>, i: nat)
    requires multiset(m.teamA.players) + multiset(m.teamB.players) == multiset(all) && i < |all|
    requires forall j, k :: 0 <= j < k < |all| ==> all[j].id != all[k].id
    ensures ListsOnce(m, all[i])
  {
    var a, b := m.teamA.players, m.teamB.players;
    var rest := all[..i] + all[i + 1..];
    assert all == all[..i] + ([all[i]] + all[i + 1..]);
    assert multiset(all) == multiset(rest) + multiset{all[i]};
    assert all[i] !in rest;
    assert multiset(all)[all[i]] == 1;
    assert multiset(a)[all[i]] + multiset(b)[all[i]] == (multiset(a) + multiset(b))[all[i]];
    assert all[i] in a <==> multiset(a)[all[i]] > 0;
    assert all[i] in b <==> multiset(b)[all[i]] > 0;
    forall p: PlayerSnapshot | p in a + b && p.id == all[i].id
      ensures p == all[i]
    {
      assert p in multiset(a) || p in multiset(b);
      assert p in multiset(all) && p in all;
      var k :| 0 <= k < |all| && all[k] == p;
    }
  }

  // ---- A contended attempt ---------------------------------------------------------------

  lemma WaitingInSnoc(front: seq<Rec>, last: Rec)
    requires last !in front
    ensures |WaitingIn(Elements(front + [last]))|
            == |WaitingIn(Elements(front))| + if last.state == Waiting then 1 else 0
  {
    var before := WaitingIn(Elements(front));
    assert WaitingIn(Elements(front + [last])) == before + if last.state == Waiting then {last} else {};
    assert last !in before;
  }

  lemma {:induction false} FirstWaitingCount(cands: seq<Rec>, n: nat)
    requires Distinct(cands)
    ensures |FirstWaiting(cands, n)| == Min(n, |WaitingIn(Elements(cands))|)
  {
    if cands == [] {
      assert WaitingIn(Elements(cands)) == {};
    } else {
      hide WaitingIn;
      hide Elements;
      var k := |cands| - 1;
      FirstWaitingCount(cands[..k], n);
      assert cands == cands[..k] + [cands[k]];
      WaitingInSnoc(cands[..k], cands[k]);
    }
  }

  /** The candidates that are still waiting, in order. */
  function StillWaiting(cands: seq<Rec>): seq<Rec> {
    if cands == [] then []
    else
      (if cands[0].state == Waiting then [cands[0]] else []) + StillWaiting(cands[1..])
  }

  lemma {:induction false} StillWaitingSnoc(cands: seq<Rec>, last: Rec)
    ensures StillWaiting(cands + [last]) == StillWaiting(cands) + if last.state == Waiting then [last] else []
  {
    if cands == [] {
      assert [] + [last] == [last] && [last][1..] == [];
    } else {
      assert (cands + [last])[0] == cands[0] && (cands + [last])[1..] == cands[1..] + [last];
      StillWaitingSnoc(cands[1..], last);
      var head: seq<Rec> := if cands[0].state == Waiting then [cands[0]] else [];
      var tail: seq<Rec> := if last.state == Waiting then [last] else [];
      assert head + (StillWaiting(cands[1..]) + tail) == (head + StillWaiting(cands[1..])) + tail;
    }
  }

  /** The claim loop takes the first ones still waiting, in the order of the candidates. */
  lemma {:induction false} FirstOfWaiting(cands: seq<Rec>, n: nat)
    ensures FirstWaiting(cands, n) == StillWaiting(cands)[..Min(n, |StillWaiting(cands)|)]
  {
    if cands != [] {
      var k := |cands| - 1;
      FirstOfWaiting(cands[..k], n);
      StillWaitingSnoc(cands[..k], cands[k]);
      assert cands == cands[..k] + [cands[k]];
    }
  }

  /** However stale the candidates are, the claims fail exactly when fewer than ten of them are
      still waiting; then one counter goes up by one, the failure is recorded against the seed,
      and the queue is as it was. */
  lemma ClaimsFailExactlyWhen(w: World, g: Guard, seedId: Uuid, worker: nat, cands: seq<Rec>, clk: Clock, limit: nat)
    requires ValidClock(clk) && Distinct(cands) && forall i :: 0 <= i < |cands| ==> cands[i].rating <= MAX_SKILL_RATING
    ensures var a := CommitSpec(w, g, seedId, worker, cands, clk, limit);
      var waiting := |WaitingIn(Elements(cands))|;
      && |StillWaiting(cands)| == waiting
      && (a.outcome == ClaimFailed(waiting, 10) <==> waiting < 10)
      && (a.outcome.Success? <==> waiting >= 10)
      && (waiting < 10 ==>
            && a.world == w.(metrics := w.metrics.(attemptsClaimFailed := w.metrics.attemptsClaimFailed + 1))
            && a.guard == RecordFailure(g, seedId))
  {
    FirstWaitingCount(cands, MATCH_SIZE);
    FirstWaitingFacts(cands, MATCH_SIZE);
    FirstWaitingCount(cands, |cands| + 1);
    FirstOfWaiting(cands, |cands| + 1);
    SubsetSize(WaitingIn(Elements(cands)), Elements(cands));
    DistinctCardinality(cands);
    StillWaitingSize(cands);
  }

  lemma {:induction false} StillWaitingSize(cands: seq<Rec>)
    ensures |StillWaiting(cands)| <= |cands|
  {
    if cands != [] {
      StillWaitingSize(cands[1..]);
    }
  }

  /** The waits that a match of these players adds up to. */
  function WaitsAt(recs: seq<Rec>, marks: seq<nat>): seq<int>
    requires |recs| <= |marks|
  {
    seq(|recs|, i requires 0 <= i < |recs| => WaitAt(recs[i], marks[i]))
  }

  /** What a successful attempt does, whoever interferes: the first ten candidates still waiting
      leave the queue, and every counter of a success moves by its own amount: one match, ten
      players, the ten waits, the match's own spread and delta. */
  lemma CommitMeans(w: World, g: Guard, seedId: Uuid, worker: nat, cands: seq<Rec>, clk: Clock, limit: nat)
    requires ValidClock(clk) && forall i :: 0 <= i < |cands| ==> cands[i].rating <= MAX_SKILL_RATING
    requires |StillWaiting(cands)| >= 10
    ensures var a := CommitSpec(w, g, seedId, worker, cands, clk, limit);
      var ten := StillWaiting(cands)[..10];
      && a.outcome.Success? && a.guard.failures == 0 && a.guard.seedId == None
      && a.world.queue == w.queue - Elements(ten)
      && a.world.history == Newest(w.history + [a.outcome.m], limit)
      && Sum(WaitsAt(ten, clk.marks)) >= 0
      && a.world.metrics == w.metrics.(
           matchesCreated := w.metrics.matchesCreated + 1,
           playersMatched := w.metrics.playersMatched + 10,
           queueSize := w.metrics.queueSize - 10,
           waitTimeMs := w.metrics.waitTimeMs + Sum(WaitsAt(ten, clk.marks)),
           spreadSum := w.metrics.spreadSum + a.outcome.m.skillSpread,
           spreadCount := w.metrics.spreadCount + 1,
           deltaSum := w.metrics.deltaSum + a.outcome.m.teamDelta,
           deltaCount := w.metrics.deltaCount + 1)
  {
    hide CommitSpec;
    hide FirstWaiting;
    hide StillWaiting;
    hide MarkedAll;
    hide FormMatch;
    hide SafeRatings;
    hide Newest;
    FirstOfWaiting(cands, MATCH_SIZE);
    FirstWaitingFacts(cands, MATCH_SIZE);
    CommitCases(w, g, seedId, worker, cands, clk, limit);
    var ten := StillWaiting(cands)[..10];
    TenWaits(ten, worker, clk);
    SafeMarks(ten, worker, clk);
    var m := FormMatch(MarkedAll(ten, worker, clk), 0);
    var totalWait: nat := Sum(WaitsAt(ten, clk.marks));
    assert Formed(MarkedAll(ten, worker, clk), m, totalWait);
  }

  lemma TenWaits(ten: seq<Rec>, worker: nat, clk: Clock)
    requires |ten| == 10 && ValidClock(clk)
    ensures Waits(MarkedAll(ten, worker, clk), 0) == WaitsAt(ten, clk.marks) && Sum(WaitsAt(ten, clk.marks)) >= 0
  {
    forall i | 0 <= i < 10
      ensures Waits(MarkedAll(ten, worker, clk), 0)[i] == WaitAt(ten[i], clk.marks[i])
    {
      MarkedWaits(ten, worker, clk, 0, i);
    }
    NonNegativeSum(WaitsAt(ten, clk.marks));
  }

  lemma SafeMarks(ten: seq<Rec>, worker: nat, clk: Clock)
    requires |ten| == 10 && ValidClock(clk) && forall i :: 0 <= i < 10 ==> ten[i].rating <= MAX_SKILL_RATING
    ensures SafeRatings(RecRatings(MarkedAll(ten, worker, clk)))
  {
  }

  /** What becomes of the candidates themselves, field by field. If at least ten still waited, the
      first ten of those end matched, stamped with the claim, each at its own time; every other
      candidate, and every one of fewer than ten, is as it was. */
  lemma CandidatesMean(cands: seq<Rec>, worker: nat, clk: Clock, k: nat)
    requires ValidClock(clk) && k < |cands|
    ensures var before := |StillWaiting(cands[..k])|;
      CandidatesAfter(cands, worker, clk)[k]
      == if |StillWaiting(cands)| >= 10 && cands[k].state == Waiting && before < 10 then
           cands[k].(state := Matched, claimedBy := worker, claimTs := clk.claimMs, matchedAt := Some(clk.marks[before]))
         else cands[k]
  {
    FirstOfWaiting(cands, MATCH_SIZE);
    FirstOfWaiting(cands[..k], MATCH_SIZE);
  }

  /** The averages of a snapshot: each the quotient of its own sum by its own count, rounded
      down, and 0 while nothing was counted. */
  lemma AveragesMean(m: MetricValues)
    ensures var s := SnapshotOf(m);
      && s.values == m
      && IsAverage(s.avgWaitMs, m.waitTimeMs, m.playersMatched)
      && IsAverage(s.avgSkillSpread, m.spreadSum, m.spreadCount)
      && IsAverage(s.avgTeamDelta, m.deltaSum, m.deltaCount)
  {
    QuotientIsAverage(m.waitTimeMs, m.playersMatched);
    QuotientIsAverage(m.spreadSum, m.spreadCount);
    QuotientIsAverage(m.deltaSum, m.deltaCount);
  }

  predicate IsAverage(avg: nat, sum: nat, count: nat) {
    if count == 0 then avg == 0 else avg * count <= sum < avg * count + count
  }

  lemma QuotientIsAverage(sum: nat, count: nat)
    ensures IsAverage(CheckedDiv(sum, count), sum, count)
  {
  }

  // ---- An uncontended attempt ------------------------------------------------------------

  lemma {:induction false} AllWaiting(cands: seq<Rec>, n: nat)
    requires forall i :: 0 <= i < |cands| ==> cands[i].state == Waiting
    ensures FirstWaiting(cands, n) == cands[..Min(n, |cands|)]
  {
    if cands != [] {
      AllWaiting(cands[..|cands| - 1], n);
    }
  }

  /** The attempt gets as far as claiming exactly when the scan finds ten players. */
  lemma ClaimsAreScanPrefix(q: Queue, b: Bounds)
    requires UniqueIds(q) && |InRange(q, b)| >= MATCH_SIZE
    ensures var claimed := FirstWaiting(Scan(q, b), MATCH_SIZE);
      && |Scan(q, b)| >= MATCH_SIZE && claimed == Scan(q, b)[..MATCH_SIZE]
      && Elements(claimed) <= InRange(q, b)
      && Elements(claimed) == LeastK(ByAge, Capped(q, b), MATCH_SIZE)
      && |Elements(claimed)| == MATCH_SIZE
  {
    ScanMeans(q, b);
    var s := Scan(q, b);
    forall i | 0 <= i < |s|
      ensures s[i].state == Waiting && s[i] in InRange(q, b)
    {
      assert s[i] in s;
    }
    AllWaiting(s, MATCH_SIZE);
    AscendingLists(ByAge, Capped(q, b));
    DistinctCardinality(s[..MATCH_SIZE]);
  }

  /** Ten least of a set that all was scanned. */
  lemma TenLeastOfRange(q: Queue, b: Bounds)
    requires UniqueIds(q) && MATCH_SIZE <= |InRange(q, b)| <= MAX_CANDIDATES
    ensures Capped(q, b) == InRange(q, b)
  {
    LeastKIsLeast(ByRating, InRange(q, b), MAX_CANDIDATES);
    if Capped(q, b) != InRange(q, b) {
      ProperSubsetSmaller(Capped(q, b), InRange(q, b));
    }
  }

  ghost function Ids(s: set<Rec>): set<Uuid> {
    set r | r in s :: r.id
  }

  /** Ids of everybody on either team. */
  ghost function PlayersOf(m: Match): set<Uuid> {
    (set p | p in m.teamA.players :: p.id) + (set p | p in m.teamB.players :: p.id)
  }

  lemma FormedIds(recs: seq<Rec>, now: nat)
    requires |recs| == MATCH_SIZE && SafeRatings(RecRatings(recs))
    requires multiset(FormMatch(recs, now).teamA.players) + multiset(FormMatch(recs, now).teamB.players)
             == multiset(Snapshots(recs, now))
    ensures PlayersOf(FormMatch(recs, now)) == Ids(Elements(recs))
  {
    hide FormMatch;
    var m := FormMatch(recs, now);
    var all := Snapshots(recs, now);
    forall p | p in all
      ensures p.id in PlayersOf(m)
    {
      assert p in multiset(all);
      assert p in multiset(m.teamA.players) || p in multiset(m.teamB.players);
    }
    forall r | r in recs
      ensures r.id in PlayersOf(m)
    {
      var i :| 0 <= i < |recs| && recs[i] == r;
      assert all[i].id == r.id && all[i] in all;
    }
    forall p | p in m.teamA.players || p in m.teamB.players
      ensures p.id in Ids(Elements(recs))
    {
      assert p in multiset(m.teamA.players) + multiset(m.teamB.players);
      assert p in multiset(all) && p in all;
      var i :| 0 <= i < |all| && all[i] == p;
      assert recs[i] in Elements(recs);
    }
  }

  /** What a match says about the ten players it was made of and the window they came from. */
  ghost predicate MatchOf(m: Match, picked: set<Rec>, b: Bounds) {
    && |m.teamA.players| == TEAM_SIZE && |m.teamB.players| == TEAM_SIZE
    && |picked| == MATCH_SIZE && PlayersOf(m) == Ids(picked)
    && m.teamDelta <= m.skillSpread <= b.hi - b.lo
    && m.avgWaitMs <= m.maxWaitMs
  }

  lemma MarkedIds(claimed: seq<Rec>, worker: nat, clk: Clock)
    requires |claimed| <= |clk.marks|
    ensures Ids(Elements(MarkedAll(claimed, worker, clk))) == Ids(Elements(claimed))
  {
    var marked := MarkedAll(claimed, worker, clk);
    forall r | r in claimed
      ensures r.id in Ids(Elements(marked))
    {
      var i :| 0 <= i < |claimed| && claimed[i] == r;
      assert marked[i].id == r.id && marked[i] in Elements(marked);
    }
    forall r | r in marked
      ensures r.id in Ids(Elements(claimed))
    {
      var i :| 0 <= i < |marked| && marked[i] == r;
      assert claimed[i].id == r.id && claimed[i] in Elements(claimed);
    }
  }

  lemma MarkedMatch(claimed: seq<Rec>, worker: nat, clk: Clock, b: Bounds)
    requires |claimed| == MATCH_SIZE && ValidClock(clk) && |Elements(claimed)| == MATCH_SIZE
    requires forall i :: 0 <= i < |claimed| ==> claimed[i].rating <= MAX_SKILL_RATING && Within(claimed[i].rating, b)
    ensures SafeRatings(RecRatings(MarkedAll(claimed, worker, clk)))
    ensures MatchOf(FormMatch(MarkedAll(claimed, worker, clk), 0), Elements(claimed), b)
  {
    var marked := MarkedAll(claimed, worker, clk);
    MarkedIds(claimed, worker, clk);
    MatchQuality(marked, 0, b);
    FormedIds(marked, 0);
  }

  /** The players an attempt with this seed takes: the ten oldest of the scanned ones. */
  ghost function Picked(q: Queue, b: Bounds): set<Rec>
    requires UniqueIds(q)
  {
    LeastK(ByAge, Capped(q, b), MATCH_SIZE)
  }

  /** Run without interference, an attempt succeeds exactly when ten waiting players lie in
      the seed's bounds. The queue then loses exactly the picked players, who form the match;
      the match is no wider than twice the seed's window. */
  lemma AttemptSucceedsExactlyWhen(w: World, g: Guard, cfg: Config, worker: nat, clk: Clock, limit: nat, seed: Rec)
    requires ValidQueue(w.queue) && ValidClock(clk) && SelectSeed(w.queue, g, cfg, clk.guardNow) == Some(seed)
    ensures var b := SeedBounds(seed, clk.scanNow, cfg);
      var a := AttemptSpec(w, g, cfg, worker, clk, limit);
      var picked := Picked(w.queue, b);
      && (a.outcome.Success? <==> |InRange(w.queue, b)| >= MATCH_SIZE)
      && (a.outcome.Success? ==>
            && picked <= InRange(w.queue, b) && |picked| == MATCH_SIZE
            && a.world.queue == w.queue - picked && a.guard == NO_FAILURES
            && MatchOf(a.outcome.m, picked, b)
            && a.outcome.m.skillSpread <= 2 * RelaxationWindow(Elapsed(seed.join, clk.scanNow), cfg)
            && a.world.history == Newest(w.history + [a.outcome.m], limit))
  {
    var b := SeedBounds(seed, clk.scanNow, cfg);
    SeedIsQueued(w.queue, g, cfg, clk.guardNow, seed);
    BoundsAreSound(seed.rating, Elapsed(seed.join, clk.scanNow), cfg);
    ScanMeans(w.queue, b);
    if |InRange(w.queue, b)| >= MATCH_SIZE {
      ClaimsAreScanPrefix(w.queue, b);
      var claimed := FirstWaiting(Scan(w.queue, b), MATCH_SIZE);
      forall i | 0 <= i < |claimed|
        ensures claimed[i].rating <= MAX_SKILL_RATING && Within(claimed[i].rating, b)
      {
        assert claimed[i] in Elements(claimed);
      }
      MarkedMatch(claimed, worker, clk, b);
    }
  }

  lemma SeedIsQueued(q: Queue, g: Guard, cfg: Config, now: nat, seed: Rec)
    requires UniqueIds(q) && SelectSeed(q, g, cfg, now) == Some(seed)
    ensures seed in q && seed.state == Waiting
  {
    assert IsLeast(ByAge, Oldest(q).value, WaitingIn(q));
  }

  /** An attempt whose scan comes up short: what it reports, in plain arithmetic. */
  lemma ShortScanMeans(w: World, g: Guard, cfg: Config, worker: nat, clk: Clock, limit: nat, seed: Rec)
    requires ValidQueue(w.queue) && ValidClock(clk) && seed.rating <= 3000
    requires |InRange(w.queue, SeedBounds(seed, clk.scanNow, cfg))| < 10
    ensures var a := SeededSpec(w, g, cfg, worker, clk, limit, seed);
      var reach := RelaxationWindow(if seed.join <= clk.scanNow then clk.scanNow - seed.join else 0, cfg);
      && a.world == w.(metrics := w.metrics.(workerCycles := w.metrics.workerCycles + 1,
                                             attemptsInsufficient := w.metrics.attemptsInsufficient + 1))
      && a.guard == RecordFailure(g, seed.id)
      && a.outcome.InsufficientCandidates? && a.outcome.seedMmr == seed.rating
      && a.outcome.found == |InRange(w.queue, SeedBounds(seed, clk.scanNow, cfg))|
      && a.outcome.window == (if seed.rating + reach <= 3000 then seed.rating + reach else 3000)
                             - (if reach <= seed.rating then seed.rating - reach else 0)
      && (Validate(cfg).Ok? && seed.join <= clk.stageNow ==>
            a.outcome.stage == 1 + Passed(Thresholds(cfg), clk.stageNow - seed.join))
  {
    hide CommitSpec;
    hide Scan;
    hide InRange;
    ScanMeans(w.queue, SeedBounds(seed, clk.scanNow, cfg));
    if Validate(cfg).Ok? {
      StageCountsThresholds(Elapsed(seed.join, clk.stageNow), cfg);
    }
  }

  /** A failed attempt leaves no trace: queue and history are as they were. Without a seed
      nothing moves at all. With one, the attempt is counted, the failure is recorded against
      the seed, and the result reports how many players were in reach. */
  lemma FailureLeavesNoTrace(w: World, g: Guard, cfg: Config, worker: nat, clk: Clock, limit: nat)
    requires ValidQueue(w.queue) && ValidClock(clk)
    ensures var a := AttemptSpec(w, g, cfg, worker, clk, limit);
      && (a.outcome.PoolEmpty? <==> WaitingIn(w.queue) == {})
      && (a.outcome.PoolEmpty? ==> a.world == w && a.guard == g)
      && (!a.outcome.Success? && !a.outcome.PoolEmpty? ==>
            && SelectSeed(w.queue, g, cfg, clk.guardNow).Some?
            && var seed := SelectSeed(w.queue, g, cfg, clk.guardNow).value;
               && seed.rating <= 3000 && |InRange(w.queue, SeedBounds(seed, clk.scanNow, cfg))| < 10
               && a.world == w.(metrics := w.metrics.(workerCycles := w.metrics.workerCycles + 1,
                                                      attemptsInsufficient := w.metrics.attemptsInsufficient + 1))
               && a.guard == RecordFailure(g, seed.id)
               && a.outcome.InsufficientCandidates? && a.outcome.seedMmr == seed.rating
               && a.outcome.found == |InRange(w.queue, SeedBounds(seed, clk.scanNow, cfg))|
               && (var reach := RelaxationWindow(if seed.join <= clk.scanNow then clk.scanNow - seed.join else 0, cfg);
                   a.outcome.window == (if seed.rating + reach <= 3000 then seed.rating + reach else 3000)
                                       - (if reach <= seed.rating then seed.rating - reach else 0))
               && (Validate(cfg).Ok? && seed.join <= clk.stageNow ==>
                     a.outcome.stage == 1 + Passed(Thresholds(cfg), clk.stageNow - seed.join)))
  {
    match SelectSeed(w.queue, g, cfg, clk.guardNow)
    case None =>
    case Some(seed) =>
      SeedIsQueued(w.queue, g, cfg, clk.guardNow, seed);
      assert seed in WaitingIn(w.queue);
      AttemptSucceedsExactlyWhen(w, g, cfg, worker, clk, limit, seed);
      if |InRange(w.queue, SeedBounds(seed, clk.scanNow, cfg))| < 10 {
        ShortScanMeans(w, g, cfg, worker, clk, limit, seed);
      }
      hide SeededSpec;
  }

  /** The specification of an uncontended attempt. If the seed is the oldest waiting player and
      its bounds contain between 10 and 200 waiting players, there is one set of the ten oldest
      waiting players within the bounds; the seed is in it, exactly these ten leave the queue,
      and they are the match. */
  lemma UncontendedAttempt(w: World, g: Guard, cfg: Config, worker: nat, clk: Clock, limit: nat, seed: Rec)
    requires ValidQueue(w.queue) && ValidClock(clk)
    requires Oldest(w.queue) == Some(seed) && SelectSeed(w.queue, g, cfg, clk.guardNow) == Some(seed)
    requires MATCH_SIZE <= |InRange(w.queue, SeedBounds(seed, clk.scanNow, cfg))| <= MAX_CANDIDATES
    ensures var range := InRange(w.queue, SeedBounds(seed, clk.scanNow, cfg));
      var a := AttemptSpec(w, g, cfg, worker, clk, limit);
      && (exists ten :: IsLeastK(ByAge, ten, range, MATCH_SIZE))
      && (forall ten :: IsLeastK(ByAge, ten, range, MATCH_SIZE) ==>
            seed in ten && a.outcome.Success? && a.world.queue == w.queue - ten && PlayersOf(a.outcome.m) == Ids(ten))
  {
    hide AttemptSpec;
    var b := SeedBounds(seed, clk.scanNow, cfg);
    var range := InRange(w.queue, b);
    AttemptSucceedsExactlyWhen(w, g, cfg, worker, clk, limit, seed);
    TenLeastOfRange(w.queue, b);
    LeastKIsLeast(ByAge, range, MATCH_SIZE);
    SeedIsQueued(w.queue, g, cfg, clk.guardNow, seed);
    BoundsAreSound(seed.rating, Elapsed(seed.join, clk.scanNow), cfg);
    OldestIsPicked(w.queue, b, seed, Picked(w.queue, b));
    forall ten | IsLeastK(ByAge, ten, range, MATCH_SIZE)
      ensures ten == Picked(w.queue, b)
    {
      IsLeastKUnique(ByAge, range, MATCH_SIZE, ten, Picked(w.queue, b));
    }
  }

  /** The oldest waiting player is among the oldest ten of any range that contains it. */
  lemma OldestIsPicked(q: Queue, b: Bounds, seed: Rec, ten: set<Rec>)
    requires UniqueIds(q) && Oldest(q) == Some(seed) && seed in InRange(q, b)
    requires IsLeastK(ByAge, ten, InRange(q, b), MATCH_SIZE)
    ensures seed in ten
  {
    assert IsLeast(ByAge, seed, WaitingIn(q));
    LeastIsAmong(ByAge, seed, InRange(q, b), ten, MATCH_SIZE);
  }
}
