/** The reaper (src/workers/mod.rs): one tick, run alone. What ticks achieve among other
    actors' steps is in `Recovery`. */
module Workers {
  import opened Basics
  import opened Records
  import opened Models
  import opened Orders
  import opened Bucket
  import opened MatcherSpec
  import opened Matcher

  /** The ids of the stale claims in the pool. */
  ghost function StaleIds(entries: map<Uuid, Rec>, nowMs: nat, timeoutMs: nat): set<Uuid> {
    set id | id in entries && Stale(entries[id], nowMs, timeoutMs)
  }

  ghost function ReapedEntries(entries: map<Uuid, Rec>, nowMs: nat, timeoutMs: nat): map<Uuid, Rec> {
    map id | id in entries :: Reap(entries[id], nowMs, timeoutMs)
  }

  /** The ids of the stale claims among the first `i` values. */
  ghost function StaleBefore(was: seq<Rec>, i: nat, nowMs: nat, timeoutMs: nat): set<Uuid>
    requires i <= |was|
  {
    if i == 0 then {}
    else
      StaleBefore(was, i - 1, nowMs, timeoutMs) + if Stale(was[i - 1], nowMs, timeoutMs) then {was[i - 1].id} else {}
  }

  lemma {:induction false} StaleBeforeMembers(was: seq<Rec>, i: nat, nowMs: nat, timeoutMs: nat)
    requires i <= |was|
    ensures forall k :: 0 <= k < i && Stale(was[k], nowMs, timeoutMs) ==> was[k].id in StaleBefore(was, i, nowMs, timeoutMs)
    ensures forall id :: id in StaleBefore(was, i, nowMs, timeoutMs) ==>
      exists k :: 0 <= k < i && Stale(was[k], nowMs, timeoutMs) && was[k].id == id
  {
    if i > 0 {
      StaleBeforeMembers(was, i - 1, nowMs, timeoutMs);
    }
  }

  lemma StaleBeforeStep(was: seq<Rec>, i: nat, nowMs: nat, timeoutMs: nat)
    requires i < |was| && forall j :: 0 <= j < i ==> was[j].id != was[i].id
    ensures |StaleBefore(was, i + 1, nowMs, timeoutMs)|
            == |StaleBefore(was, i, nowMs, timeoutMs)| + if Stale(was[i], nowMs, timeoutMs) then 1 else 0
  {
    StaleBeforeMembers(was, i, nowMs, timeoutMs);
    assert was[i].id !in StaleBefore(was, i, nowMs, timeoutMs);
  }

  /** The players visited so far are reaped, the others are as they were. */
  ghost predicate ReapedSoFar(all: seq<Player>, was: seq<Rec>, i: nat, nowMs: nat, timeoutMs: nat)
    reads all
  {
    && |was| == |all| && i <= |all| && Distinct(all)
    && (forall k :: 0 <= k < i ==> all[k].Value() == Reap(was[k], nowMs, timeoutMs))
    && (forall k :: i <= k < |all| ==> all[k].Value() == was[k])
  }

  /** Visit one player. */
  method Visit(all: seq<Player>, ghost was: seq<Rec>, i: nat, nowMs: nat, timeoutMs: nat) returns (reset: bool)
    requires i < |all| && ReapedSoFar(all, was, i, nowMs, timeoutMs)
    modifies all[i]
    ensures ReapedSoFar(all, was, i + 1, nowMs, timeoutMs)
    ensures reset <==> Stale(was[i], nowMs, timeoutMs)
  {
    var player := all[i];
    reset := false;
    if player.state == Claimed && player.claimTimestamp != 0 {
      var claimAgeMs := SaturatingSub(nowMs, player.claimTimestamp);
      if claimAgeMs > timeoutMs {
        player.state := Waiting;
        player.claimedBy := 0;
        player.claimTimestamp := 0;
        reset := true;
      }
    }
    assert forall k :: 0 <= k < |all| && k != i ==> all[k].Value() == old(all[k].Value());
  }

  /** Everybody in the pool is listed, once. */
  ghost predicate ListsPool(primary: map<Uuid, Player>, entries: map<Uuid, Rec>, all: seq<Player>, was: seq<Rec>) {
    && Keyed(primary) && entries.Keys == primary.Keys && |was| == |all|
    && (forall k :: 0 <= k < |all| ==>
          all[k].id in primary && primary[all[k].id] == all[k] && entries[all[k].id] == was[k] && was[k].id == all[k].id)
    && (forall id :: id in primary ==> primary[id] in all)
  }

  lemma PoolIsListed(pool: PlayerPool, all: seq<Player>)
    requires pool.Valid() && Elements(all) == pool.Players()
    ensures ListsPool(pool.primary, pool.Entries(), all, Values(all))
    ensures forall p :: p in all ==> p in pool.Players()
  {
    forall k | 0 <= k < |all|
      ensures all[k].id in pool.primary && pool.primary[all[k].id] == all[k]
    {
      assert all[k] in Elements(all);
    }
    forall id | id in pool.primary
      ensures pool.primary[id] in all
    {
      assert pool.primary[id] in Elements(all);
    }
  }

  lemma AllVisited(pool: PlayerPool, entries: map<Uuid, Rec>, all: seq<Player>, was: seq<Rec>, nowMs: nat, timeoutMs: nat)
    requires ListsPool(pool.primary, entries, all, was) && ReapedSoFar(all, was, |all|, nowMs, timeoutMs)
    ensures pool.Entries() == ReapedEntries(entries, nowMs, timeoutMs)
    ensures StaleBefore(was, |was|, nowMs, timeoutMs) == StaleIds(entries, nowMs, timeoutMs)
  {
    StaleBeforeMembers(was, |was|, nowMs, timeoutMs);
    forall id | id in pool.primary
      ensures pool.primary[id].Value() == Reap(entries[id], nowMs, timeoutMs)
      ensures Stale(entries[id], nowMs, timeoutMs) ==> id in StaleBefore(was, |was|, nowMs, timeoutMs)
    {
      var k :| 0 <= k < |all| && all[k] == pool.primary[id];
      assert was[k].id == id;
    }
  }

  /** The loop over a list of players with different ids. */
  method ReapAll(all: seq<Player>, nowMs: nat, timeoutMs: nat) returns (recovered: nat)
    requires Distinct(all) && forall j, k :: 0 <= j < k < |all| ==> all[j].id != all[k].id
    modifies all
    ensures ReapedSoFar(all, old(Values(all)), |all|, nowMs, timeoutMs)
    ensures recovered == |StaleBefore(old(Values(all)), |all|, nowMs, timeoutMs)|
  {
    hide StaleBefore;
    ghost var was := Values(all);
    assert StaleBefore(was, 0, nowMs, timeoutMs) == {} by {
      StaleBeforeMembers(was, 0, nowMs, timeoutMs);
    }
    recovered := 0;
    for i := 0 to |all|
      invariant ReapedSoFar(all, was, i, nowMs, timeoutMs)
      invariant recovered == |StaleBefore(was, i, nowMs, timeoutMs)|
    {
      StaleBeforeStep(was, i, nowMs, timeoutMs);
      var reset := Visit(all, was, i, nowMs, timeoutMs);
      if reset {
        recovered := recovered + 1;
      }
    }
  }

  /** One tick resets exactly the stale claims, changes nothing else, and counts them. */
  method ReaperTick(pool: PlayerPool, metrics: Metrics, timeoutMs: nat, nowMs: nat) returns (recovered: nat)
    requires pool.Valid()
    modifies pool.Players(), metrics
    ensures pool.Entries() == ReapedEntries(old(pool.Entries()), nowMs, timeoutMs)
    ensures recovered == |StaleIds(old(pool.Entries()), nowMs, timeoutMs)|
    ensures metrics.View() == old(metrics.View()).(staleClaimsRecovered := old(metrics.View()).staleClaimsRecovered + recovered)
  {
    hide ReapedSoFar;
    hide ListsPool;
    hide StaleBefore;
    hide StaleIds;
    hide ReapedEntries;
    hide Elements;
    var all := pool.AllPlayers();
    ghost var was, entries := Values(all), pool.Entries();
    PoolIsListed(pool, all);
    DifferentIds(pool.primary, entries, all, was);
    recovered := ReapAll(all, nowMs, timeoutMs);
    AllVisited(pool, entries, all, was, nowMs, timeoutMs);
    if recovered > 0 {
      metrics.totalStaleClaimsRecovered := metrics.totalStaleClaimsRecovered + recovered;
    }
  }

  lemma DifferentIds(primary: map<Uuid, Player>, entries: map<Uuid, Rec>, all: seq<Player>, was: seq<Rec>)
    requires ListsPool(primary, entries, all, was) && Distinct(all)
    ensures forall j, k :: 0 <= j < k < |all| ==> all[j].id != all[k].id
  {
  }

  /** After a tick the players whose claims were stale are waiting with no claim, the others
      are untouched, and nothing is stale: another tick at the same time, or with an earlier
      clock reading or a longer timeout, recovers nobody and changes nothing. */
  lemma TickLeavesNothingStale(entries: map<Uuid, Rec>, nowMs: nat, timeoutMs: nat, againMs: nat, againTimeoutMs: nat)
    requires againMs <= nowMs && timeoutMs <= againTimeoutMs
    ensures var after := ReapedEntries(entries, nowMs, timeoutMs);
      && after.Keys == entries.Keys
      && (forall id :: id in entries ==>
            if id in StaleIds(entries, nowMs, timeoutMs)
            then Unclaimed(after[id]) && SameIdentity(after[id], entries[id]) && after[id].matchedAt == entries[id].matchedAt
            else after[id] == entries[id])
      && StaleIds(after, againMs, againTimeoutMs) == {}
      && ReapedEntries(after, againMs, againTimeoutMs) == after
  {
    var after := ReapedEntries(entries, nowMs, timeoutMs);
    forall id | id in entries
      ensures !Stale(after[id], againMs, againTimeoutMs)
    {
    }
  }
}
