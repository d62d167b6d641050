/** The other users of the pool (src/engine/mod.rs): joining the queue, leaving it, and reading
    the match history. */
module Engine {
  import opened Basics
  import opened Records
  import opened Models
  import opened QueueSpec
  import opened Bucket
  import opened MatcherSpec
  import opened Matcher

  datatype EnqueueError = AlreadyQueued(id: Uuid) | InvalidSkillRating(rating: nat, max: nat)

  datatype CancelError = NotFound(id: Uuid) | CurrentlyBeingMatched(id: Uuid)

  // ---- What the operations do ------------------------------------------------------------

  /** The queued record with an id, if there is one. */
  ghost function RecordOf(q: Queue, id: Uuid): (found: Option<Rec>)
    ensures found.Some? ==> found.value in q && found.value.id == id
    ensures found.None? ==> forall r :: r in q ==> r.id != id
  {
    if r :| r in q && r.id == id then Some(r) else None
  }

  ghost function EnqueueSpec(w: World, id: Uuid, rating: nat, now: nat): (World, Result<nat, EnqueueError>) {
    if rating > MAX_SKILL_RATING then (w, Err(InvalidSkillRating(rating, MAX_SKILL_RATING)))
    else if RecordOf(w.queue, id).Some? then (w, Err(AlreadyQueued(id)))
    else
      (w.(queue := w.queue + {NewRec(id, rating, now)},
          metrics := CountEnqueue(w.metrics)),
       Ok(|w.queue| + 1))
  }

  ghost function CancelSpec(w: World, id: Uuid): (World, Result<(), CancelError>) {
    match RecordOf(w.queue, id)
    case None => (w, Err(NotFound(id)))
    case Some(r) =>
      if r.state != Waiting then (w, Err(CurrentlyBeingMatched(id)))
      else
        (w.(queue := w.queue - {r},
            metrics := CountCancel(w.metrics)),
         Ok(()))
  }

  /** The newest matches, newest first. */
  function Recent(h: seq<Match>, limit: nat): (r: seq<Match>)
    ensures |r| == Min(limit, |h|) && forall i :: 0 <= i < |r| ==> r[i] == h[|h| - 1 - i]
  {
    seq(Min(limit, |h|), i requires 0 <= i < Min(limit, |h|) => h[|h| - 1 - i])
  }

  // ---- The engine ------------------------------------------------------------------------

  lemma EntryOf(entries: map<Uuid, Rec>, id: Uuid)
    requires KeyedById(entries)
    ensures RecordOf(entries.Values, id) == if id in entries then Some(entries[id]) else None
  {
  }

  lemma EntryAdded(entries: map<Uuid, Rec>, r: Rec)
    requires r.id !in entries
    ensures entries[r.id := r].Values == entries.Values + {r}
  {
    var after := entries[r.id := r];
    forall x | x in entries.Values + {r}
      ensures x in after.Values
    {
      if x != r {
        var id :| id in entries && entries[id] == x;
        assert after[id] == x;
      } else {
        assert after[r.id] == x;
      }
    }
  }

  lemma {:induction false} EntryCount(entries: map<Uuid, Rec>)
    requires KeyedById(entries)
    ensures |entries.Values| == |entries|
    decreases |entries|
  {
    if entries == map[] {
      assert entries.Values == {};
    } else {
      var id :| id in entries;
      var gone: set<Uuid> := {id};
      var rest := entries - gone;
      ValuesWithout(entries, gone, {entries[id]});
      assert |rest| == |entries| - 1 by {
        assert rest.Keys == entries.Keys - gone;
        assert |rest| == |rest.Keys| && |entries| == |entries.Keys|;
      }
      EntryCount(rest);
      assert entries.Values == rest.Values + {entries[id]};
    }
  }

  ghost predicate KeyedById(entries: map<Uuid, Rec>) {
    forall id :: id in entries ==> entries[id].id == id
  }

  /** Joining, in terms of the pool's entries. */
  lemma EnqueueCases(entries: map<Uuid, Rec>, h: seq<Match>, m: MetricValues, id: Uuid, rating: nat, now: nat)
    requires KeyedById(entries)
    ensures EnqueueSpec(MatcherSpec.World(entries.Values, h, m), id, rating, now)
            == if rating > MAX_SKILL_RATING then
                 (MatcherSpec.World(entries.Values, h, m), Err(InvalidSkillRating(rating, MAX_SKILL_RATING)))
               else if id in entries then (MatcherSpec.World(entries.Values, h, m), Err(AlreadyQueued(id)))
               else (MatcherSpec.World(entries[id := NewRec(id, rating, now)].Values, h, CountEnqueue(m)), Ok(|entries| + 1))
  {
    hide RecordOf;
    EntryOf(entries, id);
    EntryCount(entries);
    if rating <= MAX_SKILL_RATING && id !in entries {
      EntryAdded(entries, NewRec(id, rating, now));
    }
  }

  /** Leaving, in terms of the pool's entries. */
  lemma CancelCases(entries: map<Uuid, Rec>, h: seq<Match>, m: MetricValues, id: Uuid)
    requires KeyedById(entries)
    ensures CancelSpec(MatcherSpec.World(entries.Values, h, m), id)
            == if id !in entries then (MatcherSpec.World(entries.Values, h, m), Err(NotFound(id)))
               else if entries[id].state != Waiting then
                 (MatcherSpec.World(entries.Values, h, m), Err(CurrentlyBeingMatched(id)))
               else (MatcherSpec.World((entries - {id}).Values, h, CountCancel(m)), Ok(()))
  {
    EntryOf(entries, id);
    if id in entries {
      ValuesWithout(entries, {id}, {entries[id]});
    }
  }

  lemma LegalAdded(entries: map<Uuid, Rec>, r: Rec)
    requires Legal(entries) && r.rating <= MAX_SKILL_RATING && Unclaimed(r)
    ensures Legal(entries[r.id := r])
  {
  }

  lemma PoolIsKeyed(pool: PlayerPool)
    requires pool.Valid()
    ensures KeyedById(pool.Entries())
  {
  }

  lemma EntriesAfterInsert(pool: PlayerPool, before: map<Uuid, Player>, entries: map<Uuid, Rec>, p: Player)
    requires Untouched(before, entries, []) && p.id !in before && pool.primary == before[p.id := p]
    ensures pool.Entries() == entries[p.id := p.Value()]
  {
    forall id | id in before
      ensures pool.Entries()[id] == entries[id]
    {
    }
  }

  lemma EntryAdmitted(pool: PlayerPool, before: map<Uuid, Player>, entries: map<Uuid, Rec>, p: Player)
    requires Untouched(before, entries, []) && p.id !in before && pool.primary == before[p.id := p]
    ensures pool.Entries() == entries[p.id := p.Value()] && pool.Queue() == entries[p.id := p.Value()].Values
    ensures |pool.primary| == |entries| + 1
  {
    SameSize(before, entries);
    EntriesAfterInsert(pool, before, entries, p);
    hide Untouched;
    pool.EntriesAreQueue();
  }

  lemma SameSize(before: map<Uuid, Player>, entries: map<Uuid, Rec>)
    requires before.Keys == entries.Keys
    ensures |before| == |entries|
  {
    assert |before| == |before.Keys| && |entries| == |entries.Keys|;
  }

  /** Put a new player into the pool. */
  method Admit(pool: PlayerPool, ghost entries: map<Uuid, Rec>, id: Uuid, skillRating: nat, now: nat)
    requires pool.Valid() && id !in pool.primary && entries == pool.Entries()
    modifies pool
    ensures pool.Valid() && pool.Entries() == entries[id := NewRec(id, skillRating, now)]
    ensures pool.Queue() == entries[id := NewRec(id, skillRating, now)].Values
    ensures id in pool.primary && fresh(pool.primary[id])
    ensures |pool.primary| == |entries| + 1
  {
    hide Agree;
    hide Put;
    hide Untouched;
    ghost var before := pool.primary;
    AllUntouched(pool);
    var player := new Player(id, skillRating, now);
    pool.Insert(player);
    EntryAdmitted(pool, before, entries, player);
  }

  lemma AllUntouched(pool: PlayerPool)
    requires pool.Valid()
    ensures Untouched(pool.primary, pool.Entries(), [])
  {
  }

  /** Evict a waiting player and take it out of the pool. */
  method Dismiss(pool: PlayerPool, player: Player) returns (evicted: bool)
    requires pool.Valid() && player in pool.Players()
    modifies pool, player
    ensures pool.Valid() && (evicted <==> old(player.state) == Waiting)
    ensures evicted ==> player.state == Evicted
    ensures pool.primary == if evicted then old(pool.primary) - {player.id} else old(pool.primary)
    ensures pool.Entries() == if evicted then old(pool.Entries()) - {player.id} else old(pool.Entries())
  {
    evicted := player.TryEvict();
    if evicted {
      var _ := pool.Remove(player.id);
    }
  }

  class MatchmakerCore {
    const pool: PlayerPool
    const metrics: Metrics
    const history: MatchHistory

    constructor ()
      ensures Valid() && World() == MatcherSpec.World({}, [], MetricValues(0, 0, 0, 0, 0, 0, 0, 0, 0, 0, 0, 0, 0, 0))
      ensures fresh(pool) && fresh(metrics) && fresh(history)
    {
      pool := new PlayerPool();
      metrics := new Metrics();
      history := new MatchHistory();
    }

    ghost predicate Valid()
      reads pool, pool.Players()
    {
      pool.Valid() && Legal(pool.Entries())
    }

    ghost function World(): World
      reads pool, pool.Players(), metrics, history
    {
      MatcherSpec.World(pool.Queue(), history.items, metrics.View())
    }

    /** Join the queue. */
    method Enqueue(id: Uuid, skillRating: nat, now: nat) returns (r: Result<nat, EnqueueError>)
      requires Valid()
      modifies pool, metrics
      ensures Valid() && (World(), r) == EnqueueSpec(old(World()), id, skillRating, now)
      ensures r.Ok? ==> id in pool.primary && fresh(pool.primary[id])
    {
      hide Agree;
      hide Legal;
      hide KeyedById;
      hide EnqueueSpec;
      hide CountEnqueue;
      ghost var entries := pool.Entries();
      PoolIsKeyed(pool);
      pool.EntriesAreQueue();
      EnqueueCases(entries, history.items, metrics.View(), id, skillRating, now);
      if skillRating > MAX_SKILL_RATING {
        return Err(InvalidSkillRating(skillRating, MAX_SKILL_RATING));
      }
      if pool.Contains(id) {
        return Err(AlreadyQueued(id));
      }
      LegalAdded(entries, NewRec(id, skillRating, now));
      Admit(pool, entries, id, skillRating, now);
      metrics.RecordEnqueue();
      assert pool.Queue() == entries[id := NewRec(id, skillRating, now)].Values;
      assert metrics.View() == CountEnqueue(old(metrics.View()));
      r := Ok(|pool.primary|);
    }

    /** Leave the queue. A player in the middle of an attempt cannot. */
    method Cancel(id: Uuid) returns (r: Result<(), CancelError>)
      requires Valid()
      modifies pool, pool.Players(), metrics
      ensures Valid() && (World(), r) == CancelSpec(old(World()), id)
      ensures r.Ok? ==> id in old(pool.primary) && old(pool.primary)[id].state == Evicted
    {
      hide CancelSpec;
      hide Agree;
      hide KeyedById;
      PoolIsKeyed(pool);
      ghost var entries: map<Uuid, Rec> := pool.Entries();
      pool.EntriesAreQueue();
      CancelCases(entries, history.items, metrics.View(), id);
      var found := pool.Get(id);
      if found.None? {
        return Err(NotFound(id));
      }
      var evicted := Dismiss(pool, found.value);
      if !evicted {
        pool.EntriesAreQueue();
        return Err(CurrentlyBeingMatched(id));
      }
      metrics.RecordCancel();
      pool.EntriesAreQueue();
      r := Ok(());
    }

    /** The newest matches, newest first. */
    method RecentMatches(limit: nat) returns (r: seq<Match>)
      ensures r == Recent(history.items, limit)
    {
      var h := history.items;
      r := [];
      var i := |h|;
      while i > 0 && |r| < limit
        invariant 0 <= i <= |h| && |r| == |h| - i && |r| <= limit
        invariant forall k :: 0 <= k < |r| ==> r[k] == h[|h| - 1 - k]
      {
        i := i - 1;
        r := r + [h[i]];
      }
    }
  }

  // ---- Undo and history ------------------------------------------------------------------

  /** What joining does, in plain terms. The rating is judged first, then the id. */
  lemma EnqueueMeans(w: World, id: Uuid, rating: nat, now: nat)
    ensures var (after, result) := EnqueueSpec(w, id, rating, now);
      var present := exists r :: r in w.queue && r.id == id;
      && (result == Err(InvalidSkillRating(rating, 3000)) <==> rating > 3000)
      && (result == Err(AlreadyQueued(id)) <==> rating <= 3000 && present)
      && (result.Err? ==> after == w)
      && (result.Ok? ==>
            && result.value == |w.queue| + 1 == |after.queue|
            && after.queue == w.queue + {Rec(id, rating, now, Waiting, 0, 0, None)}
            && after.history == w.history
            && after.metrics == w.metrics.(playersEnqueued := w.metrics.playersEnqueued + 1,
                                           queueSize := w.metrics.queueSize + 1))
  {
    var joiner := Rec(id, rating, now, Waiting, 0, 0, None);
    if rating <= 3000 && RecordOf(w.queue, id).None? {
      assert joiner !in w.queue;
    }
  }

  /** What leaving does, in plain terms: it fails for an id that is not there and for a player
      that is not waiting, and otherwise takes out that one record. */
  lemma CancelMeans(w: World, id: Uuid)
    requires ValidQueue(w.queue)
    ensures var (after, result) := CancelSpec(w, id);
      && (result == Err(NotFound(id)) <==> forall r :: r in w.queue ==> r.id != id)
      && (result == Err(CurrentlyBeingMatched(id)) <==> exists r :: r in w.queue && r.id == id && r.state != Waiting)
      && (result == Ok(()) <==> exists r :: r in w.queue && r.id == id && r.state == Waiting)
      && (result.Err? ==> after == w)
      && (result.Ok? ==>
            && (forall r :: r in after.queue <==> r in w.queue && r.id != id)
            && after.history == w.history
            && after.metrics == w.metrics.(playersCancelled := w.metrics.playersCancelled + 1,
                                           queueSize := w.metrics.queueSize - 1))
  {
  }

  /** Joining and then leaving, with nothing in between, leaves the queue as it was. */
  lemma CancelUndoesEnqueue(w: World, id: Uuid, rating: nat, now: nat)
    requires EnqueueSpec(w, id, rating, now).1.Ok?
    ensures var joined := EnqueueSpec(w, id, rating, now).0;
      var left := CancelSpec(joined, id);
      && left.1 == Ok(())
      && left.0 == w.(metrics := w.metrics.(playersEnqueued := w.metrics.playersEnqueued + 1,
                                            playersCancelled := w.metrics.playersCancelled + 1))
  {
    var joined := EnqueueSpec(w, id, rating, now).0;
    var joiner := NewRec(id, rating, now);
    assert joiner in joined.queue;
    assert RecordOf(joined.queue, id) == Some(joiner);
    assert joined.queue - {joiner} == w.queue;
  }

  function PushAll(h: seq<Match>, ms: seq<Match>, limit: nat): seq<Match> {
    if ms == [] then h else Newest(PushAll(h, ms[..|ms| - 1], limit) + [ms[|ms| - 1]], limit)
  }

  lemma {:induction false} PushedAreNewest(ms: seq<Match>, limit: nat)
    ensures PushAll([], ms, limit) == Newest(ms, limit)
  {
    if ms != [] {
      var n := |ms| - 1;
      PushedAreNewest(ms[..n], limit);
      assert ms == ms[..n] + [ms[n]];
    }
  }

  /** After any pushes under a limit, the recent matches are the newest of all pushed ones,
      newest first, as many as were asked for, kept and pushed. */
  lemma RecentOfPushed(ms: seq<Match>, limit: nat, k: nat)
    ensures var r := Recent(PushAll([], ms, limit), k);
      && |r| == Min(k, Min(|ms|, limit))
      && forall i :: 0 <= i < |r| ==> r[i] == ms[|ms| - 1 - i]
  {
    hide Recent;
    hide PushAll;
    PushedAreNewest(ms, limit);
    assert Newest(ms, limit) == ms[|ms| - Min(|ms|, limit)..];
  }
}
