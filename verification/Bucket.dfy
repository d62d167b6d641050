/** The dual-structure player pool (src/engine/bucket.rs): a map by id and an index ordered by
    `(rating, id)`, and the queries the matcher asks of them. */
module Bucket {
  import opened Basics
  import opened Records
  import opened Models
  import opened Orders
  import opened Relaxation
  import opened QueueSpec

  /** The part of a player that never changes, as a record; both orders depend on it alone. */
  function Identity(p: Player): Rec {
    NewRec(p.id, p.skillRating, p.joinTimestamp)
  }

  predicate Before(o: Order, p: Player, q: Player) {
    Less(o, Identity(p), Identity(q))
  }

  ghost predicate Ordered(o: Order, s: seq<Player>) {
    forall i, j :: 0 <= i < j < |s| ==> Before(o, s[i], s[j])
  }

  function Values(s: seq<Player>): (v: seq<Rec>)
    reads s
    ensures |v| == |s|
    ensures forall i :: 0 <= i < |s| ==> v[i] == s[i].Value()
  {
    seq(|s|, i requires 0 <= i < |s| reads s => s[i].Value())
  }

  lemma OrderedValues(o: Order, s: seq<Player>)
    requires Ordered(o, s)
    ensures Ascends(o, Values(s))
  {
    forall i, j | 0 <= i < j < |s|
      ensures Less(o, s[i].Value(), s[j].Value())
    {
      assert Before(o, s[i], s[j]);
    }
  }

  // ---- The ordered index -----------------------------------------------------------------

  /** Insert under the key `(rating, id)`, replacing an entry with the same key. */
  function Put(index: seq<Player>, p: Player): seq<Player> {
    if index == [] || Before(ByRating, p, index[0]) then [p] + index
    else if Before(ByRating, index[0], p) then [index[0]] + Put(index[1..], p)
    else [p] + index[1..]
  }

  /** Remove the entry under a key, if there is one. */
  function Delete(index: seq<Player>, p: Player): seq<Player> {
    if index == [] then []
    else if Before(ByRating, index[0], p) then [index[0]] + Delete(index[1..], p)
    else if Before(ByRating, p, index[0]) then index
    else index[1..]
  }

  predicate SameKey(p: Player, q: Player) {
    p.skillRating == q.skillRating && p.id == q.id
  }

  lemma {:induction false} PutMembers(index: seq<Player>, p: Player)
    requires Ordered(ByRating, index)
    ensures p in Put(index, p) && forall q :: q in index && !SameKey(q, p) ==> q in Put(index, p)
    ensures forall i {:trigger Put(index, p)[i]} :: 0 <= i < |Put(index, p)| ==>
      var q := Put(index, p)[i]; q == p || (q in index && !SameKey(q, p))
  {
    if index == [] || Before(ByRating, p, index[0]) {
      forall q | q in index
        ensures !SameKey(q, p)
      {
        var k :| 0 <= k < |index| && index[k] == q;
        assert k > 0 ==> Before(ByRating, index[0], index[k]);
      }
    } else {
      assert index == [index[0]] + index[1..];
      if Before(ByRating, index[0], p) {
        PutMembers(index[1..], p);
      } else {
        forall q | q in index[1..]
          ensures !SameKey(q, p)
        {
          var k :| 0 <= k < |index[1..]| && index[1..][k] == q;
          assert Before(ByRating, index[0], index[k + 1]);
        }
      }
    }
  }

  lemma {:induction false} PutOrdered(index: seq<Player>, p: Player)
    requires Ordered(ByRating, index)
    ensures Ordered(ByRating, Put(index, p))
  {
    if index != [] && Before(ByRating, index[0], p) {
      PutOrdered(index[1..], p);
      PutMembers(index[1..], p);
      var rest := Put(index[1..], p);
      forall i | 0 <= i < |rest|
        ensures Before(ByRating, index[0], rest[i])
      {
        if rest[i] != p {
          assert rest[i] in index[1..];
        }
      }
    }
  }

  lemma {:induction false} DeleteMembers(index: seq<Player>, p: Player)
    requires Ordered(ByRating, index)
    ensures forall q :: q in index && !SameKey(q, p) ==> q in Delete(index, p)
    ensures forall i {:trigger Delete(index, p)[i]} :: 0 <= i < |Delete(index, p)| ==>
      var q := Delete(index, p)[i]; q in index && !SameKey(q, p)
  {
    if index != [] {
      assert index == [index[0]] + index[1..];
      if Before(ByRating, index[0], p) {
        DeleteMembers(index[1..], p);
      } else {
        forall q | q in index[1..]
          ensures !SameKey(q, p)
        {
          var k :| 0 <= k < |index[1..]| && index[1..][k] == q;
          assert Before(ByRating, index[0], index[k + 1]);
        }
      }
    }
  }

  lemma {:induction false} DeleteOrdered(index: seq<Player>, p: Player)
    requires Ordered(ByRating, index)
    ensures Ordered(ByRating, Delete(index, p))
  {
    if index != [] && Before(ByRating, index[0], p) {
      DeleteOrdered(index[1..], p);
      DeleteMembers(index[1..], p);
      var rest := Delete(index[1..], p);
      forall i | 0 <= i < |rest|
        ensures Before(ByRating, index[0], rest[i])
      {
        assert rest[i] in index[1..];
      }
    }
  }

  // ---- Agreement of the two structures ---------------------------------------------------

  ghost predicate Keyed(primary: map<Uuid, Player>) {
    forall id :: id in primary ==> primary[id].id == id
  }

  /** Both structures hold the same players, the index in key order. */
  ghost predicate Agree(primary: map<Uuid, Player>, index: seq<Player>) {
    && Keyed(primary)
    && Ordered(ByRating, index)
    && (forall p :: p in index ==> p.id in primary && primary[p.id] == p)
    && (forall id :: id in primary ==> primary[id] in index)
  }

  /** Insertion keeps the two structures in agreement exactly when the id is new, or the player
      present under it has the same rating; otherwise the old index entry is left behind. */
  lemma InsertAgreesExactlyWhen(primary: map<Uuid, Player>, index: seq<Player>, p: Player)
    requires Agree(primary, index)
    ensures Agree(primary[p.id := p], Put(index, p))
            <==> (p.id !in primary || primary[p.id].skillRating == p.skillRating)
  {
    PutMembers(index, p);
    PutOrdered(index, p);
    if p.id in primary && primary[p.id].skillRating != p.skillRating {
      var stale := primary[p.id];
      assert stale in index && stale in Put(index, p);
      assert !Agree(primary[p.id := p], Put(index, p));
    } else {
    }
  }

  lemma RemoveAgrees(primary: map<Uuid, Player>, index: seq<Player>, id: Uuid)
    requires Agree(primary, index) && id in primary
    ensures Agree(primary - {id}, Delete(index, primary[id]))
  {
    DeleteMembers(index, primary[id]);
    DeleteOrdered(index, primary[id]);
  }

  /** One operation on the pool, and the pool after a sequence of them. */
  datatype PoolOp = Insert(p: Player) | Remove(id: Uuid)

  function PrimaryAfter(primary: map<Uuid, Player>, ops: seq<PoolOp>): map<Uuid, Player> {
    if ops == [] then primary
    else
      var n := |ops| - 1;
      var before := PrimaryAfter(primary, ops[..n]);
      match ops[n]
      case Insert(p) => before[p.id := p]
      case Remove(id) => before - {id}
  }

  function IndexAfter(primary: map<Uuid, Player>, index: seq<Player>, ops: seq<PoolOp>): seq<Player> {
    if ops == [] then index
    else
      var n := |ops| - 1;
      var before := IndexAfter(primary, index, ops[..n]);
      match ops[n]
      case Insert(p) => Put(before, p)
      case Remove(id) =>
        var store := PrimaryAfter(primary, ops[..n]);
        if id in store then Delete(before, store[id]) else before
  }

  /** Every insertion is of an id not present at that moment. */
  ghost predicate FreshInserts(primary: map<Uuid, Player>, ops: seq<PoolOp>) {
    forall i :: 0 <= i < |ops| && ops[i].Insert? ==> ops[i].p.id !in PrimaryAfter(primary, ops[..i])
  }

  /** After any sequence of insertions of fresh ids and removals of any ids, the index lists
      exactly the players of the primary store. */
  lemma {:induction false} StructuresStayInSync(ops: seq<PoolOp>)
    requires FreshInserts(map[], ops)
    ensures Agree(PrimaryAfter(map[], ops), IndexAfter(map[], [], ops))
  {
    if ops != [] {
      var n := |ops| - 1;
      forall i | 0 <= i < n && ops[..n][i].Insert?
        ensures ops[..n][i].p.id !in PrimaryAfter(map[], ops[..n][..i])
      {
        assert ops[..n][..i] == ops[..i];
      }
      StructuresStayInSync(ops[..n]);
      var primary, index := PrimaryAfter(map[], ops[..n]), IndexAfter(map[], [], ops[..n]);
      match ops[n] {
        case Insert(p) => InsertAgreesExactlyWhen(primary, index, p);
        case Remove(id) =>
          if id in primary {
            RemoveAgrees(primary, index, id);
          } else {
            assert primary - {id} == primary;
          }
      }
    }
  }

  // ---- The pool --------------------------------------------------------------------------

  class PlayerPool {
    var primary: map<Uuid, Player>
    var index: seq<Player>

    constructor ()
      ensures Valid() && primary == map[]
    {
      primary := map[];
      index := [];
    }

    ghost predicate Valid()
      reads this
    {
      Agree(primary, index)
    }

    ghost function Players(): set<Player>
      reads this
    {
      primary.Values
    }

    /** The queue as a set of record values. */
    ghost function Queue(): Queue
      reads this, Players()
    {
      set p | p in Players() :: p.Value()
    }

    /** The queue by id. */
    ghost function Entries(): map<Uuid, Rec>
      reads this, Players()
    {
      map id | id in primary :: primary[id].Value()
    }

    lemma EntriesAreQueue()
      ensures Entries().Values == Queue()
    {
      forall r | r in Queue()
        ensures r in Entries().Values
      {
        var p :| p in Players() && p.Value() == r;
        var id :| id in primary && primary[id] == p;
        assert Entries()[id] == r;
      }
    }

    lemma QueueIsUnique()
      requires Valid()
      ensures UniqueIds(Queue())
    {
      forall a, b | a in Queue() && b in Queue() && a.id == b.id
        ensures a == b
      {
        var p :| p in Players() && p.Value() == a;
        var q :| q in Players() && q.Value() == b;
        var i :| i in primary && primary[i] == p;
        var j :| j in primary && primary[j] == q;
      }
    }

    method Insert(player: Player)
      requires Valid()
      modifies this
      ensures primary == old(primary)[player.id := player]
      ensures index == Put(old(index), player)
      ensures Valid() <==> (player.id !in old(primary) || old(primary)[player.id].skillRating == player.skillRating)
    {
      InsertAgreesExactlyWhen(primary, index, player);
      primary := primary[player.id := player];
      index := Put(index, player);
    }

    method Remove(id: Uuid) returns (removed: Option<Player>)
      requires Valid()
      modifies this
      ensures Valid()
      ensures primary == old(primary) - {id}
      ensures removed == if id in old(primary) then Some(old(primary)[id]) else None
    {
      if id !in primary {
        assert primary - {id} == primary;
        return None;
      }
      RemoveAgrees(primary, index, id);
      var player := primary[id];
      primary := primary - {id};
      index := Delete(index, player);
      removed := Some(player);
    }

    function Contains(id: Uuid): bool
      reads this
    {
      id in primary
    }

    function Get(id: Uuid): (r: Option<Player>)
      reads this
      ensures r.Some? <==> Contains(id)
    {
      if id in primary then Some(primary[id]) else None
    }

    method AllPlayers() returns (all: seq<Player>)
      ensures Distinct(all) && Elements(all) == Players()
    {
      all := [];
      var todo := primary.Values;
      while todo != {}
        invariant Distinct(all) && todo <= Players() && Elements(all) == Players() - todo
        decreases |todo|
      {
        var p :| p in todo;
        assert p !in Elements(all);
        assert Elements(all + [p]) == Elements(all) + {p};
        all := all + [p];
        todo := todo - {p};
      }
    }

    lemma IndexListsQueue()
      requires Valid()
      ensures Ascends(ByRating, Values(index)) && Elements(Values(index)) == Queue()
    {
      OrderedValues(ByRating, index);
      forall r | r in Queue()
        ensures r in Elements(Values(index))
      {
        var p :| p in Players() && p.Value() == r;
        var i :| i in primary && primary[i] == p;
        assert p in index;
        var k :| 0 <= k < |index| && index[k] == p;
        assert Values(index)[k] == r;
      }
      forall r | r in Elements(Values(index))
        ensures r in Queue()
      {
        var k :| 0 <= k < |index| && Values(index)[k] == r;
        assert index[k] in index;
        assert primary[index[k].id] == index[k];
      }
    }

    /** The scan loop: walk the index in key order, keep the waiting players in range, stop at
        the cap. */
    method Collect(b: Bounds) returns (candidates: seq<Player>)
      requires Valid()
      ensures var e := Eligible(Values(index), b); Values(candidates) == e[..Min(MAX_CANDIDATES, |e|)]
      ensures Ordered(ByRating, candidates) && forall p :: p in candidates ==> p in index
    {
      candidates := [];
      var i := 0;
      while i < |index| && |candidates| < MAX_CANDIDATES
        invariant 0 <= i <= |index| && |candidates| <= MAX_CANDIDATES
        invariant candidates == Pick(index[..i], b)
      {
        assert index[..i + 1][..i] == index[..i];
        if index[i].state == Waiting && Within(index[i].skillRating, b) {
          candidates := candidates + [index[i]];
        }
        i := i + 1;
      }
      assert i == |index| ==> index[..i] == index;
      PickedFromPrefix(index, b, i);
    }

    /** Up to 200 waiting players with a rating in range, oldest first. The bounds are clamped
        to the rating scale; an inverted range is a caller's error. */
    method RangeScan(minRating: nat, maxRating: nat) returns (candidates: seq<Player>)
      requires Valid() && Min(minRating, MAX_SKILL_RATING) <= Min(maxRating, MAX_SKILL_RATING)
      ensures UniqueIds(Queue())
      ensures Values(candidates) == Scan(Queue(), Bounds(Min(minRating, MAX_SKILL_RATING), Min(maxRating, MAX_SKILL_RATING)))
      ensures Distinct(candidates) && forall p :: p in candidates ==> p in Players()
    {
      var b := Bounds(Min(minRating, MAX_SKILL_RATING), Min(maxRating, MAX_SKILL_RATING));
      var collected := Collect(b);
      candidates := SortByAge(collected);
      IndexListsQueue();
      QueueIsUnique();
      CapIsLeast(Values(index), Queue(), b);
      ScanIsSorted(Queue(), b, Values(collected), Values(candidates));
      OrderedDistinct(ByAge, candidates);
      forall k | 0 <= k < |candidates|
        ensures candidates[k] in Players()
      {
        assert candidates[k] in multiset(collected);
        assert primary[candidates[k].id] == candidates[k];
      }
    }

    /** What a scan returns, field by field: waiting players in range, joined no later than those
        after them, ties by lower rating and then lower id; at most 200; and whoever in range was
        left out makes way for 200 players of lower rating, or equal rating and lower id. */
    lemma ScanInFields(minRating: nat, maxRating: nat, candidates: seq<Player>)
      requires Valid() && minRating <= maxRating <= 3000 && UniqueIds(Queue())
      requires Values(candidates) == Scan(Queue(), Bounds(minRating, maxRating))
      requires Distinct(candidates) && forall p :: p in candidates ==> p in Players()
      ensures |candidates| <= 200
      ensures forall p :: p in candidates ==> p.state == Waiting && minRating <= p.skillRating <= maxRating
      ensures forall i, j :: 0 <= i < j < |candidates| ==>
                candidates[i].joinTimestamp < candidates[j].joinTimestamp
                || (candidates[i].joinTimestamp == candidates[j].joinTimestamp
                    && (candidates[i].skillRating < candidates[j].skillRating
                        || (candidates[i].skillRating == candidates[j].skillRating && candidates[i].id < candidates[j].id)))
      ensures forall p :: p in Players() && p !in candidates && p.state == Waiting && minRating <= p.skillRating <= maxRating ==>
                && |candidates| == 200
                && forall c :: c in candidates ==>
                     c.skillRating < p.skillRating || (c.skillRating == p.skillRating && c.id < p.id)
    {
      hide Scan;
      hide Valid;
      var b := Bounds(minRating, maxRating);
      ListedFields(Queue(), b, candidates);
      forall p | p in Players() && p !in candidates && p.state == Waiting && minRating <= p.skillRating <= maxRating
        ensures |candidates| == 200
        ensures forall c :: c in candidates ==>
                  c.skillRating < p.skillRating || (c.skillRating == p.skillRating && c.id < p.id)
      {
        LeftOut(b, candidates, p);
      }
    }

    /** The players that a scan lists. */
    static lemma ListedFields(q: Queue, b: Bounds, candidates: seq<Player>)
      requires UniqueIds(q) && b.lo <= b.hi <= MAX_SKILL_RATING && Values(candidates) == Scan(q, b)
      ensures |candidates| <= MAX_CANDIDATES
      ensures forall p :: p in candidates ==> p.state == Waiting && Within(p.skillRating, b)
      ensures forall i, j :: 0 <= i < j < |candidates| ==>
                candidates[i].joinTimestamp < candidates[j].joinTimestamp
                || (candidates[i].joinTimestamp == candidates[j].joinTimestamp
                    && (candidates[i].skillRating < candidates[j].skillRating
                        || (candidates[i].skillRating == candidates[j].skillRating && candidates[i].id < candidates[j].id)))
    {
      hide Scan;
      hide Capped;
      var s := Values(candidates);
      ScanMeans(q, b);
      forall p | p in candidates
        ensures p.state == Waiting && Within(p.skillRating, b)
      {
        var k :| 0 <= k < |candidates| && candidates[k] == p;
        assert s[k] in s;
      }
      forall i, j | 0 <= i < j < |candidates|
        ensures candidates[i].joinTimestamp < candidates[j].joinTimestamp
                || (candidates[i].joinTimestamp == candidates[j].joinTimestamp
                    && (candidates[i].skillRating < candidates[j].skillRating
                        || (candidates[i].skillRating == candidates[j].skillRating && candidates[i].id < candidates[j].id)))
      {
        assert s[i] == candidates[i].Value() && s[j] == candidates[j].Value();
      }
    }

    /** A waiting player in range that a scan leaves out. */
    lemma LeftOut(b: Bounds, candidates: seq<Player>, p: Player)
      requires Valid() && UniqueIds(Queue()) && Values(candidates) == Scan(Queue(), b)
      requires forall c :: c in candidates ==> c in Players()
      requires p in Players() && p !in candidates && p.state == Waiting && Within(p.skillRating, b)
      ensures |candidates| == MAX_CANDIDATES
      ensures forall c :: c in candidates ==>
                c.skillRating < p.skillRating || (c.skillRating == p.skillRating && c.id < p.id)
    {
      hide Scan;
      var s := Values(candidates);
      ScanMeans(Queue(), b);
      assert p.Value() in InRange(Queue(), b);
      if p.Value() in s {
        var k :| 0 <= k < |s| && s[k] == p.Value();
        assert candidates[k] in candidates;
        SamePlayer(candidates[k], p);
        assert false;
      }
      assert p.Value() !in Elements(s);
      forall c | c in candidates
        ensures c.skillRating < p.skillRating || (c.skillRating == p.skillRating && c.id < p.id)
      {
        var k :| 0 <= k < |candidates| && candidates[k] == c;
        assert s[k] in s;
      }
    }

    lemma SamePlayer(p: Player, q: Player)
      requires Valid() && p in Players() && q in Players() && p.id == q.id
      ensures p == q
    {
      var i :| i in primary && primary[i] == p;
      var j :| j in primary && primary[j] == q;
    }

    /** The oldest waiting player, by (join time, rating, id). */
    method OldestWaiting() returns (oldest: Option<Player>)
      requires Valid()
      ensures UniqueIds(Queue())
      ensures oldest.Some? ==> oldest.value in Players()
      ensures (if oldest.Some? then Some(oldest.value.Value()) else None) == Oldest(Queue())
      ensures oldest.None? ==> forall p :: p in Players() ==> p.state != Waiting
      ensures oldest.Some? ==> oldest.value.state == Waiting
      ensures oldest.Some? ==> forall p :: p in Players() && p.state == Waiting ==>
                oldest.value.joinTimestamp < p.joinTimestamp
                || (oldest.value.joinTimestamp == p.joinTimestamp
                    && (oldest.value.skillRating < p.skillRating
                        || (oldest.value.skillRating == p.skillRating && oldest.value.id <= p.id)))
    {
      QueueIsUnique();
      oldest := OldestSuch(None);
      LeastFound(WaitingIn(Queue()), if oldest.Some? then Some(oldest.value.Value()) else None);
    }

    /** The oldest waiting player whose rating is outside the given range. */
    method OldestWaitingExcludingRange(excluded: Bounds) returns (oldest: Option<Player>)
      requires Valid()
      ensures UniqueIds(Queue())
      ensures oldest.Some? ==> oldest.value in Players()
      ensures (if oldest.Some? then Some(oldest.value.Value()) else None) == OldestOf(OutOfRange(Queue(), excluded))
      ensures oldest.None? ==> forall p :: p in Players() && p.state == Waiting ==> excluded.lo <= p.skillRating <= excluded.hi
      ensures oldest.Some? ==>
                oldest.value.state == Waiting
                && (oldest.value.skillRating < excluded.lo || excluded.hi < oldest.value.skillRating)
      ensures oldest.Some? ==> forall p :: p in Players() && p.state == Waiting && !(excluded.lo <= p.skillRating <= excluded.hi) ==>
                oldest.value.joinTimestamp < p.joinTimestamp
                || (oldest.value.joinTimestamp == p.joinTimestamp
                    && (oldest.value.skillRating < p.skillRating
                        || (oldest.value.skillRating == p.skillRating && oldest.value.id <= p.id)))
    {
      QueueIsUnique();
      oldest := OldestSuch(Some(excluded));
      LeastFound(OutOfRange(Queue(), excluded), if oldest.Some? then Some(oldest.value.Value()) else None);
    }

    /** Minimum over the primary store, in whatever order it is iterated. */
    method OldestSuch(excluded: Option<Bounds>) returns (oldest: Option<Player>)
      requires Valid()
      ensures oldest.Some? ==> oldest.value in Players() && Wanted(oldest.value.Value(), excluded)
      ensures oldest.None? ==> forall p :: p in Players() ==> !Wanted(p.Value(), excluded)
      ensures oldest.Some? ==> forall p :: p in Players() && p != oldest.value && Wanted(p.Value(), excluded) ==>
                Less(ByAge, oldest.value.Value(), p.Value())
    {
      oldest := None;
      var todo := primary.Keys;
      while todo != {}
        invariant todo <= primary.Keys
        invariant oldest.Some? ==> oldest.value in Players() && Wanted(oldest.value.Value(), excluded)
        invariant oldest.Some? ==> oldest.value.id !in todo
        invariant forall id :: id in primary && id !in todo && Wanted(primary[id].Value(), excluded) ==>
                    oldest.Some? && (primary[id] == oldest.value || Less(ByAge, oldest.value.Value(), primary[id].Value()))
        decreases |todo|
      {
        var id :| id in todo;
        var p := primary[id];
        if p.state == Waiting && (excluded.None? || !Within(p.skillRating, excluded.value)) {
          if oldest.None? || Before(ByAge, p, oldest.value) {
            oldest := Some(p);
          }
        }
        todo := todo - {id};
      }
    }
  }

  predicate Wanted(r: Rec, excluded: Option<Bounds>) {
    r.state == Waiting && (excluded.None? || !Within(r.rating, excluded.value))
  }

  lemma LeastFound(s: set<Rec>, found: Option<Rec>)
    requires UniqueIds(s)
    requires found.Some? ==> IsLeast(ByAge, found.value, s)
    requires found.None? ==> s == {}
    ensures found == OldestOf(s)
  {
    if found.Some? {
      LeastUnique(ByAge, s, found.value, Least(ByAge, s));
    }
  }

  lemma ScanIsSorted(q: Queue, b: Bounds, picked: seq<Rec>, sorted: seq<Rec>)
    requires UniqueIds(q) && Elements(picked) == Capped(q, b)
    requires multiset(sorted) == multiset(picked) && Ascends(ByAge, sorted)
    ensures sorted == Scan(q, b)
  {
    assert forall r :: r in sorted <==> r in multiset(sorted);
    assert forall r :: r in picked <==> r in multiset(picked);
    assert Elements(sorted) == Elements(picked);
    AscendingUnique(ByAge, Capped(q, b), sorted);
  }

  /** Put one more player into a list sorted by age. */
  method InsertByAge(sorted: seq<Player>, p: Player) returns (more: seq<Player>)
    requires Ordered(ByAge, sorted) && forall j :: 0 <= j < |sorted| ==> Before(ByRating, sorted[j], p)
    ensures Ordered(ByAge, more) && multiset(more) == multiset(sorted) + multiset{p}
  {
    var k := 0;
    while k < |sorted| && Before(ByAge, sorted[k], p)
      invariant 0 <= k <= |sorted|
      invariant forall j :: 0 <= j < k ==> Before(ByAge, sorted[j], p)
    {
      k := k + 1;
    }
    InsertKeepsOrder(sorted, p, k);
    InsertOne(sorted, p, k);
    more := sorted[..k] + [p] + sorted[k..];
  }

  /** The sort of the candidates, by insertion. The order is total on players with different
      ids, so every sorting algorithm gives this result. */
  method SortByAge(players: seq<Player>) returns (sorted: seq<Player>)
    requires Ordered(ByRating, players)
    ensures multiset(sorted) == multiset(players) && Ordered(ByAge, sorted)
    ensures multiset(Values(sorted)) == multiset(Values(players)) && Ascends(ByAge, Values(sorted))
  {
    sorted := [];
    for i := 0 to |players|
      invariant multiset(sorted) == multiset(players[..i]) && Ordered(ByAge, sorted)
    {
      forall j | 0 <= j < |sorted|
        ensures Before(ByRating, sorted[j], players[i])
      {
        assert sorted[j] in multiset(players[..i]);
        assert sorted[j] in players[..i];
      }
      sorted := InsertByAge(sorted, players[i]);
      assert players[..i + 1] == players[..i] + [players[i]];
    }
    assert players[..|players|] == players;
    OrderedValues(ByAge, sorted);
    ValuesOfPermutation(sorted, players);
  }

  /** The players of an index listing that a scan keeps, in the order of the listing. */
  function Pick(index: seq<Player>, b: Bounds): seq<Player>
    reads index
  {
    if index == [] then []
    else
      var n := |index| - 1;
      Pick(index[..n], b)
      + (if index[n].state == Waiting && Within(index[n].skillRating, b) then [index[n]] else [])
  }

  lemma {:induction false} PickValues(index: seq<Player>, b: Bounds)
    ensures Values(Pick(index, b)) == Eligible(Values(index), b)
  {
    if index != [] {
      var n := |index| - 1;
      PickValues(index[..n], b);
      assert Values(index)[..n] == Values(index[..n]);
      var rest := Pick(index[..n], b);
      assert Values(rest + [index[n]]) == Values(rest) + [index[n].Value()];
      assert rest + [] == rest;
    }
  }

  lemma {:induction false} PickMembers(index: seq<Player>, b: Bounds)
    ensures forall k :: 0 <= k < |Pick(index, b)| ==> Pick(index, b)[k] in index
  {
    if index != [] {
      PickMembers(index[..|index| - 1], b);
    }
  }

  lemma {:induction false} PickOrdered(index: seq<Player>, b: Bounds)
    requires Ordered(ByRating, index)
    ensures Ordered(ByRating, Pick(index, b))
  {
    if index != [] {
      var n := |index| - 1;
      PickOrdered(index[..n], b);
      PickMembers(index[..n], b);
      var rest := Pick(index[..n], b);
      forall k | 0 <= k < |rest|
        ensures Before(ByRating, rest[k], index[n])
      {
        assert rest[k] in index[..n];
        var m :| 0 <= m < n && index[..n][m] == rest[k];
        assert Before(ByRating, index[m], index[n]);
      }
    }
  }

  /** Stopping early at the cap gives the first part of the whole scan. */
  lemma PickedFromPrefix(index: seq<Player>, b: Bounds, i: nat)
    requires i <= |index| && Ordered(ByRating, index)
    requires i == |index| || |Pick(index[..i], b)| >= MAX_CANDIDATES
    requires |Pick(index[..i], b)| <= MAX_CANDIDATES
    ensures var e := Eligible(Values(index), b);
      && Values(Pick(index[..i], b)) == e[..Min(MAX_CANDIDATES, |e|)]
    ensures Ordered(ByRating, Pick(index[..i], b))
    ensures forall k :: 0 <= k < |Pick(index[..i], b)| ==> Pick(index[..i], b)[k] in index
  {
    PickValues(index[..i], b);
    assert Values(index[..i]) == Values(index)[..i];
    EligiblePrefix(Values(index), b, i);
    if i == |index| {
      assert Values(index)[..i] == Values(index);
    }
    PickOrdered(index[..i], b);
    PickMembers(index[..i], b);
  }

  lemma OrderedDistinct(o: Order, s: seq<Player>)
    requires Ordered(o, s)
    ensures Distinct(s)
  {
    forall i, j | 0 <= i < j < |s|
      ensures s[i] != s[j]
    {
      assert Before(o, s[i], s[j]);
    }
  }

  /** Two players that the rating order tells apart are told apart by the age order too. */
  lemma InsertKeepsOrder(sorted: seq<Player>, p: Player, k: nat)
    requires k <= |sorted| && Ordered(ByAge, sorted)
    requires forall j :: 0 <= j < |sorted| ==> Before(ByRating, sorted[j], p)
    requires forall j :: 0 <= j < k ==> Before(ByAge, sorted[j], p)
    requires k < |sorted| ==> !Before(ByAge, sorted[k], p)
    ensures Ordered(ByAge, sorted[..k] + [p] + sorted[k..])
  {
    forall j | k <= j < |sorted|
      ensures Before(ByAge, p, sorted[j])
    {
      assert Before(ByRating, sorted[k], p);
      assert Before(ByAge, p, sorted[k]);
      if k < j {
        assert Before(ByAge, sorted[k], sorted[j]);
      }
    }
  }

  lemma {:induction false} ValuesOfPermutation(a: seq<Player>, b: seq<Player>)
    requires multiset(a) == multiset(b)
    ensures multiset(Values(a)) == multiset(Values(b))
    decreases |a|
  {
    if a == [] {
      assert |multiset(b)| == 0;
      assert Values(a) == Values(b);
    } else {
      assert a[0] in multiset(b);
      var j :| 0 <= j < |b| && b[j] == a[0];
      RemoveOne(a, b, j);
      ValuesOfPermutation(a[1..], b[..j] + b[j + 1..]);
      ValuesSplit(b, j);
      assert Values(a) == [a[0].Value()] + Values(a[1..]);
    }
  }

  lemma ValuesSplit(b: seq<Player>, j: nat)
    requires j < |b|
    ensures multiset(Values(b)) == multiset(Values(b[..j] + b[j + 1..])) + multiset{b[j].Value()}
  {
    var front, back := Values(b[..j]), Values(b[j + 1..]);
    assert Values(b) == front + ([b[j].Value()] + back);
    assert Values(b[..j] + b[j + 1..]) == front + back;
  }
}
