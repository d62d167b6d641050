/** The two orders the engine sorts players by, and finite sets of records listed in them. */
module Orders {
  import opened Basics
  import opened Records

  datatype Order = ByRating | ByAge

  /** The rating index orders its keys `(rating, id)`; seeds and candidates are ordered by
      `(join time, rating, id)`, oldest first. */
  predicate Less(o: Order, a: Rec, b: Rec) {
    match o
    case ByRating => KeyLess(a, b)
    case ByAge => a.join < b.join || (a.join == b.join && KeyLess(a, b))
  }

  predicate KeyLess(a: Rec, b: Rec) {
    a.rating < b.rating || (a.rating == b.rating && a.id < b.id)
  }

  /** No two members share an id, so that both orders are total on the set. */
  ghost predicate UniqueIds(s: set<Rec>) {
    forall a, b :: a in s && b in s && a.id == b.id ==> a == b
  }

  ghost predicate IsLeast(o: Order, m: Rec, s: set<Rec>) {
    m in s && forall x :: x in s && x != m ==> Less(o, m, x)
  }

  /** The oldest member joined first; among those who joined together it has the lowest rating,
      and among those the lowest id. */
  lemma OldestJoinedFirst(m: Rec, s: set<Rec>, x: Rec)
    requires IsLeast(ByAge, m, s) && x in s
    ensures m.join <= x.join && (m.join == x.join ==> m.rating <= x.rating)
    ensures m.join == x.join && m.rating == x.rating ==> m.id <= x.id
  {
  }

  lemma {:induction false} LeastExists(o: Order, s: set<Rec>)
    requires s != {} && UniqueIds(s)
    ensures exists m :: IsLeast(o, m, s)
    decreases |s|
  {
    var x :| x in s;
    var rest := s - {x};
    assert forall z :: z in s ==> z == x || z in rest;
    if rest == {} {
      assert IsLeast(o, x, s);
    } else {
      LeastExists(o, rest);
      var y :| IsLeast(o, y, rest);
      assert x.id != y.id;
      assert IsLeast(o, if Less(o, x, y) then x else y, s);
    }
  }

  ghost function Least(o: Order, s: set<Rec>): (m: Rec)
    requires s != {} && UniqueIds(s)
    ensures IsLeast(o, m, s)
  {
    LeastExists(o, s);
    var m :| IsLeast(o, m, s);
    m
  }

  ghost predicate Ascends(o: Order, s: seq<Rec>) {
    forall i, j :: 0 <= i < j < |s| ==> Less(o, s[i], s[j])
  }

  function Elements<T>(s: seq<T>): set<T> {
    set x | x in s
  }

  /** The members of a set, least first. */
  ghost function Ascending(o: Order, s: set<Rec>): seq<Rec>
    requires UniqueIds(s)
    decreases |s|
  {
    if s == {} then [] else [Least(o, s)] + Ascending(o, s - {Least(o, s)})
  }

  lemma ElementsCons<T>(x: T, s: seq<T>)
    ensures Elements([x] + s) == {x} + Elements(s)
  {
  }

  lemma AscendsCons(o: Order, m: Rec, s: seq<Rec>)
    requires Ascends(o, s) && forall x :: x in Elements(s) ==> Less(o, m, x)
    ensures Ascends(o, [m] + s)
  {
    assert forall i :: 0 <= i < |s| ==> s[i] in Elements(s);
  }

  lemma {:induction false} AscendingLists(o: Order, s: set<Rec>)
    requires UniqueIds(s)
    ensures Ascends(o, Ascending(o, s))
    ensures Elements(Ascending(o, s)) == s
    ensures |Ascending(o, s)| == |s|
    decreases |s|
  {
    if s != {} {
      var m := Least(o, s);
      AscendingLists(o, s - {m});
      var rest := Ascending(o, s - {m});
      AscendsCons(o, m, rest);
      ElementsCons(m, rest);
    }
  }

  lemma AscendsDistinct(o: Order, s: seq<Rec>)
    requires Ascends(o, s)
    ensures Distinct(s)
  {
  }

  lemma AscendsHead(o: Order, s: set<Rec>, r: seq<Rec>)
    requires UniqueIds(s) && r != []
    requires Ascends(o, r) && Elements(r) == s
    ensures IsLeast(o, r[0], s)
    ensures Ascends(o, r[1..]) && Elements(r[1..]) == s - {r[0]}
  {
    assert r == [r[0]] + r[1..];
    assert r[0] !in r[1..];
  }

  lemma LeastUnique(o: Order, s: set<Rec>, a: Rec, b: Rec)
    requires IsLeast(o, a, s) && IsLeast(o, b, s)
    ensures a == b
  {
  }

  /** There is only one way to list a set in order: an unstable sort may be used. */
  lemma {:induction false} AscendingUnique(o: Order, s: set<Rec>, r: seq<Rec>)
    requires UniqueIds(s)
    requires Ascends(o, r) && Elements(r) == s
    ensures r == Ascending(o, s)
    decreases |r|
  {
    if r == [] {
      assert s == {};
    } else {
      AscendsHead(o, s, r);
      LeastUnique(o, s, r[0], Least(o, s));
      AscendingUnique(o, s - {r[0]}, r[1..]);
      calc {
        Ascending(o, s);
        [r[0]] + Ascending(o, s - {r[0]});
        [r[0]] + r[1..];
        r;
      }
    }
  }

  /** The `k` least members of a set. */
  ghost function LeastK(o: Order, s: set<Rec>, k: nat): set<Rec>
    requires UniqueIds(s)
  {
    AscendingLists(o, s);
    Elements(Ascending(o, s)[..Min(k, |s|)])
  }

  ghost predicate IsLeastK(o: Order, t: set<Rec>, s: set<Rec>, k: nat) {
    && t <= s
    && |t| == Min(k, |s|)
    && forall x, y :: x in t && y in s - t ==> Less(o, x, y)
  }

  /** What `LeastK` means: as many members as there are, up to `k`, each less than every
      member left behind. */
  lemma LeastKIsLeast(o: Order, s: set<Rec>, k: nat)
    requires UniqueIds(s)
    ensures IsLeastK(o, LeastK(o, s, k), s, k)
  {
    AscendingLists(o, s);
    var a := Ascending(o, s);
    var n := Min(k, |s|);
    AscendsDistinct(o, a[..n]);
    DistinctCardinality(a[..n]);
    var t := LeastK(o, s, k);
    forall x, y | x in t && y in s - t
      ensures Less(o, x, y)
    {
      assert x in a[..n];
      var i :| 0 <= i < n && a[i] == x;
      assert y in Elements(a);
      var j :| 0 <= j < |a| && a[j] == y;
    }
    forall x | x in t
      ensures x in s
    {
      assert x in a[..n];
      assert x in Elements(a);
    }
  }

  lemma LessAsymmetric(o: Order, x: Rec, y: Rec)
    ensures !(Less(o, x, y) && Less(o, y, x))
  {
  }

  lemma LessTransitive(a: Rec, b: Rec, c: Rec)
    requires Less(ByRating, b, c) && (a == b || Less(ByRating, a, b))
    ensures Less(ByRating, a, c)
  {
  }

  lemma LeastKInside(o: Order, s: set<Rec>, k: nat, t: set<Rec>, u: set<Rec>)
    requires IsLeastK(o, t, s, k) && IsLeastK(o, u, s, k)
    ensures t <= u
  {
    forall x | x in t
      ensures x in u
    {
      if x !in u {
        if u <= t {
          ProperSubsetSmaller(u, t);
        } else {
          var y :| y in u && y !in t;
          LessAsymmetric(o, x, y);
        }
      }
    }
  }

  /** Only one set fits that description. */
  lemma IsLeastKUnique(o: Order, s: set<Rec>, k: nat, t: set<Rec>, u: set<Rec>)
    requires IsLeastK(o, t, s, k) && IsLeastK(o, u, s, k)
    ensures t == u
  {
    LeastKInside(o, s, k, t, u);
    LeastKInside(o, s, k, u, t);
  }

  /** The least member is among the `k` least. */
  lemma LeastIsAmong(o: Order, m: Rec, s: set<Rec>, t: set<Rec>, k: nat)
    requires IsLeast(o, m, s) && IsLeastK(o, t, s, k) && k > 0
    ensures m in t
  {
    SubsetSize({m}, s);
    var x :| x in t;
    LessAsymmetric(o, x, m);
  }

  lemma {:induction false} ProperSubsetSmaller<T>(a: set<T>, b: set<T>)
    requires a < b
    ensures |a| < |b|
  {
    var x :| x in b && x !in a;
    SubsetSize(a, b - {x});
  }

  lemma {:induction false} SubsetSize<T>(a: set<T>, b: set<T>)
    requires a <= b
    ensures |a| <= |b|
    decreases |a|
  {
    if a != {} {
      var x :| x in a;
      SubsetSize(a - {x}, b - {x});
    }
  }
}
