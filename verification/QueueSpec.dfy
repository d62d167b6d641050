/** What the pool's queries mean, on the set of queued records. */
module QueueSpec {
  import opened Basics
  import opened Records
  import opened Orders
  import opened Relaxation

  /** Most candidates one scan returns. */
  const MAX_CANDIDATES: nat := 200

  type Queue = set<Rec>

  ghost function WaitingIn(q: Queue): set<Rec> {
    set r | r in q && r.state == Waiting
  }

  ghost function InRange(q: Queue, b: Bounds): set<Rec> {
    set r | r in q && r.state == Waiting && Within(r.rating, b)
  }

  ghost function OutOfRange(q: Queue, b: Bounds): set<Rec> {
    set r | r in q && r.state == Waiting && !Within(r.rating, b)
  }

  /** The oldest member of a set of waiting records, if there is one. */
  ghost function OldestOf(s: set<Rec>): Option<Rec>
    requires UniqueIds(s)
  {
    if s == {} then None else Some(Least(ByAge, s))
  }

  ghost function Oldest(q: Queue): Option<Rec>
    requires UniqueIds(q)
  {
    OldestOf(WaitingIn(q))
  }

  /** A scan: the waiting records in range, or the first 200 of them in rating order when
      there are more; listed oldest first. */
  ghost function Scan(q: Queue, b: Bounds): seq<Rec>
    requires UniqueIds(q)
  {
    Ascending(ByAge, Capped(q, b))
  }

  ghost function Capped(q: Queue, b: Bounds): (s: set<Rec>)
    requires UniqueIds(q)
    ensures UniqueIds(s)
  {
    LeastKIsLeast(ByRating, InRange(q, b), MAX_CANDIDATES);
    LeastK(ByRating, InRange(q, b), MAX_CANDIDATES)
  }

  /** What a scan returns: waiting records in range, without repetition, oldest first; all of
      them if there are at most 200, and otherwise 200 of them, none with a higher
      `(rating, id)` than a record left out. */
  lemma ScanMeans(q: Queue, b: Bounds)
    requires UniqueIds(q)
    ensures var s := Scan(q, b);
      && Ascends(ByAge, s) && Distinct(s)
      && (forall r :: r in s ==> r in InRange(q, b))
      && |s| == Min(MAX_CANDIDATES, |InRange(q, b)|)
      && (|InRange(q, b)| <= MAX_CANDIDATES ==> Elements(s) == InRange(q, b))
      && (forall x, y :: x in s && y in InRange(q, b) && y !in s ==> Less(ByRating, x, y))
      && (forall i, j :: 0 <= i < j < |s| ==>
            s[i].join < s[j].join
            || (s[i].join == s[j].join
                && (s[i].rating < s[j].rating || (s[i].rating == s[j].rating && s[i].id < s[j].id))))
      && (forall x, y :: x in s && y in InRange(q, b) && y !in s ==>
            x.rating < y.rating || (x.rating == y.rating && x.id < y.id))
  {
    hide LeastK;
    hide Ascending;
    var range := InRange(q, b);
    var t := Capped(q, b);
    LeastKIsLeast(ByRating, range, MAX_CANDIDATES);
    AscendingLists(ByAge, t);
    AscendsDistinct(ByAge, Scan(q, b));
    assert forall r :: r in Scan(q, b) <==> r in Elements(Scan(q, b));
    if |range| <= MAX_CANDIDATES && t != range {
      ProperSubsetSmaller(t, range);
    }
  }

  /** The scan of an index listing: waiting entries in range, in the order of the listing. */
  function Eligible(listing: seq<Rec>, b: Bounds): seq<Rec> {
    if listing == [] then []
    else
      var n := |listing| - 1;
      Eligible(listing[..n], b)
      + (if listing[n].state == Waiting && Within(listing[n].rating, b) then [listing[n]] else [])
  }

  lemma {:induction false} EligiblePrefix(listing: seq<Rec>, b: Bounds, i: nat)
    requires i <= |listing|
    ensures Eligible(listing[..i], b) <= Eligible(listing, b)
    decreases |listing|
  {
    if i == |listing| {
      assert listing[..i] == listing;
    } else {
      var n := |listing| - 1;
      EligiblePrefix(listing[..n], b, i);
      assert listing[..n][..i] == listing[..i];
    }
  }

  lemma {:induction false} EligibleMembers(listing: seq<Rec>, b: Bounds)
    ensures Elements(Eligible(listing, b)) == InRange(Elements(listing), b)
  {
    if listing != [] {
      var n := |listing| - 1;
      EligibleMembers(listing[..n], b);
      assert listing == listing[..n] + [listing[n]];
      assert Elements(listing) == Elements(listing[..n]) + {listing[n]};
      var rest := Eligible(listing[..n], b);
      if listing[n].state == Waiting && Within(listing[n].rating, b) {
        assert Elements(rest + [listing[n]]) == Elements(rest) + {listing[n]};
      } else {
        assert rest + [] == rest;
      }
    }
  }

  lemma {:induction false} EligibleAscends(listing: seq<Rec>, b: Bounds)
    requires Ascends(ByRating, listing)
    ensures Ascends(ByRating, Eligible(listing, b))
  {
    if listing != [] {
      var n := |listing| - 1;
      EligibleAscends(listing[..n], b);
      EligibleMembers(listing[..n], b);
      var rest := Eligible(listing[..n], b);
      forall i | 0 <= i < |rest|
        ensures Less(ByRating, rest[i], listing[n])
      {
        assert rest[i] in Elements(rest);
        assert rest[i] in Elements(listing[..n]);
      }
    }
  }

  /** Stopping after 200 entries of the sorted index yields the 200 least in range. */
  lemma CapIsLeast(listing: seq<Rec>, q: Queue, b: Bounds)
    requires UniqueIds(q) && Ascends(ByRating, listing) && Elements(listing) == q
    ensures |Eligible(listing, b)| == |InRange(q, b)|
    ensures Elements(Eligible(listing, b)[..Min(MAX_CANDIDATES, |Eligible(listing, b)|)]) == Capped(q, b)
  {
    EligibleMembers(listing, b);
    EligibleAscends(listing, b);
    AscendingLists(ByRating, InRange(q, b));
    AscendingUnique(ByRating, InRange(q, b), Eligible(listing, b));
  }
}
