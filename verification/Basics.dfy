/** Small vocabulary shared by every module: options, results, identifiers and the
    machine integer limits that the engine's arithmetic has to respect. */
module Basics {

  datatype Option<+T> = None | Some(value: T)

  datatype Result<+T, +E> = Ok(value: T) | Err(error: E)

  const U32_MAX: nat := 0xFFFF_FFFF

  const UUID_MAX: nat := 0xFFFF_FFFF_FFFF_FFFF_FFFF_FFFF_FFFF_FFFF

  /** A UUID compares byte by byte, most significant byte first, so it is ordered as a
      128-bit number: the nil UUID is 0 and the all-0xFF sentinel is `UUID_MAX`. */
  type Uuid = u: int | 0 <= u <= UUID_MAX

  const MAX_SKILL_RATING: nat := 3000

  function Min(a: int, b: int): int {
    if a <= b then a else b
  }

  function AbsDiff(a: int, b: int): nat {
    if a <= b then b - a else a - b
  }

  function SaturatingSub(a: nat, b: nat): nat {
    if a >= b then a - b else 0
  }

  function SaturatingAddU32(a: nat, b: nat): nat {
    Min(a + b, U32_MAX)
  }

  function Sum(s: seq<int>): int {
    if s == [] then 0 else s[0] + Sum(s[1..])
  }

  /** The newest `limit` entries of a list that grows at its end. */
  function Newest<T>(h: seq<T>, limit: nat): seq<T> {
    if |h| > limit then h[|h| - limit..] else h
  }

  /** Integer division with 0 for a zero divisor. */
  function CheckedDiv(a: nat, b: nat): nat {
    if b == 0 then 0 else a / b
  }

  ghost predicate Distinct<T>(s: seq<T>) {
    forall i, j :: 0 <= i < j < |s| ==> s[i] != s[j]
  }

  lemma {:induction false} SumConcat(a: seq<int>, b: seq<int>)
    ensures Sum(a + b) == Sum(a) + Sum(b)
  {
    if a == [] {
      assert a + b == b;
    } else {
      assert (a + b)[1..] == a[1..] + b;
      SumConcat(a[1..], b);
    }
  }

  lemma {:induction false} NonNegativeSum(s: seq<int>)
    requires forall i :: 0 <= i < |s| ==> s[i] >= 0
    ensures Sum(s) >= 0
  {
    if s != [] {
      NonNegativeSum(s[1..]);
    }
  }

  /** Replacing one entry of a sequence changes its sum by the difference. */
  lemma {:induction false} SumUpdate(s: seq<int>, i: nat, v: int)
    requires i < |s|
    ensures Sum(s[i := v]) == Sum(s) - s[i] + v
  {
    if i > 0 {
      assert s[i := v][1..] == s[1..][i - 1 := v];
      SumUpdate(s[1..], i - 1, v);
    } else {
      assert s[i := v][1..] == s[1..];
    }
  }

  lemma {:induction false} SumBounds(s: seq<int>, lo: int, hi: int)
    requires forall i :: 0 <= i < |s| ==> lo <= s[i] <= hi
    ensures |s| * lo <= Sum(s) <= |s| * hi
  {
    if s != [] {
      SumBounds(s[1..], lo, hi);
      assert |s| * lo == lo + |s[1..]| * lo;
      assert |s| * hi == hi + |s[1..]| * hi;
    }
  }

  lemma MulMonotone(n: nat, x: nat, y: nat)
    requires x <= y
    ensures n * x <= n * y
  {
  }

  lemma DivMonotone(a: nat, b: nat, n: nat)
    requires a <= b
    ensures CheckedDiv(a, n) <= CheckedDiv(b, n)
  {
    if n != 0 {
      var x, y := a / n, b / n;
      assert n * x <= a && b < n * y + n;
      if y + 1 <= x {
        MulMonotone(n, y + 1, x);
      }
    }
  }

  lemma DivBound(k: nat, n: nat)
    ensures CheckedDiv(k * n, n) <= k
  {
    if n != 0 {
      var x := k * n / n;
      assert n * x <= k * n;
      if k + 1 <= x {
        MulMonotone(n, k + 1, x);
      }
    }
  }

  lemma {:induction false} DistinctCardinality<T>(s: seq<T>)
    requires Distinct(s)
    ensures |set x | x in s| == |s|
  {
    if s != [] {
      var n := |s| - 1;
      var front := s[..n];
      DistinctCardinality(front);
      assert s == front + [s[n]];
      assert s[n] !in front;
      assert (set x | x in s) == (set x | x in front) + {s[n]};
    } else {
      assert (set x | x in s) == {};
    }
  }

  /** Dropping equal elements from two permutations leaves permutations. */
  lemma RemoveOne<T>(s: seq<T>, t: seq<T>, j: nat)
    requires s != [] && j < |t| && t[j] == s[0] && multiset(s) == multiset(t)
    ensures multiset(s[1..]) == multiset(t[..j] + t[j + 1..])
  {
    assert s == [s[0]] + s[1..];
    assert t == t[..j] + ([t[j]] + t[j + 1..]);
    assert multiset(s) == multiset{s[0]} + multiset(s[1..]);
    assert multiset(t) == multiset(t[..j]) + (multiset{t[j]} + multiset(t[j + 1..]));
    assert multiset(t[..j] + t[j + 1..]) == multiset(t[..j]) + multiset(t[j + 1..]);
    assert multiset(s[1..]) == multiset(s) - multiset{s[0]};
    assert multiset(t[..j]) + multiset(t[j + 1..]) == multiset(t) - multiset{t[j]};
  }

  lemma InsertOne<T>(s: seq<T>, x: T, k: nat)
    requires k <= |s|
    ensures multiset(s[..k] + [x] + s[k..]) == multiset(s) + multiset{x}
  {
    assert s == s[..k] + s[k..];
  }
}
