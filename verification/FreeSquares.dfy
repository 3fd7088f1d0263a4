/** Which squares are still free, and numbering the free squares. */
module FreeSquares {

  /** How many of the squares in used are smaller than s. */
  function CountBelow(used: seq<int>, s: int): nat {
    if used == [] then 0
    else CountBelow(used[..|used| - 1], s) + (if s > used[|used| - 1] then 1 else 0)
  }

  /** How often x occurs among the men from lo to hi - 1. */
  ghost function Count(p: seq<int>, lo: nat, hi: nat, x: int): nat
    requires hi <= |p|
    decreases hi
  {
    if hi <= lo then 0 else Count(p, lo, hi - 1, x) + (if p[hi - 1] == x then 1 else 0)
  }

  lemma {:induction false} CountUpdated(p: seq<int>, lo: nat, hi: nat, x: int, i: nat, v: int)
    requires lo <= i < hi <= |p|
    ensures Count(p[i := v], lo, hi, x) + (if p[i] == x then 1 else 0)
            == Count(p, lo, hi, x) + (if v == x then 1 else 0)
    decreases hi
  {
    if i < hi - 1 {
      CountUpdated(p, lo, hi - 1, x, i, v);
    } else {
      CountSame(p, p[i := v], lo, hi - 1, x);
    }
  }

  lemma {:induction false} CountSame(p: seq<int>, q: seq<int>, lo: nat, hi: nat, x: int)
    requires hi <= |p| && hi <= |q| && forall i | lo <= i < hi :: p[i] == q[i]
    ensures Count(p, lo, hi, x) == Count(q, lo, hi, x)
    decreases hi
  {
    if lo < hi { CountSame(p, q, lo, hi - 1, x); }
  }

  lemma {:induction false} CountSplit(p: seq<int>, lo: nat, mid: nat, hi: nat, x: int)
    requires lo <= mid <= hi <= |p|
    ensures Count(p, lo, hi, x) == Count(p, lo, mid, x) + Count(p, mid, hi, x)
    decreases hi
  {
    if mid < hi { CountSplit(p, lo, mid, hi - 1, x); }
  }

  /** An occurrence counts. */
  lemma {:induction false} Counted(p: seq<int>, lo: nat, hi: nat, i: nat)
    requires lo <= i < hi <= |p|
    ensures Count(p, lo, hi, p[i]) >= 1
    decreases hi
  {
    if i < hi - 1 { Counted(p, lo, hi - 1, i); }
  }

  lemma {:induction false} FindCounted(p: seq<int>, lo: nat, hi: nat, x: int) returns (i: nat)
    requires hi <= |p| && Count(p, lo, hi, x) >= 1
    ensures lo <= i < hi && p[i] == x
    decreases hi
  {
    if p[hi - 1] == x { i := hi - 1; } else { i := FindCounted(p, lo, hi - 1, x); }
  }

  /** No square occurs twice. */
  ghost predicate Distinct(p: seq<int>) {
    forall x :: Count(p, 0, |p|, x) <= 1
  }

  lemma DistinctAt(p: seq<int>, i: nat, j: nat)
    requires Distinct(p) && i < j < |p|
    ensures p[i] != p[j]
  {
    Counted(p, 0, j, i);
    Counted(p, j, |p|, j);
    CountSplit(p, 0, j, |p|, p[i]);
  }

  lemma DistinctPrefix(p: seq<int>, n: nat)
    requires Distinct(p) && n <= |p|
    ensures Distinct(p[..n])
  {
    forall x
      ensures Count(p[..n], 0, n, x) <= 1
    {
      CountSame(p, p[..n], 0, n, x);
      CountSplit(p, 0, n, |p|, x);
    }
  }

  lemma NotInPrefix(p: seq<int>, n: nat, i: nat)
    requires Distinct(p) && n <= i < |p|
    ensures p[i] !in p[..n]
  {
    if p[i] in p[..n] {
      var j :| 0 <= j < n && p[..n][j] == p[i];
      DistinctAt(p, j, i);
    }
  }

  lemma {:induction false} CountsAtMostOne(p: seq<int>, n: nat, x: int)
    requires n <= |p| && forall i, j | 0 <= i < j < |p| :: p[i] != p[j]
    ensures Count(p, 0, n, x) <= 1
  {
    if n > 0 {
      CountsAtMostOne(p, n - 1, x);
      if p[n - 1] == x && Count(p, 0, n - 1, x) >= 1 {
        var i := FindCounted(p, 0, n - 1, x);
      }
    }
  }

  lemma DistinctFromPairs(p: seq<int>)
    requires forall i, j | 0 <= i < j < |p| :: p[i] != p[j]
    ensures Distinct(p)
  {
    forall x
      ensures Count(p, 0, |p|, x) <= 1
    {
      CountsAtMostOne(p, |p|, x);
    }
  }

  /** Going up one square passes exactly the used square there, if any. */
  lemma {:induction false} CountBelowStep(used: seq<int>, s: int)
    requires Distinct(used)
    ensures CountBelow(used, s + 1) == CountBelow(used, s) + (if s in used then 1 else 0)
    decreases |used|
  {
    if used != [] {
      var n := |used| - 1;
      DistinctPrefix(used, n);
      NotInPrefix(used, n, n);
      CountBelowStep(used[..n], s);
      assert used == used[..n] + [used[n]];
    }
  }

  /** The number of a free square among the free squares grows from one to the next. */
  lemma {:induction false} FreeRankGrows(used: seq<int>, s: int, t: int)
    requires Distinct(used) && s <= t
    ensures s - CountBelow(used, s) <= t - CountBelow(used, t)
    ensures s < t && s !in used ==> s - CountBelow(used, s) < t - CountBelow(used, t)
    decreases t - s
  {
    if s < t {
      CountBelowStep(used, t - 1);
      FreeRankGrows(used, s, t - 1);
    }
  }

  lemma {:induction false} CountBelowAll(used: seq<int>, s: int)
    requires forall i | 0 <= i < |used| :: used[i] < s
    ensures CountBelow(used, s) == |used|
    decreases |used|
  {
    if used != [] { CountBelowAll(used[..|used| - 1], s); }
  }

  lemma {:induction false} CountBelowNone(used: seq<int>, s: int)
    requires forall i | 0 <= i < |used| :: used[i] >= s
    ensures CountBelow(used, s) == 0
    decreases |used|
  {
    if used != [] { CountBelowNone(used[..|used| - 1], s); }
  }

  /** Free squares from lo to hi - 1 are numbered from lo up, without gaps for the used ones. */
  lemma FreeRankBounds(used: seq<int>, s: int, lo: int, hi: int)
    requires Distinct(used) && (forall i | 0 <= i < |used| :: lo <= used[i] < hi)
    requires lo <= s < hi && s !in used
    ensures lo <= s - CountBelow(used, s) < hi - |used|
  {
    CountBelowNone(used, lo);
    CountBelowAll(used, hi);
    FreeRankGrows(used, lo, s);
    FreeRankGrows(used, s, hi);
  }
}
