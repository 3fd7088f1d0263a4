/** Binomial coefficients, the way the tables compute them, and the combinatorial number system:
    numbering the k-element subsets of {0, ..., n - 1} by sums of binomials. */
module Binomials {

  function Choose(n: nat, k: nat): (r: nat) {
    if k == 0 then 1 else if n == 0 then 0 else Choose(n - 1, k - 1) + Choose(n - 1, k)
  }

  /** n * (n - 1) * ... * (n - k + 1) */
  function Falling(n: int, k: nat): int {
    if k == 0 then 1 else Falling(n, k - 1) * (n - (k - 1))
  }

  function Factorial(k: nat): (r: nat)
    ensures r >= 1
  {
    if k == 0 then 1 else Factorial(k - 1) * k
  }

  lemma {:induction false} ChooseNothingBeyond(n: nat, k: nat)
    requires n < k
    ensures Choose(n, k) == 0
  {
    if n != 0 {
      ChooseNothingBeyond(n - 1, k - 1);
      ChooseNothingBeyond(n - 1, k);
    }
  }

  lemma {:induction false} Absorption(n: nat, k: nat)
    ensures Choose(n, k + 1) * (k + 1) == Choose(n, k) * (n - k)
    decreases n
  {
    if n == 0 {
    } else if k == 0 {
      Absorption(n - 1, 0);
    } else {
      Absorption(n - 1, k);
      Absorption(n - 1, k - 1);
      AbsorptionStep(Choose(n - 1, k - 1), Choose(n - 1, k), Choose(n - 1, k + 1), n, k);
    }
  }

  lemma AbsorptionStep(a: int, b: int, c: int, n: int, k: int)
    requires c * (k + 1) == b * (n - 1 - k)
    requires b * k == a * (n - k)
    ensures (b + c) * (k + 1) == (a + b) * (n - k)
  {
    assert (b + c) * (k + 1) == b * k + b + b * (n - 1 - k);
    assert b * (n - 1 - k) == b * (n - k) - b;
  }

  /** The divisions by k! in the tables are exact. */
  lemma {:induction false} FallingIsChoose(n: nat, k: nat)
    ensures Falling(n, k) == Choose(n, k) * Factorial(k)
  {
    if k != 0 {
      FallingIsChoose(n, k - 1);
      Absorption(n, k - 1);
      Regroup(Choose(n, k - 1), Factorial(k - 1), n - (k - 1), Choose(n, k), k);
    }
  }

  lemma Regroup(c: int, f: int, m: int, d: int, k: int)
    requires d * k == c * m
    ensures (c * f) * m == d * (f * k)
  {
    assert (c * f) * m == (c * m) * f;
    assert d * (f * k) == (d * k) * f;
  }

  lemma ExactQuotient(q: int, d: nat)
    requires d >= 1
    ensures (q * d) / d == q
  {
    var r := (q * d) / d;
    assert (q * d) % d == 0 by { MultipleHasNoRemainder(q, d); }
    assert (q - r) * d == 0;
  }

  lemma MultipleHasNoRemainder(q: int, d: nat)
    requires d >= 1
    ensures (q * d) % d == 0
  {
    var r, m := (q * d) / d, (q * d) % d;
    assert r * d + m == q * d;
    assert (q - r) * d == m;
    AtLeastOneStep(q - r, d);
  }

  lemma AtLeastOneStep(x: int, d: nat)
    ensures x >= 1 ==> x * d >= d
    ensures x <= -1 ==> x * d <= -(d as int)
  {
  }

  /** Binomial[k][n], as the initialisation loop fills it. */
  method BinomialEntry(n: nat, k: nat) returns (r: nat)
    ensures r == Choose(n, k)
  {
    var f: int, l: int := 1, 1;
    for i := 0 to k
      invariant f == Falling(n, i) && l == Factorial(i)
    {
      f := f * (n - i);
      l := l * (i + 1);
    }
    FallingIsChoose(n, k);
    ExactQuotient(Choose(n, k), l);
    r := f / l;
  }

  /** The number of placements of k like pieces on n squares. */
  method Subfactor(k: nat, n: nat) returns (r: nat)
    requires 1 <= k <= n
    ensures r == Choose(n, k)
  {
    var f: int, l: int := n, 1;
    assert Falling(n, 1) == n && Factorial(1) == 1;
    for i := 1 to k
      invariant f == Falling(n, i) && l == Factorial(i)
    {
      f := f * (n - i);
      l := l * (i + 1);
    }
    FallingIsChoose(n, k);
    ExactQuotient(Choose(n, k), l);
    r := f / l;
  }

  // ---------- the combinatorial number system ----------

  ghost predicate Increasing(v: seq<nat>) {
    |v| <= 1 || (v[|v| - 2] < v[|v| - 1] && Increasing(v[..|v| - 1]))
  }

  lemma {:induction false} IncreasingFromPairs(v: seq<nat>)
    requires forall i, j | 0 <= i < j < |v| :: v[i] < v[j]
    ensures Increasing(v)
  {
    if |v| > 1 { IncreasingFromPairs(v[..|v| - 1]); }
  }

  /** C(v[0], 1) + C(v[1], 2) + ... */
  ghost function SubsetNumber(v: seq<nat>): nat {
    if v == [] then 0 else SubsetNumber(v[..|v| - 1]) + Choose(v[|v| - 1], |v|)
  }

  lemma {:induction false} ChooseMonotone(m: nat, n: nat, k: nat)
    requires m <= n
    ensures Choose(m, k) <= Choose(n, k)
    decreases n
  {
    if m < n && k != 0 {
      ChooseMonotone(m, n - 1, k);
    }
  }

  /** A subset's number is below the number of subsets. */
  lemma {:induction false} SubsetNumberBound(v: seq<nat>, n: nat)
    requires Increasing(v) && (v == [] || v[|v| - 1] < n)
    ensures SubsetNumber(v) < Choose(n, |v|)
    decreases |v|
  {
    if v != [] {
      var last := v[|v| - 1];
      SubsetNumberBound(v[..|v| - 1], last);
      ChooseMonotone(last + 1, n, |v|);
    }
  }

  /** Different subsets have different numbers. */
  lemma {:induction false} SubsetNumberInjective(v: seq<nat>, w: seq<nat>)
    requires Increasing(v) && Increasing(w) && |v| == |w|
    requires SubsetNumber(v) == SubsetNumber(w)
    ensures v == w
    decreases |v|
  {
    if v != [] {
      var a, b := v[|v| - 1], w[|w| - 1];
      if a < b { LargerTop(v, w); }
      if b < a { LargerTop(w, v); }
      SubsetNumberInjective(v[..|v| - 1], w[..|w| - 1]);
      assert v == v[..|v| - 1] + [a] && w == w[..|w| - 1] + [b];
    }
  }

  lemma LargerTop(v: seq<nat>, w: seq<nat>)
    requires Increasing(v) && |v| == |w| > 0 && v[|v| - 1] < w[|w| - 1]
    ensures SubsetNumber(v) < SubsetNumber(w)
  {
    SubsetNumberBound(v, w[|w| - 1]);
  }
}
