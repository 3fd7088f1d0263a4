/** Numbers written with a different base at every position, and sums in any order. */
module MixedRadix {

  ghost function Product(sizes: seq<nat>): nat {
    if sizes == [] then 1 else Product(sizes[..|sizes| - 1]) * sizes[|sizes| - 1]
  }

  /** digits[0] + digits[1] * sizes[0] + digits[2] * sizes[0] * sizes[1] + ... */
  ghost function Value(digits: seq<nat>, sizes: seq<nat>): nat
    requires |digits| == |sizes|
  {
    if digits == [] then 0
    else var n := |digits| - 1; Value(digits[..n], sizes[..n]) + digits[n] * Product(sizes[..n])
  }

  ghost predicate Digits(digits: seq<nat>, sizes: seq<nat>) {
    && |digits| == |sizes|
    && forall i | 0 <= i < |digits| :: digits[i] < sizes[i]
  }

  lemma {:induction false} ValueBound(digits: seq<nat>, sizes: seq<nat>)
    requires Digits(digits, sizes)
    ensures Value(digits, sizes) < Product(sizes)
    decreases |digits|
  {
    if digits != [] {
      var n := |digits| - 1;
      ValueBound(digits[..n], sizes[..n]);
      TopDigit(Value(digits[..n], sizes[..n]), digits[n], Product(sizes[..n]), sizes[n]);
    }
  }

  lemma TopDigit(low: nat, digit: nat, p: nat, size: nat)
    requires low < p && digit < size
    ensures low + digit * p < p * size
  {
    assert (digit + 1) * p <= size * p;
    assert (digit + 1) * p == digit * p + p;
  }

  lemma SplitUnique(a: nat, x: nat, b: nat, y: nat, p: nat)
    requires a < p && b < p && a + x * p == b + y * p
    ensures x == y && a == b
  {
    if x < y { TopDigit(a, x, p, y); }
    if y < x { TopDigit(b, y, p, x); }
  }

  lemma {:induction false} ValueInjective(d: seq<nat>, e: seq<nat>, sizes: seq<nat>)
    requires Digits(d, sizes) && Digits(e, sizes) && Value(d, sizes) == Value(e, sizes)
    ensures d == e
    decreases |d|
  {
    if d != [] {
      var n := |d| - 1;
      ValueBound(d[..n], sizes[..n]);
      ValueBound(e[..n], sizes[..n]);
      SplitUnique(Value(d[..n], sizes[..n]), d[n], Value(e[..n], sizes[..n]), e[n], Product(sizes[..n]));
      ValueInjective(d[..n], e[..n], sizes[..n]);
      assert d == d[..n] + [d[n]] && e == e[..n] + [e[n]];
    }
  }

  // ---------- sums over positions ----------

  /** weight[keys[0]] + weight[keys[1]] + ... */
  ghost function SumAt(keys: seq<nat>, weight: seq<nat>): nat
    requires forall i | 0 <= i < |keys| :: keys[i] < |weight|
  {
    if keys == [] then 0 else SumAt(keys[..|keys| - 1], weight) + weight[keys[|keys| - 1]]
  }

  lemma {:induction false} SumWithout(keys: seq<nat>, weight: seq<nat>, i: nat)
    requires i < |keys| && forall j | 0 <= j < |keys| :: keys[j] < |weight|
    ensures SumAt(keys, weight) == SumAt(keys[..i] + keys[i + 1..], weight) + weight[keys[i]]
    decreases |keys|
  {
    var n := |keys| - 1;
    var rest := keys[..i] + keys[i + 1..];
    if i < n {
      SumWithout(keys[..n], weight, i);
      assert rest[..n - 1] == keys[..n][..i] + keys[..n][i + 1..];
    } else {
      assert rest == keys[..n];
    }
  }

  /** A list cut at one element loses exactly that element. */
  lemma RemoveAt(s: seq<nat>, i: nat)
    requires i < |s|
    ensures multiset(s[..i] + s[i + 1..]) == multiset(s) - multiset{s[i]}
  {
    assert s == s[..i] + [s[i]] + s[i + 1..];
  }

  /** A sum does not depend on the order of its terms. */
  lemma {:induction false} SumPermuted(a: seq<nat>, b: seq<nat>, weight: seq<nat>)
    requires multiset(a) == multiset(b)
    requires (forall i | 0 <= i < |a| :: a[i] < |weight|) && forall i | 0 <= i < |b| :: b[i] < |weight|
    ensures SumAt(a, weight) == SumAt(b, weight)
    decreases |a|
  {
    if a == [] {
      assert |b| == |multiset(b)| == 0;
    } else {
      var n := |a| - 1;
      assert a[n] in multiset(b);
      var i: nat :| i < |b| && b[i] == a[n];
      RemoveAt(a, n);
      RemoveAt(b, i);
      assert a[..n] + a[n + 1..] == a[..n];
      SumWithout(b, weight, i);
      SumPermuted(a[..n], b[..i] + b[i + 1..], weight);
    }
  }

  // ---------- digits at positions, in permuted order ----------

  /** v[keys[0]], v[keys[1]], ... */
  ghost function Pick(v: seq<nat>, keys: seq<nat>): (w: seq<nat>)
    requires forall i | 0 <= i < |keys| :: keys[i] < |v|
    ensures |w| == |keys| && forall i | 0 <= i < |keys| :: w[i] == v[keys[i]]
  {
    seq(|keys|, i requires 0 <= i < |keys| => v[keys[i]])
  }

  ghost function Products(digits: seq<nat>, factor: seq<nat>): (w: seq<nat>)
    requires |digits| == |factor|
    ensures |w| == |digits| && forall i | 0 <= i < |w| :: w[i] == digits[i] * factor[i]
  {
    seq(|digits|, i requires 0 <= i < |digits| => digits[i] * factor[i])
  }

  /** digits[k] * factor[k], summed over the positions k in keys. */
  ghost function Weighted(keys: seq<nat>, digits: seq<nat>, factor: seq<nat>): nat
    requires |digits| == |factor| && forall i | 0 <= i < |keys| :: keys[i] < |digits|
  {
    SumAt(keys, Products(digits, factor))
  }

  /** slots is keys from the least to the most significant digit, and the factor at each position is
      the product of the sizes before it. */
  ghost predicate Layout(keys: seq<nat>, slots: seq<nat>, sizes: seq<nat>, factor: seq<nat>) {
    && |sizes| == |factor| && multiset(slots) == multiset(keys)
    && (forall i | 0 <= i < |keys| :: keys[i] < |sizes|)
    && (forall i | 0 <= i < |slots| :: slots[i] < |sizes|)
    && forall i | 0 <= i < |slots| :: factor[slots[i]] == Product(Pick(sizes, slots)[..i])
  }

  lemma {:induction false} SumIsValue(slots: seq<nat>, terms: seq<nat>, factor: seq<nat>, d: seq<nat>,
                                      sizes: seq<nat>, n: nat)
    requires |terms| == |factor| && |slots| == |d| == |sizes| && n <= |slots|
    requires forall i | 0 <= i < |slots| ::
               slots[i] < |terms| && terms[slots[i]] == d[i] * factor[slots[i]]
                 && factor[slots[i]] == Product(sizes[..i])
    ensures SumAt(slots[..n], terms) == Value(d[..n], sizes[..n])
  {
    if n > 0 {
      SumIsValue(slots, terms, factor, d, sizes, n - 1);
      assert slots[..n][..n - 1] == slots[..n - 1] && d[..n][..n - 1] == d[..n - 1];
      assert sizes[..n][..n - 1] == sizes[..n - 1];
    }
  }

  /** In such a layout the weighted sum is the mixed-radix value of the digits in slot order. */
  lemma WeightedIsValue(keys: seq<nat>, slots: seq<nat>, sizes: seq<nat>, factor: seq<nat>, digits: seq<nat>)
    requires Layout(keys, slots, sizes, factor) && |digits| == |sizes|
    ensures Weighted(keys, digits, factor) == Value(Pick(digits, slots), Pick(sizes, slots))
  {
    var d, z := Pick(digits, slots), Pick(sizes, slots);
    SumPermuted(slots, keys, Products(digits, factor));
    SumIsValue(slots, Products(digits, factor), factor, d, z, |slots|);
    assert slots[..|slots|] == slots && d[..|slots|] == d && z[..|slots|] == z;
  }

  ghost predicate DigitsFit(keys: seq<nat>, digits: seq<nat>, sizes: seq<nat>)
    requires |digits| == |sizes| && forall i | 0 <= i < |keys| :: keys[i] < |sizes|
  {
    forall i | 0 <= i < |keys| :: digits[keys[i]] < sizes[keys[i]]
  }

  lemma FitInSlots(keys: seq<nat>, slots: seq<nat>, sizes: seq<nat>, factor: seq<nat>, digits: seq<nat>)
    requires Layout(keys, slots, sizes, factor) && |digits| == |sizes| && DigitsFit(keys, digits, sizes)
    ensures Digits(Pick(digits, slots), Pick(sizes, slots))
  {
    forall i | 0 <= i < |slots|
      ensures digits[slots[i]] < sizes[slots[i]]
    {
      assert slots[i] in multiset(slots);
      assert slots[i] in keys;
    }
  }

  lemma {:induction false} SumSame(keys: seq<nat>, v: seq<nat>, w: seq<nat>)
    requires |v| == |w| && forall i | 0 <= i < |keys| :: keys[i] < |v| && v[keys[i]] == w[keys[i]]
    ensures SumAt(keys, v) == SumAt(keys, w)
  {
    if keys != [] { SumSame(keys[..|keys| - 1], v, w); }
  }

  /** Only the digits at the keys matter. */
  lemma WeightedSame(keys: seq<nat>, d: seq<nat>, e: seq<nat>, factor: seq<nat>)
    requires |d| == |e| == |factor| && forall i | 0 <= i < |keys| :: keys[i] < |d| && d[keys[i]] == e[keys[i]]
    ensures Weighted(keys, d, factor) == Weighted(keys, e, factor)
  {
    SumSame(keys, Products(d, factor), Products(e, factor));
  }

  /** Adding one more digit. */
  lemma WeightedSnoc(keys: seq<nat>, k: nat, d: seq<nat>, digit: nat, factor: seq<nat>)
    requires |d| == |factor| && k < |d| && forall i | 0 <= i < |keys| :: keys[i] < |d| && keys[i] != k
    ensures Weighted(keys + [k], d[k := digit], factor) == Weighted(keys, d, factor) + digit * factor[k]
  {
    assert (keys + [k])[..|keys|] == keys;
    WeightedSame(keys, d, d[k := digit], factor);
  }

  lemma WeightedBound(keys: seq<nat>, slots: seq<nat>, sizes: seq<nat>, factor: seq<nat>, digits: seq<nat>)
    requires Layout(keys, slots, sizes, factor) && |digits| == |sizes| && DigitsFit(keys, digits, sizes)
    ensures Weighted(keys, digits, factor) < Product(Pick(sizes, slots))
  {
    WeightedIsValue(keys, slots, sizes, factor, digits);
    FitInSlots(keys, slots, sizes, factor, digits);
    ValueBound(Pick(digits, slots), Pick(sizes, slots));
  }

  lemma WeightedInjective(keys: seq<nat>, slots: seq<nat>, sizes: seq<nat>, factor: seq<nat>, d: seq<nat>, e: seq<nat>)
    requires Layout(keys, slots, sizes, factor) && |d| == |e| == |sizes|
    requires DigitsFit(keys, d, sizes) && DigitsFit(keys, e, sizes)
    requires Weighted(keys, d, factor) == Weighted(keys, e, factor)
    ensures forall i | 0 <= i < |keys| :: d[keys[i]] == e[keys[i]]
  {
    WeightedIsValue(keys, slots, sizes, factor, d);
    WeightedIsValue(keys, slots, sizes, factor, e);
    FitInSlots(keys, slots, sizes, factor, d);
    FitInSlots(keys, slots, sizes, factor, e);
    ValueInjective(Pick(d, slots), Pick(e, slots), Pick(sizes, slots));
    forall i | 0 <= i < |keys|
      ensures d[keys[i]] == e[keys[i]]
    {
      assert keys[i] in multiset(keys);
      var j :| 0 <= j < |slots| && slots[j] == keys[i];
      assert Pick(d, slots)[j] == Pick(e, slots)[j];
    }
  }
}
