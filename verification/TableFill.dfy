/** The tables have no gaps: every index below the table size belongs to a placement. */
module TableFill {
  import opened Binomials
  import opened PlacementTables
  import opened LeadingMen
  import LeadingOrder
  import opened MixedRadix
  import opened FreeSquares
  import opened TableIndex

  // ---------- digits ----------

  /** Every value below the product has its digits. */
  lemma {:induction false} EveryValueReached(sizes: seq<nat>, x: nat) returns (digits: seq<nat>)
    requires x < Product(sizes)
    ensures Digits(digits, sizes) && Value(digits, sizes) == x
    decreases |sizes|
  {
    if sizes == [] {
      digits := [];
    } else {
      var n := |sizes| - 1;
      var p := Product(sizes[..n]);
      QuotientFits(x, p, sizes[n]);
      var low := EveryValueReached(sizes[..n], x % p);
      digits := low + [x / p];
      assert digits[..n] == low;
    }
  }

  lemma QuotientFits(x: nat, p: nat, size: nat)
    requires x < p * size
    ensures 0 < p && 0 <= x / p < size && x == x % p + x / p * p
  {
    assert p != 0;
    TimesGrows(size, x / p, p);
  }

  lemma TimesGrows(a: int, b: int, p: nat)
    ensures a <= b ==> p * a <= b * p
  {
    if a <= b { assert (b - a) * p >= 0; }
  }

  /** Where x stands in a list. */
  function Place(keys: seq<nat>, x: nat): (i: nat)
    ensures i <= |keys|
    ensures i < |keys| ==> keys[i] == x
    ensures i == |keys| ==> x !in keys
  {
    if keys == [] then 0
    else if keys[0] == x then 0
    else 1 + Place(keys[1..], x)
  }

  /** The digits in the order of the slots, put back to their positions. */
  lemma {:induction false} PutBack(slots: seq<nat>, d: seq<nat>, n: nat) returns (v: seq<nat>)
    requires |slots| == |d| && (forall i | 0 <= i < |slots| :: slots[i] < n)
    requires forall i, j | 0 <= i < j < |slots| :: slots[i] != slots[j]
    ensures |v| == n && Pick(v, slots) == d
  {
    v := seq(n, x requires 0 <= x < n => if Place(slots, x) < |slots| then d[Place(slots, x)] else 0);
    forall i | 0 <= i < |slots|
      ensures v[slots[i]] == d[i]
    {
      assert Place(slots, slots[i]) == i;
    }
  }

  lemma {:induction false} GroupStartsGrow(norm: seq<nat>, k: nat, i: nat, j: nat)
    requires Chain(norm, k) && i < j < |GroupStarts(norm, k)|
    ensures GroupStarts(norm, k)[i] < GroupStarts(norm, k)[j]
    decreases |norm| - k
  {
    var rest := GroupStarts(norm, k + norm[k]);
    if i > 0 { GroupStartsGrow(norm, k + norm[k], i - 1, j - 1); }
  }

  lemma {:induction false} StartsDiffer(e: Entry, enc: Scheme, norm: seq<nat>, i: nat, j: nat)
    requires Shape(e, enc, norm) && i < j < |Starts(e, enc, norm)|
    ensures Starts(e, enc, norm)[i] != Starts(e, enc, norm)[j]
  {
    if i > 0 { GroupStartsGrow(norm, Lead(e, enc), i - 1, j - 1); }
  }

  /** A list with the elements of one without repetitions has none either. */
  lemma {:induction false} NoRepetition(s: seq<nat>, i: nat, j: nat)
    requires i < j < |s| && forall x :: multiset(s)[x] <= 1
    ensures s[i] != s[j]
  {
    assert s == s[..j] + [s[j]] + s[j + 1..];
    assert multiset(s) == multiset(s[..j]) + multiset{s[j]} + multiset(s[j + 1..]);
    assert s[..j][i] == s[i] && s[i] in multiset(s[..j]);
    assert multiset(s)[s[j]] <= 1;
  }

  lemma {:induction false} OnceEach(s: seq<nat>, x: nat)
    requires forall i, j | 0 <= i < j < |s| :: s[i] != s[j]
    ensures multiset(s)[x] <= 1
    decreases |s|
  {
    if s != [] {
      var n := |s| - 1;
      assert s == s[..n] + [s[n]];
      OnceEach(s[..n], x);
      if x == s[n] { assert x !in s[..n]; }
    }
  }

  lemma {:induction false} SlotsDiffer(e: Entry, enc: Scheme, norm: seq<nat>, slots: seq<nat>)
    requires Shape(e, enc, norm) && multiset(slots) == multiset(Starts(e, enc, norm))
    ensures forall i, j | 0 <= i < j < |slots| :: slots[i] != slots[j]
  {
    var all := Starts(e, enc, norm);
    forall i, j | 0 <= i < j < |all|
      ensures all[i] != all[j]
    {
      StartsDiffer(e, enc, norm, i, j);
    }
    forall x
      ensures multiset(slots)[x] <= 1
    {
      OnceEach(all, x);
    }
    forall i, j | 0 <= i < j < |slots|
      ensures slots[i] != slots[j]
    {
      NoRepetition(slots, i, j);
    }
  }

  // ---------- one group ----------

  /** The free square with a given number. */
  lemma {:induction false} FreeSquareOf(used: seq<int>, s: int, lo: int, hi: int, y: nat) returns (t: int)
    requires Distinct(used) && (forall i | 0 <= i < |used| :: lo <= used[i] < hi)
    requires lo <= s <= hi && s - CountBelow(used, s) - lo <= y < hi - lo - |used|
    ensures s <= t < hi && t !in used && t - CountBelow(used, t) - lo == y
    decreases hi - s
  {
    CountBelowAll(used, hi);
    CountBelowStep(used, s);
    if s + 1 - CountBelow(used, s + 1) - lo <= y {
      t := FreeSquareOf(used, s + 1, lo, hi, y);
    } else {
      t := s;
    }
  }

  /** The squares with increasing numbers among the free ones. */
  ghost predicate Seated(used: seq<int>, w: seq<int>, v: seq<nat>, lo: int, hi: int) {
    && |w| == |v|
    && (forall i | 0 <= i < |w| ::
          lo <= w[i] < hi && w[i] !in used && w[i] - CountBelow(used, w[i]) - lo == v[i])
    && forall i, j | 0 <= i < j < |w| :: w[i] < w[j]
  }

  lemma {:induction false} Seat(used: seq<int>, v: seq<nat>, lo: int, hi: int) returns (w: seq<int>)
    requires Distinct(used) && (forall i | 0 <= i < |used| :: lo <= used[i] < hi) && lo <= hi
    requires Increasing(v) && (v == [] || v[|v| - 1] < hi - lo - |used|)
    ensures Seated(used, w, v, lo, hi)
    decreases |v|
  {
    if v == [] {
      w := [];
    } else {
      var n := |v| - 1;
      var before := Seat(used, v[..n], lo, hi);
      CountBelowNone(used, lo);
      var s := FreeSquareOf(used, lo, lo, hi, v[n]);
      forall i | 0 <= i < n
        ensures before[i] < s
      {
        assert before[i] <= before[n - 1];
        assert v[n - 1] < v[n];
        if s <= before[n - 1] { FreeRankGrows(used, s, before[n - 1]); }
      }
      w := before + [s];
    }
  }

  lemma {:induction false} SeatedNumbers(used: seq<int>, w: seq<int>, v: seq<nat>, lo: int, hi: int, m: nat)
    requires Seated(used, w, v, lo, hi) && m <= |w|
    ensures FreeNumbers(used + w, |used|, m, lo) == v[..m]
    decreases m
  {
    if m > 0 {
      SeatedNumbers(used, w, v, lo, hi, m - 1);
      assert (used + w)[..|used|] == used && (used + w)[|used| + m - 1] == w[m - 1];
      assert v[..m] == v[..m - 1] + [v[m - 1]];
    }
  }

  lemma {:induction false} AscendingFromPairs(p: seq<int>, lo: nat, hi: nat)
    requires hi <= |p| && forall i, j | lo <= i < j < hi :: p[i] < p[j]
    ensures Ascending(p, lo, hi)
    decreases hi
  {
    if hi > lo + 1 { AscendingFromPairs(p, lo, hi - 1); }
  }

  lemma {:induction false} SeatedDistinct(used: seq<int>, w: seq<int>, v: seq<nat>, lo: int, hi: int)
    requires Distinct(used) && Seated(used, w, v, lo, hi)
    ensures Distinct(used + w)
  {
    var p := used + w;
    forall i, j | 0 <= i < j < |p|
      ensures p[i] != p[j]
    {
      if j < |used| { DistinctAt(used, i, j); }
    }
    DistinctFromPairs(p);
  }

  /** With the earlier men given, every digit of a group is taken by some squares. */
  lemma {:induction false} EveryGroupReached(used: seq<int>, m: nat, lo: int, hi: int, x: nat) returns (w: seq<int>)
    requires Distinct(used) && (forall i | 0 <= i < |used| :: lo <= used[i] < hi) && lo + |used| <= hi
    requires x < Choose(hi - lo - |used|, m)
    ensures |w| == m && Distinct(used + w) && forall i | 0 <= i < m :: lo <= w[i] < hi
    ensures Ascending(used + w, |used|, |used| + m) && GroupDigit(used + w, |used|, m, lo) == x
  {
    var v := LeadingOrder.EverySubsetReached(hi - lo - |used|, m, x);
    w := Seat(used, v, lo, hi);
    SeatedDistinct(used, w, v, lo, hi);
    SeatedDigit(used, w, v, lo, hi);
    SeatedAscending(used, w, v, lo, hi);
  }

  lemma {:induction false} SeatedDigit(used: seq<int>, w: seq<int>, v: seq<nat>, lo: int, hi: int)
    requires Seated(used, w, v, lo, hi)
    ensures GroupDigit(used + w, |used|, |w|, lo) == SubsetNumber(v)
  {
    SeatedNumbers(used, w, v, lo, hi, |w|);
    assert v[..|w|] == v;
  }

  lemma {:induction false} SeatedAscending(used: seq<int>, w: seq<int>, v: seq<nat>, lo: int, hi: int)
    requires Seated(used, w, v, lo, hi)
    ensures Ascending(used + w, |used|, |used| + |w|)
  {
    forall i, j | |used| <= i < j < |used| + |w|
      ensures (used + w)[i] < (used + w)[j]
    {
      assert (used + w)[i] == w[i - |used|] && (used + w)[j] == w[j - |used|];
    }
    AscendingFromPairs(used + w, |used|, |used| + |w|);
  }

  // ---------- the men behind the leading ones ----------

  lemma {:induction false} AscendingKept(p: seq<int>, q: seq<int>, lo: nat, hi: nat)
    requires hi <= |p| && hi <= |q| && p[..hi] == q[..hi] && Ascending(p, lo, hi)
    ensures Ascending(q, lo, hi)
    decreases hi
  {
    forall i | 0 <= i < hi
      ensures p[i] == q[i]
    {
      assert p[..hi][i] == q[..hi][i];
    }
    if hi > lo + 1 {
      assert p[..hi - 1] == q[..hi - 1];
      AscendingKept(p, q, lo, hi - 1);
    }
  }

  lemma {:induction false} NumbersKept(p: seq<int>, q: seq<int>, start: nat, m: nat, lo: int)
    requires start + m <= |p| && start + m <= |q| && p[..start + m] == q[..start + m]
    ensures FreeNumbers(p, start, m, lo) == FreeNumbers(q, start, m, lo)
    decreases m
  {
    if m > 0 {
      assert p[..start + m][..start + m - 1] == p[..start + m - 1];
      assert q[..start + m][..start + m - 1] == q[..start + m - 1];
      NumbersKept(p, q, start, m - 1, lo);
      assert p[..start + m][start + m - 1] == q[..start + m][start + m - 1];
      assert p[..start + m][..start] == p[..start] && q[..start + m][..start] == q[..start];
    }
  }

  /** The digits of the groups from man k on. */
  ghost predicate GroupsHave(e: Entry, enc: Scheme, norm: seq<nat>, k: nat, p: seq<int>, v: seq<nat>)
    requires Chain(norm, k) && |p| == |norm| == |v|
    decreases |norm| - k
  {
    k == |norm| ||
    (GroupDigit(p, k, norm[k], Lo(e, enc, k)) == v[k] && GroupsHave(e, enc, norm, k + norm[k], p, v))
  }

  /** The digits of the groups from man k on are in range. */
  ghost predicate GroupsFit(e: Entry, enc: Scheme, norm: seq<nat>, k: nat, v: seq<nat>)
    requires Chain(norm, k) && |norm| == |v| && |norm| <= 7
    decreases |norm| - k
  {
    k == |norm| || (v[k] < Choose(Free(e, enc, k), norm[k]) && GroupsFit(e, enc, norm, k + norm[k], v))
  }

  /** The men placed so far are on the squares open to the group at man k. */
  ghost predicate Open(e: Entry, enc: Scheme, norm: seq<nat>, k: nat, p: seq<int>) {
    && |p| == k && Distinct(p) && AreSquares(p)
    && (MorePawns(e, enc) && k == Lead(e, enc) ==> Within(p, k, 8, 56))
    && (MorePawns(e, enc) && k > Lead(e, enc) ==> k >= Base(e, enc) && Within(p, Base(e, enc), 8, 56))
  }

  /** What placing the groups needs to know of their sizes. */
  predicate Sized(e: Entry, enc: Scheme, norm: seq<nat>) {
    |norm| == e.num <= 7 && Base(e, enc) <= e.num && (MorePawns(e, enc) ==> norm[Lead(e, enc)] == e.pawns1)
  }

  lemma {:induction false} NextOpen(e: Entry, enc: Scheme, norm: seq<nat>, k: nat, p: seq<int>, w: seq<int>)
    requires Sized(e, enc, norm) && Lead(e, enc) <= k < |norm| && norm[k] >= 1 && Open(e, enc, norm, k, p)
    requires |w| == norm[k] && Distinct(p + w) && forall i | 0 <= i < |w| :: Lo(e, enc, k) <= w[i] < Hi(e, enc, k)
    ensures Open(e, enc, norm, k + norm[k], p + w)
  {
  }

  /** A sorted group with this digit behind the men placed so far. */
  ghost function Joins(e: Entry, enc: Scheme, p: seq<int>, x: nat): seq<int> -> bool {
    w => Ascending(p + w, |p|, |p| + |w|) && GroupDigit(p + w, |p|, |w|, Lo(e, enc, |p|)) == x
  }

  lemma {:induction false} NextGroup(e: Entry, enc: Scheme, norm: seq<nat>, k: nat, p: seq<int>, x: nat)
    returns (w: seq<int>)
    requires Sized(e, enc, norm) && Lead(e, enc) <= k < e.num && norm[k] >= 1 && k + norm[k] <= e.num
    requires Open(e, enc, norm, k, p) && x < Choose(Free(e, enc, k), norm[k])
    ensures |w| == norm[k] && Open(e, enc, norm, k + norm[k], p + w) && Joins(e, enc, p, x)(w)
  {
    OpenWithin(e, enc, norm, k, p);
    w := EveryGroupReached(p, norm[k], Lo(e, enc, k), Hi(e, enc, k), x);
    Joined(e, enc, p, x, w, k, norm[k]);
    NextOpen(e, enc, norm, k, p, w);
  }

  lemma {:induction false} Joined(e: Entry, enc: Scheme, p: seq<int>, x: nat, w: seq<int>, k: nat, m: nat)
    requires |p| == k && |w| == m && Ascending(p + w, k, k + m) && GroupDigit(p + w, k, m, Lo(e, enc, k)) == x
    ensures Joins(e, enc, p, x)(w)
  {
  }

  lemma {:induction false} OpenWithin(e: Entry, enc: Scheme, norm: seq<nat>, k: nat, p: seq<int>)
    requires Open(e, enc, norm, k, p) && k <= 7
    ensures forall i | 0 <= i < |p| :: Lo(e, enc, k) <= p[i] < Hi(e, enc, k)
    ensures Lo(e, enc, k) + k <= Hi(e, enc, k)
  {
  }

  lemma {:induction false} GroupsReached(e: Entry, enc: Scheme, norm: seq<nat>, k: nat, p: seq<int>, v: seq<nat>)
    returns (q: seq<int>)
    requires Sized(e, enc, norm) && Lead(e, enc) <= k <= e.num && |v| == e.num
    requires Open(e, enc, norm, k, p) && Fitting(e, enc, norm, v)(k)
    ensures |q| == e.num && q[..k] == p && Open(e, enc, norm, e.num, q) && Arranged(e, enc, norm, q, v)(k)
    decreases |norm| - k
  {
    if k == e.num {
      q := p;
      assert q[..k] == p;
      NothingToArrange(e, enc, norm, q, v);
    } else {
      GroupAhead(e, enc, norm, k, v);
      var w := NextGroup(e, enc, norm, k, p, v[k]);
      var next := k + norm[k];
      q := GroupsReached(e, enc, norm, next, p + w, v);
      GroupPlaced(e, enc, norm, k, next, p, w, q, v);
    }
  }

  lemma {:induction false} NothingToArrange(e: Entry, enc: Scheme, norm: seq<nat>, q: seq<int>, v: seq<nat>)
    requires |q| == |norm| == |v|
    ensures Arranged(e, enc, norm, q, v)(|q|)
  {
  }

  /** From a man on, norm partitions the men into groups, and their digits are in range. */
  ghost function Fitting(e: Entry, enc: Scheme, norm: seq<nat>, v: seq<nat>): nat -> bool {
    (k: nat) => |norm| == |v| && |norm| <= 7 && Chain(norm, k) && GroupsFit(e, enc, norm, k, v)
  }

  /** From a man on, the groups are sorted and have their digits. */
  ghost function Arranged(e: Entry, enc: Scheme, norm: seq<nat>, q: seq<int>, v: seq<nat>): nat -> bool {
    (k: nat) =>
      |q| == |norm| == |v| && Chain(norm, k) && GroupsAscending(norm, k, q) && GroupsHave(e, enc, norm, k, q, v)
  }

  lemma {:induction false} GroupPlaced(e: Entry, enc: Scheme, norm: seq<nat>, k: nat, next: nat, p: seq<int>,
                                       w: seq<int>, q: seq<int>, v: seq<nat>)
    requires |p| == k < |norm| == |q| == |v| && |w| == norm[k] >= 1 && next == k + norm[k] <= |norm|
    requires Fitting(e, enc, norm, v)(k) && q[..next] == p + w
    requires Joins(e, enc, p, v[k])(w) && Arranged(e, enc, norm, q, v)(next)
    ensures q[..k] == p && Arranged(e, enc, norm, q, v)(k)
  {
    GroupStays(p, w, q, Lo(e, enc, k));
    OneMoreGroup(e, enc, norm, k, q, v);
  }

  lemma {:induction false} GroupAhead(e: Entry, enc: Scheme, norm: seq<nat>, k: nat, v: seq<nat>)
    requires k < |norm| == |v| && |norm| <= 7 && Fitting(e, enc, norm, v)(k)
    ensures norm[k] >= 1 && k + norm[k] <= |norm| && v[k] < Choose(Free(e, enc, k), norm[k])
    ensures Fitting(e, enc, norm, v)(k + norm[k])
  {
  }

  lemma {:induction false} OneMoreGroup(e: Entry, enc: Scheme, norm: seq<nat>, k: nat, q: seq<int>, v: seq<nat>)
    requires k < |norm| == |q| == |v| && norm[k] >= 1 && k + norm[k] <= |norm| && Chain(norm, k + norm[k])
    requires Chain(norm, k) && Ascending(q, k, k + norm[k])
    requires GroupDigit(q, k, norm[k], Lo(e, enc, k)) == v[k]
    requires GroupsAscending(norm, k + norm[k], q) && GroupsHave(e, enc, norm, k + norm[k], q, v)
    ensures GroupsAscending(norm, k, q) && GroupsHave(e, enc, norm, k, q, v)
  {
  }

  /** What holds of a group when it is placed holds when all men are. */
  lemma {:induction false} GroupStays(p: seq<int>, w: seq<int>, q: seq<int>, lo: int)
    requires |p| + |w| <= |q| && q[..|p| + |w|] == p + w && Ascending(p + w, |p|, |p| + |w|)
    ensures q[..|p|] == p && Ascending(q, |p|, |p| + |w|)
    ensures GroupDigit(q, |p|, |w|, lo) == GroupDigit(p + w, |p|, |w|, lo)
  {
    assert q[..|p|] == q[..|p| + |w|][..|p|] == p;
    assert (p + w)[..|p| + |w|] == p + w;
    AscendingKept(p + w, q, |p|, |p| + |w|);
    NumbersKept(p + w, q, |p|, |w|, lo);
  }

  // ---------- the leading men ----------

  /** Every number below 462 belongs to a pair of kings that do not touch. */
  ghost predicate NumbersAllKings(kk: KingTable) {
    && NumbersKings(kk)
    && forall n: nat | n < 462 :: SomeKings(kk, n)
  }

  ghost predicate SomeKings(kk: KingTable, n: nat)
    requires NumbersKings(kk)
  {
    exists a, b :: KingPair(a, b) && KingIndex(kk, a, b) == n
  }

  /** The square with a given twist. */
  function TwistSquare(enc: PawnEncoding, x: nat): int
    requires x < 48
  {
    var s := FlapSquare(enc, (47 - x) / 2);
    if (47 - x) % 2 == 0 then s else FlipFile(s)
  }

  lemma FlapSquareIs(enc: PawnEncoding, j: nat)
    requires j < 24
    ensures var s := FlapSquare(enc, j); IsPawnSquare(s) && s % 8 < 4 && FlapNat(enc, s) == j
  {
    FlapSquareCoordinates(enc, j);
    FlapOfLeftHalf(enc, FlapSquare(enc, j));
  }

  lemma FlapSquareCoordinates(enc: PawnEncoding, j: nat)
    requires j < 24
    ensures var s := FlapSquare(enc, j);
            && s / 8 == (if enc == ByFile then 1 + j % 6 else 1 + j / 4)
            && s % 8 == (if enc == ByFile then j / 6 else j % 4)
  {
    match enc
    case ByFile =>
    case ByRank =>
  }

  lemma TwistSquareIs(enc: PawnEncoding, x: nat)
    requires x < 48
    ensures IsPawnSquare(TwistSquare(enc, x)) && TwistNat(enc, TwistSquare(enc, x)) == x
  {
    var s := FlapSquare(enc, (47 - x) / 2);
    FlapSquareIs(enc, (47 - x) / 2);
    FlapIgnoresFlip(enc, s);
    FlipCoordinates(s);
    TwistFromFlap(enc, TwistSquare(enc, x));
  }

  /** Every number of a block is in the share of one of its flap numbers. */
  lemma {:induction false} FlapReached(w: seq<nat>, m: nat, j: nat, x: nat) returns (l: nat)
    requires m > 0 && j < |w| && x < BlockSum(w, m, j) + w[j]
    ensures l <= j && BlockSum(w, m, l) <= x < BlockSum(w, m, l) + w[l]
    ensures forall i: nat | l < i <= j :: !OpensBlock(m, i)
    decreases j
  {
    if BlockSum(w, m, j) <= x {
      l := j;
    } else {
      l := FlapReached(w, m, j - 1, x);
    }
  }

  lemma {:induction false} SameBlock(enc: PawnEncoding, b: nat, l: nat)
    requires BlockEnd(enc, b) < 24 && l <= BlockEnd(enc, b)
    requires forall i: nat | l < i <= BlockEnd(enc, b) :: !OpensBlock(FlapBlock(enc), i)
    ensures l / FlapBlock(enc) == b
  {
    var first := b * FlapBlock(enc);
    if l < first { assert OpensBlock(FlapBlock(enc), first); }
  }

  /** The pawns with these twists, the largest first. */
  lemma {:induction false} TwistsTaken(enc: PawnEncoding, s: int, v: seq<nat>) returns (p: seq<int>)
    requires IsPawnSquare(s) && s % 8 < 4 && Increasing(v) && (v == [] || v[|v| - 1] < TwistNat(enc, s))
    ensures |p| == |v| + 1 && p[0] == s && LeadingPawns(enc, p, |p|) && TwistsUp(enc, p, |p|) == v
  {
    TwistFromFlap(enc, s);
    TwistsBelow(v, TwistNat(enc, s));
    p := [s] + Twisted(enc, v);
    TwistedTwists(enc, s, v, p);
  }

  lemma {:induction false} TwistsBelow(v: seq<nat>, n: nat)
    requires Increasing(v) && (v == [] || v[|v| - 1] < n)
    ensures forall i, j | 0 <= i < j < |v| :: v[i] < v[j]
    ensures forall i | 0 <= i < |v| :: v[i] < n
  {
    IncreasingPairs(v);
  }

  /** The squares with these twists, the largest first. */
  function Twisted(enc: PawnEncoding, v: seq<nat>): (p: seq<int>)
    requires forall i | 0 <= i < |v| :: v[i] < 48
    ensures |p| == |v|
    ensures forall i | 0 <= i < |v| :: IsPawnSquare(p[i]) && TwistNat(enc, p[i]) == v[|v| - 1 - i]
  {
    if v == [] then []
    else
      var n := |v| - 1;
      TwistSquareIs(enc, v[n]);
      [TwistSquare(enc, v[n])] + Twisted(enc, v[..n])
  }

  lemma {:induction false} TwistedTwists(enc: PawnEncoding, s: int, v: seq<nat>, p: seq<int>)
    requires IsPawnSquare(s) && s % 8 < 4
    requires forall i, j | 0 <= i < j < |v| :: v[i] < v[j]
    requires forall i | 0 <= i < |v| :: v[i] < TwistNat(enc, s) < 48
    requires p == [s] + Twisted(enc, v)
    ensures LeadingPawns(enc, p, |p|) && TwistsUp(enc, p, |p|) == v
  {
    var rest, last := Twisted(enc, v), TwistNat(enc, s);
    forall i | 0 <= i < |p|
      ensures IsPawnSquare(p[i]) && TwistNat(enc, p[i]) == Countdown(v, last)(i)
    {
      if i == 0 {
        LastOfCountdown(v, last);
      } else {
        CountdownAt(v, last, i);
        assert p[i] == rest[i - 1];
      }
    }
    CountedDown(enc, v, last, p);
  }

  lemma LastOfCountdown(v: seq<nat>, last: nat)
    ensures Countdown(v, last)(0) == last
  {
  }

  lemma CountdownAt(v: seq<nat>, last: nat, i: int)
    requires 0 < i <= |v|
    ensures Countdown(v, last)(i) == v[|v| - i]
  {
  }

  lemma {:induction false} CountedDown(enc: PawnEncoding, v: seq<nat>, last: nat, p: seq<int>)
    requires (forall i, j | 0 <= i < j < |v| :: v[i] < v[j]) && forall i | 0 <= i < |v| :: v[i] < last
    requires |p| == |v| + 1 && p[0] % 8 < 4
    requires forall i | 0 <= i < |p| :: IsPawnSquare(p[i]) && TwistNat(enc, p[i]) == Countdown(v, last)(i)
    ensures LeadingPawns(enc, p, |p|) && TwistsUp(enc, p, |p|) == v
  {
    forall i, j | 0 <= i < j < |p|
      ensures Twist(enc, p[i]) > Twist(enc, p[j])
    {
      assert TwistNat(enc, p[i]) == Countdown(v, last)(i) > Countdown(v, last)(j) == TwistNat(enc, p[j]);
    }
  }

  /** The last number, then the list from its end. */
  function Countdown(v: seq<nat>, last: nat): int -> nat {
    i => if 0 < i <= |v| then v[|v| - i] else last
  }

  lemma {:induction false} IncreasingPairs(v: seq<nat>)
    requires Increasing(v)
    ensures forall i, j | 0 <= i < j < |v| :: v[i] < v[j]
    decreases |v|
  {
    if |v| > 1 {
      var n := |v| - 1;
      IncreasingPairs(v[..n]);
      forall i, j | 0 <= i < j < |v|
        ensures v[i] < v[j]
      {
        if j < n { assert v[..n][i] < v[..n][j]; }
        if j == n && i < n - 1 { assert v[..n][i] < v[..n][n - 1]; }
      }
    }
  }

  /** Every number below a block's size belongs to some leading pawns. */
  lemma {:induction false} EveryPawnNumberReached(enc: PawnEncoding, k: nat, b: nat, x: nat) returns (p: seq<int>)
    requires k >= 1 && BlockEnd(enc, b) < 24 && x < PawnBlockSize(enc, k - 1, b)
    ensures |p| == k && LeadingPawns(enc, p, k) && PawnBlock(enc, p[0]) == b && PawnIndex(enc, p, k) == x
  {
    var j := FlapReached(Weights(enc, k - 1), FlapBlock(enc), BlockEnd(enc, b), x);
    SameBlock(enc, b, j);
    p := PawnsBehind(enc, k, j, x - PawnStart(enc, k - 1, j));
  }

  /** Every number within the share of a flap number belongs to some pawns led from there. */
  lemma {:induction false} PawnsBehind(enc: PawnEncoding, k: nat, j: nat, y: nat) returns (p: seq<int>)
    requires k >= 1 && j < 24 && y < Weights(enc, k - 1)[j]
    ensures |p| == k && LeadingPawns(enc, p, k) && FlapNat(enc, p[0]) == j && SubsetNumber(TwistsUp(enc, p, k)) == y
  {
    FlapSquareIs(enc, j);
    var v := LeadingOrder.EverySubsetReached(FlapTwist(enc, j), k - 1, y);
    p := TwistsTaken(enc, FlapSquare(enc, j), v);
  }

  lemma {:induction false} PawnsDistinct(enc: PawnEncoding, p: seq<int>)
    requires LeadingPawns(enc, p, |p|)
    ensures Distinct(p)
  {
    DistinctFromPairs(p);
  }

  /** Leading men with number x in block t. */
  ghost predicate LeadIs(e: Entry, enc: Scheme, kk: KingTable, t: nat, x: nat, p: seq<int>)
    requires NumbersKings(kk)
  {
    && |p| == Lead(e, enc)
    && match enc
       case Pieces =>
         if e.kkEnc then KingPair(p[0], p[1]) && KingIndex(kk, p[0], p[1]) == x
         else LeadingThree(p[0], p[1], p[2]) && ThreeIndex(p[0], p[1], p[2]) == x
       case Pawns(along) => LeadingPawns(along, p, |p|) && PawnBlock(along, p[0]) == t && PawnIndex(along, p, |p|) == x
  }

  lemma {:induction false} LeadReached(e: Entry, enc: Scheme, kk: KingTable, t: nat, x: nat) returns (p: seq<int>)
    requires Lead(e, enc) >= 1 && BlockExists(enc, t) && NumbersAllKings(kk) && x < LeadSize(e, enc, t)
    ensures LeadIs(e, enc, kk, t, x, p) && Distinct(p) && AreSquares(p)
    ensures enc.Pawns? ==> Within(p, |p|, 8, 56)
  {
    match enc
    case Pieces => p := PiecesReached(e, kk, t, x);
    case Pawns(along) => p := PawnsReached(e, along, kk, t, x);
  }

  lemma {:induction false} PawnsReached(e: Entry, along: PawnEncoding, kk: KingTable, t: nat, x: nat)
    returns (p: seq<int>)
    requires e.pawns0 >= 1 && BlockEnd(along, t) < 24 && NumbersKings(kk) && x < PawnBlockSize(along, e.pawns0 - 1, t)
    ensures LeadIs(e, Pawns(along), kk, t, x, p) && Distinct(p) && AreSquares(p) && Within(p, |p|, 8, 56)
  {
    p := EveryPawnNumberReached(along, e.pawns0, t, x);
    PawnsDistinct(along, p);
  }

  lemma {:induction false} PiecesReached(e: Entry, kk: KingTable, t: nat, x: nat) returns (p: seq<int>)
    requires NumbersAllKings(kk) && x < if e.kkEnc then 462 else 31332
    ensures LeadIs(e, Pieces, kk, t, x, p) && Distinct(p) && AreSquares(p)
  {
    if e.kkEnc {
      assert SomeKings(kk, x);
      var a, b :| KingPair(a, b) && KingIndex(kk, a, b) == x;
      p := [a, b];
    } else {
      var a, b, c := LeadingOrder.EveryNumberReached(x);
      p := [a, b, c];
    }
    DistinctFromPairs(p);
  }

  lemma {:induction false} LeadKept(e: Entry, enc: Scheme, kk: KingTable, t: nat, x: nat, p: seq<int>, q: seq<int>)
    requires 1 <= Lead(e, enc) <= Base(e, enc) <= e.num == |q| && NumbersKings(kk) && (enc.Pieces? ==> t == 0)
    requires AreSquares(q) && Distinct(q) && LeadIs(e, enc, kk, t, x, p) && q[..|p|] == p
    requires MorePawns(e, enc) ==> Within(q, Base(e, enc), 8, 56)
    ensures CanonicalLead(e, enc, q) && BlockIndex(enc, q) == t && LeadDigit(e, enc, kk, q) == x
  {
    assert forall i | 0 <= i < |p| :: q[i] == p[i];
    match enc
    case Pieces =>
    case Pawns(along) =>
      assert TwistsUp(along, q, |p|) == TwistsUp(along, p, |p|);
  }

  // ---------- whole placements ----------

  lemma {:induction false} FitFrom(e: Entry, enc: Scheme, norm: seq<nat>, t: nat, k: nat, v: seq<nat>)
    requires Shape(e, enc, norm) && BlockExists(enc, t) && 0 < k <= e.num == |v| && Chain(norm, k)
    requires forall i | 0 <= i < |GroupStarts(norm, k)| ::
               var s := GroupStarts(norm, k)[i]; v[s] < Size(e, enc, norm, t, s)
    ensures GroupsFit(e, enc, norm, k, v)
    decreases |norm| - k
  {
    if k < |norm| {
      var rest := GroupStarts(norm, k + norm[k]);
      assert GroupStarts(norm, k)[0] == k;
      forall i | 0 <= i < |rest|
        ensures var s := rest[i]; v[s] < Size(e, enc, norm, t, s)
      {
        assert GroupStarts(norm, k)[i + 1] == rest[i];
      }
      FitFrom(e, enc, norm, t, k + norm[k], v);
    }
  }

  lemma {:induction false} HaveAt(e: Entry, enc: Scheme, norm: seq<nat>, k: nat, p: seq<int>, v: seq<nat>, i: nat)
    requires Chain(norm, k) && |p| == |norm| == |v| && GroupsHave(e, enc, norm, k, p, v)
    requires i < |GroupStarts(norm, k)|
    ensures var s := GroupStarts(norm, k)[i]; GroupDigit(p, s, norm[s], Lo(e, enc, s)) == v[s]
    decreases |norm| - k
  {
    if i > 0 { HaveAt(e, enc, norm, k + norm[k], p, v, i - 1); }
  }

  /** Any digits in range are the digits of some canonical placement. */
  lemma {:induction false} EveryDigitsReached(e: Entry, enc: Scheme, norm: seq<nat>, kk: KingTable, t: nat, v: seq<nat>)
    returns (p: seq<int>)
    requires Shape(e, enc, norm) && BlockExists(enc, t) && NumbersAllKings(kk) && |v| == e.num
    requires (enc.Pieces? ==> t == 0) && DigitsFit(Starts(e, enc, norm), v, SizeVector(e, enc, norm, t))
    ensures Canonical(e, enc, norm, p) && BlockIndex(enc, p) == t
    ensures forall i | 0 <= i < |Starts(e, enc, norm)| ::
              var s := Starts(e, enc, norm)[i]; Digit(e, enc, norm, kk, p, s) == v[s]
  {
    var k := Lead(e, enc);
    assert Starts(e, enc, norm)[0] == 0;
    var lead := LeadReached(e, enc, kk, t, v[0]);
    FitBehind(e, enc, norm, t, v);
    p := GroupsReached(e, enc, norm, k, lead, v);
    LeadKept(e, enc, kk, t, v[0], lead, p);
    DigitsHad(e, enc, norm, kk, p, v);
  }

  lemma {:induction false} FitBehind(e: Entry, enc: Scheme, norm: seq<nat>, t: nat, v: seq<nat>)
    requires Shape(e, enc, norm) && BlockExists(enc, t) && |v| == e.num
    requires DigitsFit(Starts(e, enc, norm), v, SizeVector(e, enc, norm, t))
    ensures GroupsFit(e, enc, norm, Lead(e, enc), v)
  {
    var k := Lead(e, enc);
    forall i | 0 <= i < |GroupStarts(norm, k)|
      ensures var s := GroupStarts(norm, k)[i]; v[s] < Size(e, enc, norm, t, s)
    {
      assert Starts(e, enc, norm)[i + 1] == GroupStarts(norm, k)[i];
    }
    FitFrom(e, enc, norm, t, k, v);
  }

  lemma {:induction false} DigitsHad(e: Entry, enc: Scheme, norm: seq<nat>, kk: KingTable, p: seq<int>, v: seq<nat>)
    requires Shape(e, enc, norm) && NumbersKings(kk) && Canonical(e, enc, norm, p) && |v| == e.num
    requires LeadDigit(e, enc, kk, p) == v[0] && GroupsHave(e, enc, norm, Lead(e, enc), p, v)
    ensures forall i | 0 <= i < |Starts(e, enc, norm)| ::
              var s := Starts(e, enc, norm)[i]; Digit(e, enc, norm, kk, p, s) == v[s]
  {
    forall i | 0 <= i < |Starts(e, enc, norm)|
      ensures var s := Starts(e, enc, norm)[i]; Digit(e, enc, norm, kk, p, s) == v[s]
    {
      DigitHad(e, enc, norm, kk, p, v, i);
    }
  }

  lemma {:induction false} DigitHad(e: Entry, enc: Scheme, norm: seq<nat>, kk: KingTable, p: seq<int>, v: seq<nat>,
                                    i: nat)
    requires Shape(e, enc, norm) && NumbersKings(kk) && Canonical(e, enc, norm, p) && |v| == e.num
    requires LeadDigit(e, enc, kk, p) == v[0] && GroupsHave(e, enc, norm, Lead(e, enc), p, v)
    requires i < |Starts(e, enc, norm)|
    ensures var s := Starts(e, enc, norm)[i]; Digit(e, enc, norm, kk, p, s) == v[s]
  {
    if i > 0 {
      DigitIsGroupDigit(e, enc, norm, kk, p, i);
      HaveAt(e, enc, norm, Lead(e, enc), p, v, i - 1);
    }
  }

  /** Every index below the table size is the index of a canonical placement of that block: with its
      injectivity, indices are placements, one to one. */
  lemma {:induction false} EveryIndexReached(e: Entry, enc: Scheme, ei: EncInfo, kk: KingTable, t: nat,
                                             slots: seq<nat>, x: nat)
    returns (p: seq<int>)
    requires Shape(e, enc, ei.norm) && BlockExists(enc, t) && (enc.Pieces? ==> t == 0) && NumbersAllKings(kk)
    requires Factors(e, enc, ei, t, slots) && x < TableSize(e, enc, ei, t, slots)
    ensures Canonical(e, enc, ei.norm, p) && BlockIndex(enc, p) == t && Index(e, enc, ei, kk, p) == x
  {
    var all, sizes := Starts(e, enc, ei.norm), SizeVector(e, enc, ei.norm, t);
    var d := EveryValueReached(Pick(sizes, slots), x);
    SlotsDiffer(e, enc, ei.norm, slots);
    var v := PutBack(slots, d, e.num);
    DigitsAtKeys(all, slots, sizes, v);
    p := EveryDigitsReached(e, enc, ei.norm, kk, t, v);
    WeightedIsValue(all, slots, sizes, ei.factor, v);
    WeightedSame(all, v, DigitVector(e, enc, ei.norm, kk, p), ei.factor);
  }

  lemma {:induction false} DigitsAtKeys(keys: seq<nat>, slots: seq<nat>, sizes: seq<nat>, v: seq<nat>)
    requires multiset(slots) == multiset(keys) && |v| == |sizes|
    requires forall i | 0 <= i < |keys| :: keys[i] < |sizes|
    requires forall i | 0 <= i < |slots| :: slots[i] < |sizes|
    requires Digits(Pick(v, slots), Pick(sizes, slots))
    ensures DigitsFit(keys, v, sizes)
  {
    forall i | 0 <= i < |keys|
      ensures v[keys[i]] < sizes[keys[i]]
    {
      assert keys[i] in multiset(slots);
      var j :| 0 <= j < |slots| && slots[j] == keys[i];
      assert Pick(v, slots)[j] < Pick(sizes, slots)[j];
    }
  }
}
