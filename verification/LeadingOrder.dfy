/** What the numbers of leading men and of groups count: placements in order, without gaps. */
module LeadingOrder {
  import opened Binomials
  import opened FreeSquares
  import opened PlacementTables
  import opened LeadingMen
  import opened TableIndex

  // ---------- the triangle a1-d1-d4 ----------

  predicate InTriangle(s: int) { IsSquare(s) && s / 8 < s % 8 <= 3 }

  /** How many squares of the triangle, off the diagonal, come before s. */
  function TrianglesBefore(s: nat): nat {
    if s == 0 then 0 else TrianglesBefore(s - 1) + One(InTriangle(s - 1))
  }

  function TriangleRow(r: int): int { if r == 0 then 0 else if r == 1 then 3 else if r == 2 then 5 else 6 }

  lemma {:induction false} TrianglesUpTo(s: nat)
    requires s < 32
    ensures TrianglesBefore(s)
         == TriangleRow(s / 8) + (if s % 8 <= s / 8 then 0 else (if s % 8 < 4 then s % 8 else 4) - s / 8 - 1)
  {
    if s > 0 { TrianglesUpTo(s - 1); }
  }

  /** The triangle is numbered square by square, then the diagonal. */
  lemma TriangleCounts(s: int)
    requires IsSquare(s) && s / 8 <= s % 8 <= 3
    ensures At(TRIANGLE, s) == if OnDiagonal(s) then 6 + s / 8 else TrianglesBefore(s)
  {
    TrianglesUpTo(s);
  }

  /** The square of the triangle with this number. */
  function TriangleSquare(x: int): int {
    if x < 3 then x + 1 else if x < 5 then 7 + x else 14 + x
  }

  lemma TriangleSquareIs(x: int)
    requires 0 <= x < 6
    ensures InTriangle(TriangleSquare(x)) && At(TRIANGLE, TriangleSquare(x)) == x
  {
  }

  lemma TriangleGrows(s: int, t: int)
    requires InTriangle(s) && InTriangle(t) && s < t
    ensures At(TRIANGLE, s) < At(TRIANGLE, t)
  {
  }

  // ---------- the squares below the diagonal ----------

  function LowerSquare(y: int): int {
    if y < 7 then y + 1 else if y < 13 then y + 3 else if y < 18 then y + 6 else if y < 22 then y + 10
    else if y < 25 then y + 15 else if y < 27 then y + 21 else y + 28
  }

  lemma LowerSquareIs(y: int)
    requires 0 <= y < 28
    ensures IsSquare(LowerSquare(y)) && Below(LowerSquare(y)) && At(LOWER, LowerSquare(y)) == y
  {
    var s := LowerSquare(y);
    assert Below(s);
    LowerFormula(s);
  }

  lemma LowerGrows(s: int, t: int)
    requires IsSquare(s) && IsSquare(t) && Below(s) && Below(t) && s < t
    ensures At(LOWER, s) < At(LOWER, t)
  {
    LowerFormula(s);
    LowerFormula(t);
    LowerRowsGrow(s / 8, s % 8, t / 8, t % 8);
  }

  lemma LowerRowsGrow(r: int, f: int, r': int, f': int)
    requires 0 <= r < f < 8 && 0 <= r' < f' < 8 && 8 * r + f < 8 * r' + f'
    ensures LowerRow(r) + f - r < LowerRow(r') + f' - r'
  {
  }

  // ---------- skipping squares already taken ----------

  /** The number that is y when a is skipped. */
  function Skip(y: int, a: int): int { if y >= a then y + 1 else y }

  lemma SkipOne(y: int, a: int)
    ensures Skip(y, a) != a && Skip(y, a) - One(Skip(y, a) > a) == y
    ensures y <= Skip(y, a) <= y + 1
  {
  }

  /** The number that is z when a and b are skipped. */
  function SkipTwo(z: int, a: int, b: int): int {
    if a < b then Skip(Skip(z, a), b) else Skip(Skip(z, b), a)
  }

  lemma SkipBoth(z: int, a: int, b: int)
    requires a != b
    ensures var c := SkipTwo(z, a, b); c != a && c != b && c - One(c > a) - One(c > b) == z && z <= c <= z + 2
  {
  }

  // ---------- the order of the numbers ----------

  /** How many of the three are on the diagonal before the first that is not. */
  function Zone(a: int, b: int, c: int): nat {
    if Below(a) then 0 else if Below(b) then 1 else if Below(c) then 2 else 3
  }

  predicate LexBefore(a: int, b: int, c: int, a': int, b': int, c': int) {
    a < a' || (a == a' && (b < b' || (b == b' && c < c')))
  }

  /** Three digits compare like the numbers they form. */
  predicate Digits(x: int, y: int, z: int, x': int, y': int, z': int) {
    x < x' || (x == x' && (y < y' || (y == y' && z < z')))
  }

  lemma SkippedInOrder(a: int, b: int, c: int, a': int, b': int, c': int)
    requires a != b && a != c && b != c && a' != b' && a' != c' && b' != c'
    requires a == a'
    ensures b < b' ==> b - One(b > a) < b' - One(b' > a')
    ensures b == b' && c < c' ==> c - One(c > a) - One(c > b) < c' - One(c' > a') - One(c' > b')
  {
  }

  lemma ZoneZero(a: int, b: int, c: int)
    requires LeadingThree(a, b, c) && Below(a)
    ensures InTriangle(a)
    ensures ThreeIndex(a, b, c) == At(TRIANGLE, a) * 63 * 62 + (b - One(b > a)) * 62 + (c - One(c > a) - One(c > b))
  {
    OffDiagSign(a);
  }

  lemma ZoneOne(a: int, b: int, c: int)
    requires LeadingThree(a, b, c) && OnDiagonal(a) && Below(b)
    ensures ThreeIndex(a, b, c) == 6 * 63 * 62 + (a / 8) * 28 * 62 + At(LOWER, b) * 62 + (c - One(c > a) - One(c > b))
    ensures a == 9 * (a / 8) && 0 <= a / 8 <= 3
  {
    OffDiagSign(a);
    OffDiagSign(b);
    DiagNumbers(a);
  }

  lemma ZoneTwo(a: int, b: int, c: int)
    requires LeadingThree(a, b, c) && OnDiagonal(a) && OnDiagonal(b) && Below(c)
    ensures var (x, y) := (a / 8, b / 8);
            && ThreeIndex(a, b, c)
               == 6 * 63 * 62 + 4 * 28 * 62 + x * 7 * 28 + (y - One(y > x)) * 28 + At(LOWER, c)
            && a == 9 * x && b == 9 * y && 0 <= x <= 3 && x != y
  {
    OffDiagSign(a);
    OffDiagSign(b);
    OffDiagSign(c);
    DiagNumbers(a);
    DiagNumbers(b);
  }

  lemma ZeroGrows(a: int, b: int, c: int, a': int, b': int, c': int)
    requires LeadingThree(a, b, c) && LeadingThree(a', b', c') && Below(a) && Below(a')
    requires LexBefore(a, b, c, a', b', c')
    ensures ThreeIndex(a, b, c) < ThreeIndex(a', b', c')
  {
    ZoneZero(a, b, c);
    ZoneZero(a', b', c');
    SkipDigits(a, b, c);
    SkipDigits(a', b', c');
    if a < a' { TriangleGrows(a, a'); } else { SkippedInOrder(a, b, c, a', b', c'); }
  }

  lemma OneGrows(a: int, b: int, c: int, a': int, b': int, c': int)
    requires LeadingThree(a, b, c) && LeadingThree(a', b', c')
    requires OnDiagonal(a) && OnDiagonal(a') && Below(b) && Below(b') && LexBefore(a, b, c, a', b', c')
    ensures ThreeIndex(a, b, c) < ThreeIndex(a', b', c')
  {
    ZoneOne(a, b, c);
    ZoneOne(a', b', c');
    SkipDigits(a, b, c);
    SkipDigits(a', b', c');
    LowerNumbers(b, b);
    LowerNumbers(b', b');
    DiagonalInOrder(a, a');
    if a == a' {
      if b < b' { LowerGrows(b, b'); } else { SkippedInOrder(a, b, c, a', b', c'); }
    }
  }

  lemma DiagonalSkips(x: int, y: int)
    requires 0 <= x < 8 && 0 <= y < 8 && x != y
    ensures 0 <= y - One(y > x) < 7
  {
  }

  lemma TwoGrows(a: int, b: int, c: int, a': int, b': int, c': int)
    requires LeadingThree(a, b, c) && LeadingThree(a', b', c') && OnDiagonal(a) && OnDiagonal(a')
    requires OnDiagonal(b) && OnDiagonal(b') && Below(c) && Below(c') && LexBefore(a, b, c, a', b', c')
    ensures ThreeIndex(a, b, c) < ThreeIndex(a', b', c')
  {
    ZoneTwo(a, b, c);
    ZoneTwo(a', b', c');
    LowerNumbers(c, c);
    LowerNumbers(c', c');
    DiagonalSkips(a / 8, b / 8);
    DiagonalSkips(a' / 8, b' / 8);
    DiagonalInOrder(a, a');
    DiagonalInOrder(b, b');
    if a == a' {
      SkippedInOrder(a / 8, b / 8, 8, a' / 8, b' / 8, 8);
      if b == b' { LowerGrows(c, c'); }
    }
  }

  lemma ThreeGrows(a: int, b: int, c: int, a': int, b': int, c': int)
    requires LeadingThree(a, b, c) && LeadingThree(a', b', c') && OnDiagonal(a) && OnDiagonal(a')
    requires OnDiagonal(b) && OnDiagonal(b') && OnDiagonal(c) && OnDiagonal(c') && LexBefore(a, b, c, a', b', c')
    ensures ThreeIndex(a, b, c) < ThreeIndex(a', b', c')
  {
    ThreeOnDiagonal(a, b, c);
    ThreeOnDiagonal(a', b', c');
    DiagonalInOrder(a, a'); DiagonalInOrder(b, b'); DiagonalInOrder(c, c');
    if a == a' { SkippedInOrder(a / 8, b / 8, c / 8, a' / 8, b' / 8, c' / 8); }
  }

  lemma DiagonalInOrder(s: int, t: int)
    requires OnDiagonal(s) && OnDiagonal(t)
    ensures s < t <==> s / 8 < t / 8
  {
  }

  /** Triples in the same zone are numbered in their order. */
  lemma ThreeIndexGrows(a: int, b: int, c: int, a': int, b': int, c': int)
    requires LeadingThree(a, b, c) && LeadingThree(a', b', c')
    requires Zone(a, b, c) == Zone(a', b', c') && LexBefore(a, b, c, a', b', c')
    ensures ThreeIndex(a, b, c) < ThreeIndex(a', b', c')
  {
    if Below(a) {
      ZeroGrows(a, b, c, a', b', c');
    } else if Below(b) {
      OneGrows(a, b, c, a', b', c');
    } else if Below(c) {
      TwoGrows(a, b, c, a', b', c');
    } else {
      ThreeGrows(a, b, c, a', b', c');
    }
  }

  // ---------- no number is left out ----------

  lemma ZeroReached(x: int, y: int, z: int) returns (a: int, b: int, c: int)
    requires 0 <= x < 6 && 0 <= y < 63 && 0 <= z < 62
    ensures LeadingThree(a, b, c) && Zone(a, b, c) == 0 && ThreeIndex(a, b, c) == x * 63 * 62 + y * 62 + z
  {
    a := TriangleSquare(x);
    TriangleSquareIs(x);
    b := Skip(y, a);
    SkipOne(y, a);
    c := SkipTwo(z, a, b);
    SkipBoth(z, a, b);
    ZoneZero(a, b, c);
  }

  lemma OneReached(x: int, y: int, z: int) returns (a: int, b: int, c: int)
    requires 0 <= x < 4 && 0 <= y < 28 && 0 <= z < 62
    ensures LeadingThree(a, b, c) && Zone(a, b, c) == 1
    ensures ThreeIndex(a, b, c) == 6 * 63 * 62 + x * 28 * 62 + y * 62 + z
  {
    a := 9 * x;
    b := LowerSquare(y);
    LowerSquareIs(y);
    c := SkipTwo(z, a, b);
    SkipBoth(z, a, b);
    ZoneOne(a, b, c);
  }

  lemma TwoReached(x: int, y: int, z: int) returns (a: int, b: int, c: int)
    requires 0 <= x < 4 && 0 <= y < 7 && 0 <= z < 28
    ensures LeadingThree(a, b, c) && Zone(a, b, c) == 2
    ensures ThreeIndex(a, b, c) == 6 * 63 * 62 + 4 * 28 * 62 + x * 7 * 28 + y * 28 + z
  {
    a := 9 * x;
    b := 9 * Skip(y, x);
    SkipOne(y, x);
    c := LowerSquare(z);
    LowerSquareIs(z);
    ZoneTwo(a, b, c);
  }

  lemma ThreeReached(x: int, y: int, z: int) returns (a: int, b: int, c: int)
    requires 0 <= x < 4 && 0 <= y < 7 && 0 <= z < 6
    ensures LeadingThree(a, b, c) && Zone(a, b, c) == 3
    ensures ThreeIndex(a, b, c) == 6 * 63 * 62 + 4 * 28 * 62 + 4 * 7 * 28 + x * 7 * 6 + y * 6 + z
  {
    var y', z' := Skip(y, x), SkipTwo(z, x, Skip(y, x));
    SkipOne(y, x);
    SkipBoth(z, x, y');
    a, b, c := 9 * x, 9 * y', 9 * z';
    NineIsDiagonal(x);
    NineIsDiagonal(y');
    NineIsDiagonal(z');
    ThreeOnDiagonal(a, b, c);
  }

  lemma NineIsDiagonal(x: int)
    requires 0 <= x < 8
    ensures IsSquare(9 * x) && OnDiagonal(9 * x) && 9 * x / 8 == x
  {
  }

  /** Every number below 31332 belongs to some triple. */
  lemma EveryNumberReached(n: nat) returns (a: int, b: int, c: int)
    requires n < 31332
    ensures LeadingThree(a, b, c) && ThreeIndex(a, b, c) == n
  {
    if n < 6 * 63 * 62 {
      a, b, c := ZeroReached(n / 62 / 63, n / 62 % 63, n % 62);
    } else if n < 6 * 63 * 62 + 4 * 28 * 62 {
      var k := n - 6 * 63 * 62;
      a, b, c := OneReached(k / 62 / 28, k / 62 % 28, k % 62);
    } else if n < 6 * 63 * 62 + 4 * 28 * 62 + 4 * 7 * 28 {
      var k := n - 6 * 63 * 62 - 4 * 28 * 62;
      a, b, c := TwoReached(k / 28 / 7, k / 28 % 7, k % 28);
    } else {
      var k := n - 6 * 63 * 62 - 4 * 28 * 62 - 4 * 7 * 28;
      a, b, c := ThreeReached(k / 6 / 7, k / 6 % 7, k % 6);
    }
  }

  // ---------- groups of like men ----------

  /** Two subsets compare by their largest members that differ. */
  predicate ColexBefore(v: seq<int>, w: seq<int>, l: nat)
    requires l < |v| == |w|
  {
    v[l] < w[l] && forall i | l < i < |v| :: v[i] == w[i]
  }

  /** Subsets are numbered in their order. */
  lemma {:induction false} SubsetNumberGrows(v: seq<nat>, w: seq<nat>, l: nat)
    requires Increasing(v) && Increasing(w) && l < |v| == |w| && ColexBefore(v, w, l)
    ensures SubsetNumber(v) < SubsetNumber(w)
    decreases |v|
  {
    var n := |v| - 1;
    if l == n {
      LargerTop(v, w);
    } else {
      SubsetNumberGrows(v[..n], w[..n], l);
    }
  }

  /** Every number below the number of subsets belongs to one. */
  lemma {:induction false} EverySubsetReached(n: nat, k: nat, x: nat) returns (v: seq<nat>)
    requires x < Choose(n, k)
    ensures |v| == k && Increasing(v) && (v == [] || v[k - 1] < n) && SubsetNumber(v) == x
    decreases n
  {
    if k == 0 {
      v := [];
    } else if x < Choose(n - 1, k) {
      v := EverySubsetReached(n - 1, k, x);
    } else {
      var w := EverySubsetReached(n - 1, k - 1, x - Choose(n - 1, k));
      v := w + [n - 1];
      assert v[..k - 1] == w;
    }
  }

  /** With the earlier men the same, a group's digit follows the order of its squares. */
  lemma GroupDigitGrows(p: seq<int>, q: seq<int>, start: nat, m: nat, lo: int, hi: int, l: nat)
    requires |p| == |q| && start + m <= |p| && Distinct(p) && Distinct(q) && p[..start] == q[..start]
    requires Within(p, start + m, lo, hi) && Within(q, start + m, lo, hi)
    requires Ascending(p, start, start + m) && Ascending(q, start, start + m)
    requires l < m && ColexBefore(p[start..start + m], q[start..start + m], l)
    ensures GroupDigit(p, start, m, lo) < GroupDigit(q, start, m, lo)
  {
    var v, w := FreeNumbers(p, start, m, lo), FreeNumbers(q, start, m, lo);
    FreeNumbersGrow(p, start, m, lo, hi);
    FreeNumbersGrow(q, start, m, lo, hi);
    forall i | l <= i < m
      ensures if i == l then v[i] < w[i] else v[i] == w[i]
    {
      assert p[start..start + m][i] == p[start + i] && q[start..start + m][i] == q[start + i];
      FreeNumberAt(p, start, m, lo, i);
      FreeNumberAt(q, start, m, lo, i);
      FreeNumberInRange(p, start, start + i, lo, hi);
      FreeNumberInRange(q, start, start + i, lo, hi);
      if i == l { FreeRankGrows(p[..start], p[start + i], q[start + i]); }
    }
    SubsetNumberGrows(v, w, l);
  }

  // ---------- leading pawns ----------

  /** Leading pawns of one block are numbered by the flap number of the first, then by the twists of the
      others. */
  lemma PawnIndexGrows(enc: PawnEncoding, p: seq<int>, q: seq<int>, k: nat, l: nat)
    requires LeadingPawns(enc, p, k) && LeadingPawns(enc, q, k) && PawnBlock(enc, p[0]) == PawnBlock(enc, q[0])
    requires || FlapNat(enc, p[0]) < FlapNat(enc, q[0])
             || (p[0] == q[0] && l < k - 1 && ColexBefore(TwistsUp(enc, p, k), TwistsUp(enc, q, k), l))
    ensures PawnIndex(enc, p, k) < PawnIndex(enc, q, k)
  {
    if FlapNat(enc, p[0]) < FlapNat(enc, q[0]) {
      PawnIndexBound(enc, p, k);
      PawnIndexBound(enc, q, k);
      PawnStartsApart(enc, k - 1, FlapNat(enc, p[0]), FlapNat(enc, q[0]));
    } else {
      TwistsGoUp(enc, p, k);
      TwistsGoUp(enc, q, k);
      SubsetNumberGrows(TwistsUp(enc, p, k), TwistsUp(enc, q, k), l);
    }
  }
}
