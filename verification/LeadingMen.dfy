/** Numbering the men that lead a placement: two kings, three unlike pieces, or the leading pawns. */
module LeadingMen {
  import opened Binomials
  import opened PlacementTables

  predicate Touching(s: int, t: int) {
    -1 <= s / 8 - t / 8 <= 1 && -1 <= s % 8 - t % 8 <= 1
  }

  /** The assumed contents of the king-pair table: a number below 462 for every pair of kings that
      do not touch, the first in the triangle a1-d1-d4, no two pairs sharing one. */
  type KingTable = seq<seq<int>>

  ghost predicate KingPair(a: int, b: int) {
    && IsSquare(a) && IsSquare(b) && !Touching(a, b)
    && a / 8 <= a % 8 <= 3 && (OnDiagonal(a) ==> !Above(b))
  }

  function KingIndex(kk: KingTable, a: int, b: int): int
    requires |kk| == 10 && (forall i | 0 <= i < 10 :: |kk[i]| == 64)
    requires IsSquare(a) && IsSquare(b) && a / 8 <= a % 8 <= 3
  {
    TriangleNumbers(a, a);
    kk[At(TRIANGLE, a)][b]
  }

  ghost predicate NumbersKings(kk: KingTable) {
    && |kk| == 10 && (forall i | 0 <= i < 10 :: |kk[i]| == 64)
    && (forall a, b | KingPair(a, b) :: 0 <= KingIndex(kk, a, b) < 462)
    && forall a, b, c, d | KingPair(a, b) && KingPair(c, d) && KingIndex(kk, a, b) == KingIndex(kk, c, d) ::
         a == c && b == d
  }

  function One(b: bool): int { if b then 1 else 0 }

  /** The number of three unlike leading men, by how many of them are on the diagonal. */
  function ThreeIndex(a: int, b: int, c: int): int
    requires IsSquare(a) && IsSquare(b) && IsSquare(c)
  {
    var s1 := One(b > a);
    var s2 := One(c > a) + One(c > b);
    if At(OFF_DIAG, a) != 0 then
      At(TRIANGLE, a) * 63 * 62 + (b - s1) * 62 + (c - s2)
    else if At(OFF_DIAG, b) != 0 then
      6 * 63 * 62 + At(DIAG, a) * 28 * 62 + At(LOWER, b) * 62 + c - s2
    else if At(OFF_DIAG, c) != 0 then
      6 * 63 * 62 + 4 * 28 * 62 + At(DIAG, a) * 7 * 28 + (At(DIAG, b) - s1) * 28 + At(LOWER, c)
    else
      6 * 63 * 62 + 4 * 28 * 62 + 4 * 7 * 28 + At(DIAG, a) * 7 * 6 + (At(DIAG, b) - s1) * 6 + (At(DIAG, c) - s2)
  }

  /** The digits of p0 relative to the already placed men: position among the squares they left. */
  lemma SkipDigits(a: int, b: int, c: int)
    requires IsSquare(a) && IsSquare(b) && IsSquare(c) && a != b && a != c && b != c
    ensures 0 <= b - One(b > a) < 63
    ensures 0 <= c - One(c > a) - One(c > b) < 62
  {
  }

  lemma SkipDigitsInjective(a: int, b: int, c: int, b': int, c': int)
    requires a != b && a != c && b != c && a != b' && a != c' && b' != c'
    requires b - One(b > a) == b' - One(b' > a)
    ensures b == b'
    ensures c - One(c > a) - One(c > b) == c' - One(c' > a) - One(c' > b') ==> c == c'
  {
  }

  lemma DiagonalOrder(s: int, t: int)
    requires IsSquare(s) && IsSquare(t) && OnDiagonal(s) && OnDiagonal(t)
    ensures s > t <==> At(DIAG, s) > At(DIAG, t)
    ensures At(DIAG, s) == At(DIAG, t) ==> s == t
    ensures 0 <= At(DIAG, s) < 8
  {
    DiagNumbers(s);
    DiagNumbers(t);
  }

  ghost predicate LeadingThree(a: int, b: int, c: int) {
    && IsSquare(a) && IsSquare(b) && IsSquare(c) && a != b && a != c && b != c
    && a / 8 <= 3 && a % 8 <= 3 && !Above(a)
    && (OnDiagonal(a) ==> !Above(b))
    && (OnDiagonal(a) && OnDiagonal(b) ==> !Above(c))
  }

  /** Which of the four ranges of numbers a leading triple falls into. */
  lemma ThreeIndexRange(a: int, b: int, c: int)
    requires LeadingThree(a, b, c)
    ensures 0 <= ThreeIndex(a, b, c) < 31332
    ensures Below(a) <==> ThreeIndex(a, b, c) < 6 * 63 * 62
    ensures OnDiagonal(a) && Below(b) <==> 6 * 63 * 62 <= ThreeIndex(a, b, c) < 6 * 63 * 62 + 4 * 28 * 62
    ensures OnDiagonal(a) && OnDiagonal(b) && Below(c) <==>
            6 * 63 * 62 + 4 * 28 * 62 <= ThreeIndex(a, b, c) < 6 * 63 * 62 + 4 * 28 * 62 + 4 * 7 * 28
  {
    OffDiagSign(a); OffDiagSign(b); OffDiagSign(c);
    SkipDigits(a, b, c);
    TriangleNumbers(a, a);
    if OnDiagonal(a) { DiagNumbers(a); }
    if Below(b) { LowerNumbers(b, b); }
    if Below(c) { LowerNumbers(c, c); }
    if OnDiagonal(a) && OnDiagonal(b) {
      DiagonalOrder(b, a);
      if OnDiagonal(c) { DiagonalOrder(c, a); DiagonalOrder(c, b); }
    }
  }

  lemma RadixOffDiagonal(x: int, y: int, z: int, x': int, y': int, z': int)
    requires 0 <= y < 63 && 0 <= y' < 63 && 0 <= z < 62 && 0 <= z' < 62
    requires x * 63 * 62 + y * 62 + z == x' * 63 * 62 + y' * 62 + z'
    ensures x == x' && y == y' && z == z'
  {
  }

  lemma RadixOneDiagonal(x: int, y: int, z: int, x': int, y': int, z': int)
    requires 0 <= y < 28 && 0 <= y' < 28 && 0 <= z < 62 && 0 <= z' < 62
    requires x * 28 * 62 + y * 62 + z == x' * 28 * 62 + y' * 62 + z'
    ensures x == x' && y == y' && z == z'
  {
  }

  lemma RadixTwoDiagonal(x: int, y: int, z: int, x': int, y': int, z': int)
    requires 0 <= y < 7 && 0 <= y' < 7 && 0 <= z < 28 && 0 <= z' < 28
    requires x * 7 * 28 + y * 28 + z == x' * 7 * 28 + y' * 28 + z'
    ensures x == x' && y == y' && z == z'
  {
  }

  lemma RadixAllDiagonal(x: int, y: int, z: int, x': int, y': int, z': int)
    requires 0 <= y < 7 && 0 <= y' < 7 && 0 <= z < 6 && 0 <= z' < 6
    requires x * 7 * 6 + y * 6 + z == x' * 7 * 6 + y' * 6 + z'
    ensures x == x' && y == y' && z == z'
  {
  }

  lemma SameOffDiagonal(a: int, b: int, c: int, a': int, b': int, c': int)
    requires LeadingThree(a, b, c) && LeadingThree(a', b', c') && Below(a) && Below(a')
    requires ThreeIndex(a, b, c) == ThreeIndex(a', b', c')
    ensures a == a' && b == b' && c == c'
  {
    OffDiagSign(a); OffDiagSign(a');
    SkipDigits(a, b, c); SkipDigits(a', b', c');
    RadixOffDiagonal(At(TRIANGLE, a), b - One(b > a), c - One(c > a) - One(c > b),
                     At(TRIANGLE, a'), b' - One(b' > a'), c' - One(c' > a') - One(c' > b'));
    TriangleNumbers(a, a');
    SkipDigitsInjective(a, b, c, b', c');
  }

  lemma SameOneDiagonal(a: int, b: int, c: int, a': int, b': int, c': int)
    requires LeadingThree(a, b, c) && LeadingThree(a', b', c')
    requires OnDiagonal(a) && OnDiagonal(a') && Below(b) && Below(b')
    requires ThreeIndex(a, b, c) == ThreeIndex(a', b', c')
    ensures a == a' && b == b' && c == c'
  {
    OffDiagSign(a); OffDiagSign(a'); OffDiagSign(b); OffDiagSign(b');
    SkipDigits(a, b, c); SkipDigits(a', b', c');
    LowerNumbers(b, b'); LowerNumbers(b', b');
    RadixOneDiagonal(At(DIAG, a), At(LOWER, b), c - One(c > a) - One(c > b),
                     At(DIAG, a'), At(LOWER, b'), c' - One(c' > a') - One(c' > b'));
    DiagonalOrder(a, a');
    SkipDigitsInjective(a, b, c, b', c');
  }

  lemma SameTwoDiagonal(a: int, b: int, c: int, a': int, b': int, c': int)
    requires LeadingThree(a, b, c) && LeadingThree(a', b', c')
    requires OnDiagonal(a) && OnDiagonal(a') && OnDiagonal(b) && OnDiagonal(b') && Below(c) && Below(c')
    requires ThreeIndex(a, b, c) == ThreeIndex(a', b', c')
    ensures a == a' && b == b' && c == c'
  {
    OffDiagSign(a); OffDiagSign(a'); OffDiagSign(b); OffDiagSign(b'); OffDiagSign(c); OffDiagSign(c');
    LowerNumbers(c, c'); LowerNumbers(c', c');
    DiagonalOrder(b, a); DiagonalOrder(b', a'); DiagonalOrder(a, a'); DiagonalOrder(b, b');
    RadixTwoDiagonal(At(DIAG, a), At(DIAG, b) - One(b > a), At(LOWER, c),
                     At(DIAG, a'), At(DIAG, b') - One(b' > a'), At(LOWER, c'));
  }

  lemma SameAllDiagonal(a: int, b: int, c: int, a': int, b': int, c': int)
    requires LeadingThree(a, b, c) && LeadingThree(a', b', c')
    requires OnDiagonal(a) && OnDiagonal(a') && OnDiagonal(b) && OnDiagonal(b') && OnDiagonal(c) && OnDiagonal(c')
    requires ThreeIndex(a, b, c) == ThreeIndex(a', b', c')
    ensures a == a' && b == b' && c == c'
  {
    DiagonalDigits(a, b, c);
    DiagonalDigits(a', b', c');
    PeelDiagonal(a / 8, b / 8, c / 8, a' / 8, b' / 8, c' / 8);
    OnDiagonalIs(a, a'); OnDiagonalIs(b, b'); OnDiagonalIs(c, c');
  }

  /** The last three digits of a number in the last range. */
  function LastDigits(x: int, y: int, z: int): int {
    x * 7 * 6 + (y - One(y > x)) * 6 + (z - One(z > x) - One(z > y))
  }

  ghost predicate DiagonalTriple(x: int, y: int, z: int) {
    && x != y && x != z && y != z
    && 0 <= y - One(y > x) < 7 && 0 <= z - One(z > x) - One(z > y) < 6
  }

  lemma DiagonalDigits(a: int, b: int, c: int)
    requires LeadingThree(a, b, c) && OnDiagonal(a) && OnDiagonal(b) && OnDiagonal(c)
    ensures DiagonalTriple(a / 8, b / 8, c / 8)
    ensures LastDigits(a / 8, b / 8, c / 8) == ThreeIndex(a, b, c) - 6 * 63 * 62 - 4 * 28 * 62 - 4 * 7 * 28
  {
    ThreeOnDiagonal(a, b, c);
  }

  lemma OnDiagonalIs(s: int, t: int)
    requires OnDiagonal(s) && OnDiagonal(t) && s / 8 == t / 8
    ensures s == t
  {
  }

  lemma ThreeOnDiagonal(a: int, b: int, c: int)
    requires LeadingThree(a, b, c) && OnDiagonal(a) && OnDiagonal(b) && OnDiagonal(c)
    ensures var (x, y, z) := (a / 8, b / 8, c / 8);
            && x != y && x != z && y != z
            && 0 <= y - One(y > x) < 7 && 0 <= z - One(z > x) - One(z > y) < 6
            && ThreeIndex(a, b, c) == 6 * 63 * 62 + 4 * 28 * 62 + 4 * 7 * 28 + x * 7 * 6
                                      + (y - One(y > x)) * 6 + (z - One(z > x) - One(z > y))
  {
    OffDiagSign(a); OffDiagSign(b); OffDiagSign(c);
    DiagNumbers(a); DiagNumbers(b); DiagNumbers(c);
  }

  lemma PeelDiagonal(x: int, y: int, z: int, x': int, y': int, z': int)
    requires DiagonalTriple(x, y, z) && DiagonalTriple(x', y', z') && LastDigits(x, y, z) == LastDigits(x', y', z')
    ensures x == x' && y == y' && z == z'
  {
    RadixAllDiagonal(x, y - One(y > x), z - One(z > x) - One(z > y),
                     x', y' - One(y' > x'), z' - One(z' > x') - One(z' > y'));
    SkipDigitsInjective(x, y, z, y', z');
  }

  lemma ThreeIndexInjective(a: int, b: int, c: int, a': int, b': int, c': int)
    requires LeadingThree(a, b, c) && LeadingThree(a', b', c')
    requires ThreeIndex(a, b, c) == ThreeIndex(a', b', c')
    ensures a == a' && b == b' && c == c'
  {
    ThreeIndexRange(a, b, c);
    ThreeIndexRange(a', b', c');
    if Below(a) {
      SameOffDiagonal(a, b, c, a', b', c');
    } else if Below(b) {
      SameOneDiagonal(a, b, c, a', b', c');
    } else if Below(c) {
      SameTwoDiagonal(a, b, c, a', b', c');
    } else {
      SameAllDiagonal(a, b, c, a', b', c');
    }
  }

  // ---------- leading pawns ----------

  /** How many flap numbers share a file, or a rank. */
  function FlapBlock(enc: PawnEncoding): nat { if enc == ByFile then 6 else 4 }

  /** The square in the left half with a given flap number. */
  function FlapSquare(enc: PawnEncoding, j: nat): int {
    if enc == ByFile then (1 + j % 6) * 8 + j / 6 else (1 + j / 4) * 8 + j % 4
  }

  function FlapTwist(enc: PawnEncoding, j: nat): (t: nat)
    requires j < 24
    ensures t < 48
  {
    TwistFromFlap(enc, FlapSquare(enc, j));
    Twist(enc, FlapSquare(enc, j))
  }

  /** For each flap number, the placements of i more pawns behind a leading pawn there. */
  function Weights(enc: PawnEncoding, i: nat): (w: seq<nat>)
    ensures |w| == 24
  {
    seq(24, j requires 0 <= j < 24 => Choose(FlapTwist(enc, j), i))
  }

  predicate OpensBlock(m: nat, j: nat)
    requires m > 0
  {
    j % m == 0
  }

  /** The sum of the weights before j in j's block of size m. */
  ghost function BlockSum(w: seq<nat>, m: nat, j: nat): nat
    requires m > 0 && j <= |w|
  {
    if OpensBlock(m, j) then 0 else BlockSum(w, m, j - 1) + w[j - 1]
  }

  /** PawnIdx[enc][i][j]: the placements of i more pawns whose leading pawn comes earlier in the
      block of flap number j. */
  ghost function PawnStart(enc: PawnEncoding, i: nat, j: nat): nat
    requires j < 24
  {
    BlockSum(Weights(enc, i), FlapBlock(enc), j)
  }

  /** The last flap number of a block. */
  function BlockEnd(enc: PawnEncoding, b: nat): nat {
    if enc == ByFile then 6 * b + 5 else 4 * b + 3
  }

  /** PawnFactorFile / PawnFactorRank: all placements of i more pawns for one block. */
  ghost function PawnBlockSize(enc: PawnEncoding, i: nat, b: nat): nat
    requires BlockEnd(enc, b) < 24
  {
    PawnStart(enc, i, BlockEnd(enc, b)) + Weights(enc, i)[BlockEnd(enc, b)]
  }

  /** Fills both tables for one number of further pawns, by file; w are the binomials in flap order. */
  method InitPawnRowByFile(w: seq<nat>, pawnIdx: array<nat>, pawnFactor: array<nat>)
    requires |w| == 24 && pawnIdx.Length == 24 && pawnFactor.Length == 4 && pawnIdx != pawnFactor
    modifies pawnIdx, pawnFactor
    ensures forall j: nat | j < 24 :: pawnIdx[j] == BlockSum(w, 6, j)
    ensures forall b: nat | b < 4 :: pawnFactor[b] == BlockSum(w, 6, 6 * b + 5) + w[6 * b + 5]
  {
    var s := 0;
    for j := 0 to 24
      invariant s == BlockSum(w, 6, j)
      invariant forall l: nat | l < j :: pawnIdx[l] == BlockSum(w, 6, l)
      invariant forall b: nat | 6 * b + 5 < j :: pawnFactor[b] == BlockSum(w, 6, 6 * b + 5) + w[6 * b + 5]
    {
      pawnIdx[j] := s;
      s := s + w[j];
      if (j + 1) % 6 == 0 {
        pawnFactor[j / 6] := s;
        s := 0;
      }
    }
  }

  /** Fills both tables for one number of further pawns, by rank; w are the binomials in flap order. */
  method InitPawnRowByRank(w: seq<nat>, pawnIdx: array<nat>, pawnFactor: array<nat>)
    requires |w| == 24 && pawnIdx.Length == 24 && pawnFactor.Length == 6 && pawnIdx != pawnFactor
    modifies pawnIdx, pawnFactor
    ensures forall j: nat | j < 24 :: pawnIdx[j] == BlockSum(w, 4, j)
    ensures forall b: nat | b < 6 :: pawnFactor[b] == BlockSum(w, 4, 4 * b + 3) + w[4 * b + 3]
  {
    var s := 0;
    for j := 0 to 24
      invariant s == BlockSum(w, 4, j)
      invariant forall l: nat | l < j :: pawnIdx[l] == BlockSum(w, 4, l)
      invariant forall b: nat | 4 * b + 3 < j :: pawnFactor[b] == BlockSum(w, 4, 4 * b + 3) + w[4 * b + 3]
    {
      pawnIdx[j] := s;
      s := s + w[j];
      if (j + 1) % 4 == 0 {
        pawnFactor[j / 4] := s;
        s := 0;
      }
    }
  }

  method InitPawnTables(enc: PawnEncoding, i: nat) returns (pawnIdx: array<nat>, pawnFactor: array<nat>)
    ensures pawnIdx.Length == 24 && forall j: nat | j < 24 :: pawnIdx[j] == PawnStart(enc, i, j)
    ensures forall b: nat | b < pawnFactor.Length :: BlockEnd(enc, b) < 24 && pawnFactor[b] == PawnBlockSize(enc, i, b)
    ensures pawnFactor.Length == 24 / FlapBlock(enc)
  {
    pawnIdx := new nat[24];
    pawnFactor := new nat[24 / FlapBlock(enc)];
    match enc
    case ByFile => InitPawnRowByFile(Weights(enc, i), pawnIdx, pawnFactor);
    case ByRank => InitPawnRowByRank(Weights(enc, i), pawnIdx, pawnFactor);
  }

  lemma {:induction false} BlockSumsApart(w: seq<nat>, m: nat, j: nat, l: nat)
    requires m > 0 && j < l <= |w| && forall x: nat | j < x <= l :: !OpensBlock(m, x)
    ensures BlockSum(w, m, j) + w[j] <= BlockSum(w, m, l)
    decreases l
  {
    assert !OpensBlock(m, l);
    if j < l - 1 {
      BlockSumsApart(w, m, j, l - 1);
    }
  }

  lemma OneBlock(enc: PawnEncoding, j: nat, x: nat, l: nat)
    requires j < x <= l && j / FlapBlock(enc) == l / FlapBlock(enc)
    ensures !OpensBlock(FlapBlock(enc), x)
  {
    match enc
    case ByFile =>
    case ByRank =>
  }

  /** Later flap numbers of a block start behind everything the earlier ones can reach. */
  lemma PawnStartsApart(enc: PawnEncoding, i: nat, j: nat, l: nat)
    requires j < l < 24 && j / FlapBlock(enc) == l / FlapBlock(enc)
    ensures PawnStart(enc, i, j) + Weights(enc, i)[j] <= PawnStart(enc, i, l)
  {
    forall x: nat | j < x <= l
      ensures !OpensBlock(FlapBlock(enc), x)
    {
      OneBlock(enc, j, x, l);
    }
    BlockSumsApart(Weights(enc, i), FlapBlock(enc), j, l);
  }

  lemma BlockEndOf(enc: PawnEncoding, j: nat)
    requires j < 24
    ensures var e := BlockEnd(enc, j / FlapBlock(enc)); j <= e < 24 && e / FlapBlock(enc) == j / FlapBlock(enc)
  {
    match enc
    case ByFile =>
    case ByRank =>
  }

  lemma PawnStartInBlock(enc: PawnEncoding, i: nat, j: nat)
    requires j < 24
    ensures BlockEnd(enc, j / FlapBlock(enc)) < 24
    ensures PawnStart(enc, i, j) + Weights(enc, i)[j] <= PawnBlockSize(enc, i, j / FlapBlock(enc))
  {
    BlockEndOf(enc, j);
    var e := BlockEnd(enc, j / FlapBlock(enc));
    forall x: nat | j < x <= e
      ensures !OpensBlock(FlapBlock(enc), x)
    {
      OneBlock(enc, j, x, e);
    }
    WithinBlockEnd(Weights(enc, i), FlapBlock(enc), j, e);
  }

  lemma WithinBlockEnd(w: seq<nat>, m: nat, j: nat, e: nat)
    requires m > 0 && j <= e < |w| && forall x: nat | j < x <= e :: !OpensBlock(m, x)
    ensures BlockSum(w, m, j) + w[j] <= BlockSum(w, m, e) + w[e]
  {
    if j < e {
      BlockSumsApart(w, m, j, e);
    }
  }

  /** The twists of the pawns behind the leading one, smallest first. */
  ghost function TwistsUp(enc: PawnEncoding, p: seq<int>, k: nat): (v: seq<nat>)
    requires 1 <= k <= |p| && forall i | 0 <= i < k :: IsPawnSquare(p[i])
    ensures |v| == k - 1 && forall i | 0 <= i < k - 1 :: v[i] == TwistNat(enc, p[k - 1 - i])
  {
    seq(k - 1, i requires 0 <= i < k - 1 => TwistNat(enc, p[k - 1 - i]))
  }

  function TwistNat(enc: PawnEncoding, s: int): (t: nat)
    requires IsPawnSquare(s)
    ensures t == Twist(enc, s)
  {
    TwistFromFlap(enc, s);
    Twist(enc, s)
  }

  ghost predicate LeadingPawns(enc: PawnEncoding, p: seq<int>, k: nat) {
    && 1 <= k <= |p| && (forall i | 0 <= i < k :: IsPawnSquare(p[i]))
    && p[0] % 8 < 4
    && forall i, j | 0 <= i < j < k :: Twist(enc, p[i]) > Twist(enc, p[j])
  }

  function FlapNat(enc: PawnEncoding, s: int): (j: nat)
    requires IsPawnSquare(s)
    ensures j < 24
  {
    TwistFromFlap(enc, s);
    Flap(enc, s)
  }

  /** The number of the leading pawns within their block. */
  ghost function PawnIndex(enc: PawnEncoding, p: seq<int>, k: nat): nat
    requires LeadingPawns(enc, p, k)
  {
    PawnStart(enc, k - 1, FlapNat(enc, p[0])) + SubsetNumber(TwistsUp(enc, p, k))
  }

  /** The block, t, of a placement: the file or the rank of its leading pawn. */
  function PawnBlock(enc: PawnEncoding, s: int): nat
    requires IsPawnSquare(s)
  {
    FlapNat(enc, s) / FlapBlock(enc)
  }

  lemma FlapSquareOf(enc: PawnEncoding, s: int)
    requires IsPawnSquare(s) && s % 8 < 4
    ensures FlapSquare(enc, FlapNat(enc, s)) == s
    ensures PawnBlock(enc, s) == if enc == ByFile then s % 8 else s / 8 - 1
  {
    FlapOfLeftHalf(enc, s);
  }

  lemma TwistsGoUp(enc: PawnEncoding, p: seq<int>, k: nat)
    requires LeadingPawns(enc, p, k)
    ensures Increasing(TwistsUp(enc, p, k))
    ensures k > 1 ==> TwistsUp(enc, p, k)[k - 2] < TwistNat(enc, p[0])
  {
    IncreasingFromPairs(TwistsUp(enc, p, k));
  }

  lemma PawnIndexBound(enc: PawnEncoding, p: seq<int>, k: nat)
    requires LeadingPawns(enc, p, k)
    ensures var j := FlapNat(enc, p[0]);
            PawnStart(enc, k - 1, j) <= PawnIndex(enc, p, k) < PawnStart(enc, k - 1, j) + Weights(enc, k - 1)[j]
    ensures BlockEnd(enc, PawnBlock(enc, p[0])) < 24
    ensures PawnIndex(enc, p, k) < PawnBlockSize(enc, k - 1, PawnBlock(enc, p[0]))
  {
    var v := TwistsUp(enc, p, k);
    FlapSquareOf(enc, p[0]);
    TwistsGoUp(enc, p, k);
    SubsetNumberBound(v, TwistNat(enc, p[0]));
    PawnStartInBlock(enc, k - 1, FlapNat(enc, p[0]));
  }

  lemma PawnIndexInjective(enc: PawnEncoding, p: seq<int>, q: seq<int>, k: nat)
    requires LeadingPawns(enc, p, k) && LeadingPawns(enc, q, k)
    requires PawnBlock(enc, p[0]) == PawnBlock(enc, q[0])
    requires PawnIndex(enc, p, k) == PawnIndex(enc, q, k)
    ensures p[..k] == q[..k]
  {
    SameLeadingPawn(enc, p, q, k);
    var v, w := TwistsUp(enc, p, k), TwistsUp(enc, q, k);
    TwistsGoUp(enc, p, k);
    TwistsGoUp(enc, q, k);
    SubsetNumberInjective(v, w);
    forall l | 1 <= l < k
      ensures p[l] == q[l]
    {
      assert v[k - 1 - l] == w[k - 1 - l];
      TwistInjective(enc, p[l], q[l]);
    }
  }

  lemma SameLeadingPawn(enc: PawnEncoding, p: seq<int>, q: seq<int>, k: nat)
    requires LeadingPawns(enc, p, k) && LeadingPawns(enc, q, k)
    requires PawnBlock(enc, p[0]) == PawnBlock(enc, q[0])
    requires PawnIndex(enc, p, k) == PawnIndex(enc, q, k)
    ensures p[0] == q[0]
  {
    PawnIndexBound(enc, p, k);
    PawnIndexBound(enc, q, k);
    FlapFromIndex(enc, k - 1, FlapNat(enc, p[0]), FlapNat(enc, q[0]), PawnIndex(enc, p, k));
    FlapSquareOf(enc, p[0]);
    FlapSquareOf(enc, q[0]);
  }

  lemma FlapFromIndex(enc: PawnEncoding, n: nat, i: nat, j: nat, index: nat)
    requires i < 24 && j < 24 && i / FlapBlock(enc) == j / FlapBlock(enc)
    requires PawnStart(enc, n, i) <= index < PawnStart(enc, n, i) + Weights(enc, n)[i]
    requires PawnStart(enc, n, j) <= index < PawnStart(enc, n, j) + Weights(enc, n)[j]
    ensures i == j
  {
    if i < j { PawnStartsApart(enc, n, i, j); }
    if j < i { PawnStartsApart(enc, n, j, i); }
  }
}
