/** The constant tables that number squares for the endgame table index, and what they mean. */
module PlacementTables {

  /** One number for each square, rank by rank from a1. */
  type Table = t: seq<seq<int>> | |t| == 8 && forall r | 0 <= r < 8 :: |t[r]| == 8
    witness seq(8, _ => seq(8, _ => 0))

  predicate IsSquare(s: int) { 0 <= s < 64 }

  function At(t: Table, s: int): int
    requires IsSquare(s)
  {
    t[s / 8][s % 8]
  }

  const OFF_DIAG: Table := [
    [0, -1, -1, -1, -1, -1, -1, -1], [1, 0, -1, -1, -1, -1, -1, -1],
    [1, 1, 0, -1, -1, -1, -1, -1], [1, 1, 1, 0, -1, -1, -1, -1],
    [1, 1, 1, 1, 0, -1, -1, -1], [1, 1, 1, 1, 1, 0, -1, -1],
    [1, 1, 1, 1, 1, 1, 0, -1], [1, 1, 1, 1, 1, 1, 1, 0]]

  const TRIANGLE: Table := [
    [6, 0, 1, 2, 2, 1, 0, 6], [0, 7, 3, 4, 4, 3, 7, 0],
    [1, 3, 8, 5, 5, 8, 3, 1], [2, 4, 5, 9, 9, 5, 4, 2],
    [2, 4, 5, 9, 9, 5, 4, 2], [1, 3, 8, 5, 5, 8, 3, 1],
    [0, 7, 3, 4, 4, 3, 7, 0], [6, 0, 1, 2, 2, 1, 0, 6]]

  const FLIP_DIAG: Table := [
    [0, 8, 16, 24, 32, 40, 48, 56], [1, 9, 17, 25, 33, 41, 49, 57],
    [2, 10, 18, 26, 34, 42, 50, 58], [3, 11, 19, 27, 35, 43, 51, 59],
    [4, 12, 20, 28, 36, 44, 52, 60], [5, 13, 21, 29, 37, 45, 53, 61],
    [6, 14, 22, 30, 38, 46, 54, 62], [7, 15, 23, 31, 39, 47, 55, 63]]

  const LOWER: Table := [
    [28, 0, 1, 2, 3, 4, 5, 6], [0, 29, 7, 8, 9, 10, 11, 12],
    [1, 7, 30, 13, 14, 15, 16, 17], [2, 8, 13, 31, 18, 19, 20, 21],
    [3, 9, 14, 18, 32, 22, 23, 24], [4, 10, 15, 19, 22, 33, 25, 26],
    [5, 11, 16, 20, 23, 25, 34, 27], [6, 12, 17, 21, 24, 26, 27, 35]]

  const DIAG: Table := [
    [0, 0, 0, 0, 0, 0, 0, 8], [0, 1, 0, 0, 0, 0, 9, 0],
    [0, 0, 2, 0, 0, 10, 0, 0], [0, 0, 0, 3, 11, 0, 0, 0],
    [0, 0, 0, 12, 4, 0, 0, 0], [0, 0, 13, 0, 0, 5, 0, 0],
    [0, 14, 0, 0, 0, 0, 6, 0], [15, 0, 0, 0, 0, 0, 0, 7]]

  datatype PawnEncoding = ByFile | ByRank

  const FLAP_BY_FILE: Table := [
    [0, 0, 0, 0, 0, 0, 0, 0], [0, 6, 12, 18, 18, 12, 6, 0],
    [1, 7, 13, 19, 19, 13, 7, 1], [2, 8, 14, 20, 20, 14, 8, 2],
    [3, 9, 15, 21, 21, 15, 9, 3], [4, 10, 16, 22, 22, 16, 10, 4],
    [5, 11, 17, 23, 23, 17, 11, 5], [0, 0, 0, 0, 0, 0, 0, 0]]

  const FLAP_BY_RANK: Table := [
    [0, 0, 0, 0, 0, 0, 0, 0], [0, 1, 2, 3, 3, 2, 1, 0],
    [4, 5, 6, 7, 7, 6, 5, 4], [8, 9, 10, 11, 11, 10, 9, 8],
    [12, 13, 14, 15, 15, 14, 13, 12], [16, 17, 18, 19, 19, 18, 17, 16],
    [20, 21, 22, 23, 23, 22, 21, 20], [0, 0, 0, 0, 0, 0, 0, 0]]

  const TWIST_BY_FILE: Table := [
    [0, 0, 0, 0, 0, 0, 0, 0], [47, 35, 23, 11, 10, 22, 34, 46],
    [45, 33, 21, 9, 8, 20, 32, 44], [43, 31, 19, 7, 6, 18, 30, 42],
    [41, 29, 17, 5, 4, 16, 28, 40], [39, 27, 15, 3, 2, 14, 26, 38],
    [37, 25, 13, 1, 0, 12, 24, 36], [0, 0, 0, 0, 0, 0, 0, 0]]

  const TWIST_BY_RANK: Table := [
    [0, 0, 0, 0, 0, 0, 0, 0], [47, 45, 43, 41, 40, 42, 44, 46],
    [39, 37, 35, 33, 32, 34, 36, 38], [31, 29, 27, 25, 24, 26, 28, 30],
    [23, 21, 19, 17, 16, 18, 20, 22], [15, 13, 11, 9, 8, 10, 12, 14],
    [7, 5, 3, 1, 0, 2, 4, 6], [0, 0, 0, 0, 0, 0, 0, 0]]

  const FILE_TO_FILE: seq<int> := [0, 1, 2, 3, 3, 2, 1, 0]

  function Flap(enc: PawnEncoding, s: int): int
    requires IsSquare(s)
  {
    if enc == ByFile then At(FLAP_BY_FILE, s) else At(FLAP_BY_RANK, s)
  }

  function Twist(enc: PawnEncoding, s: int): int
    requires IsSquare(s)
  {
    if enc == ByFile then At(TWIST_BY_FILE, s) else At(TWIST_BY_RANK, s)
  }

  predicate IsPawnSquare(s: int) { 8 <= s < 56 }

  // ---------- what the tables mean ----------

  predicate Above(s: int) { s / 8 > s % 8 }
  predicate OnDiagonal(s: int) { s / 8 == s % 8 }
  predicate Below(s: int) { s / 8 < s % 8 }

  lemma OffDiagSign(s: int)
    requires IsSquare(s)
    ensures At(OFF_DIAG, s) > 0 <==> Above(s)
    ensures At(OFF_DIAG, s) < 0 <==> Below(s)
  {
  }

  lemma FlipDiagTransposes(s: int)
    requires IsSquare(s)
    ensures At(FLIP_DIAG, s) == 8 * (s % 8) + s / 8
  {
  }

  lemma TriangleNumbers(s: int, t: int)
    requires IsSquare(s) && IsSquare(t) && s / 8 <= s % 8 <= 3 && t / 8 <= t % 8 <= 3
    ensures 0 <= At(TRIANGLE, s) < 10
    ensures Below(s) <==> At(TRIANGLE, s) < 6
    ensures At(TRIANGLE, s) == At(TRIANGLE, t) ==> s == t
  {
  }

  lemma DiagNumbers(s: int)
    requires IsSquare(s) && OnDiagonal(s)
    ensures At(DIAG, s) == s / 8 && s == 9 * (s / 8)
  {
  }

  function LowerRow(r: int): int {
    if r == 0 then 0 else if r == 1 then 7 else if r == 2 then 13 else if r == 3 then 18
    else if r == 4 then 22 else if r == 5 then 25 else 27
  }

  lemma LowerFormula(s: int)
    requires IsSquare(s) && Below(s)
    ensures At(LOWER, s) == LowerRow(s / 8) + s % 8 - s / 8 - 1
  {
  }

  lemma LowerRowsApart(r: int, f: int, r': int, f': int)
    requires 0 <= r < f < 8 && 0 <= r' < f' < 8
    requires LowerRow(r) + f - r == LowerRow(r') + f' - r'
    ensures r == r' && f == f'
  {
  }

  lemma LowerNumbers(s: int, t: int)
    requires IsSquare(s) && IsSquare(t) && Below(s) && Below(t)
    ensures 0 <= At(LOWER, s) < 28
    ensures At(LOWER, s) == At(LOWER, t) ==> s == t
  {
    LowerFormula(s);
    LowerFormula(t);
    if At(LOWER, s) == At(LOWER, t) {
      LowerRowsApart(s / 8, s % 8, t / 8, t % 8);
    }
  }

  /** The twist counts the flap down in steps of two, the right half of the board coming second. */
  lemma TwistFromFlap(enc: PawnEncoding, s: int)
    requires IsPawnSquare(s)
    ensures Twist(enc, s) == 47 - 2 * Flap(enc, s) - (if s % 8 >= 4 then 1 else 0)
    ensures 0 <= Flap(enc, s) < 24 && 0 <= Twist(enc, s) < 48
  {
    if s % 8 < 4 {
      FlapOfLeftHalf(enc, s);
      TwistOfLeftHalf(enc, s);
    } else {
      FlapOfRightHalf(enc, s);
      TwistOfRightHalf(enc, s);
    }
  }

  lemma TwistOfLeftHalf(enc: PawnEncoding, s: int)
    requires IsPawnSquare(s) && s % 8 < 4
    ensures enc == ByFile ==> Twist(enc, s) == 49 - 12 * (s % 8) - 2 * (s / 8)
    ensures enc == ByRank ==> Twist(enc, s) == 55 - 8 * (s / 8) - 2 * (s % 8)
  {
  }

  lemma TwistOfRightHalf(enc: PawnEncoding, s: int)
    requires IsPawnSquare(s) && s % 8 >= 4
    ensures enc == ByFile ==> Twist(enc, s) == 12 * (s % 8) - 2 * (s / 8) - 36
    ensures enc == ByRank ==> Twist(enc, s) == 40 - 8 * (s / 8) + 2 * (s % 8)
  {
  }

  lemma FlapOfRightHalf(enc: PawnEncoding, s: int)
    requires IsPawnSquare(s) && s % 8 >= 4
    ensures enc == ByFile ==> Flap(enc, s) == 6 * (7 - s % 8) + s / 8 - 1
    ensures enc == ByRank ==> Flap(enc, s) == 4 * (s / 8 - 1) + 7 - s % 8
  {
  }

  lemma FlapOfLeftHalf(enc: PawnEncoding, s: int)
    requires IsPawnSquare(s) && s % 8 < 4
    ensures enc == ByFile ==> Flap(enc, s) == 6 * (s % 8) + s / 8 - 1
    ensures enc == ByRank ==> Flap(enc, s) == 4 * (s / 8 - 1) + s % 8
  {
  }

  lemma LeftFlapInjective(enc: PawnEncoding, s: int, t: int)
    requires IsPawnSquare(s) && IsPawnSquare(t) && s % 8 < 4 && t % 8 < 4
    requires Flap(enc, s) == Flap(enc, t)
    ensures s == t
  {
    FlapOfLeftHalf(enc, s);
    FlapOfLeftHalf(enc, t);
    LeftCoordinates(s / 8, s % 8, t / 8, t % 8);
  }

  lemma LeftCoordinates(r: int, f: int, r': int, f': int)
    requires 1 <= r < 7 && 0 <= f < 4 && 1 <= r' < 7 && 0 <= f' < 4
    requires 6 * f + r == 6 * f' + r' || 4 * r + f == 4 * r' + f'
    ensures r == r' && f == f'
  {
  }

  /** Flap and board half give the square back. */
  lemma FlapAndHalf(enc: PawnEncoding, s: int, t: int)
    requires IsPawnSquare(s) && IsPawnSquare(t) && Flap(enc, s) == Flap(enc, t)
    requires (s % 8 < 4) == (t % 8 < 4)
    ensures s == t
  {
    if s % 8 < 4 {
      LeftFlapInjective(enc, s, t);
    } else {
      FlapIgnoresFlip(enc, s);
      FlapIgnoresFlip(enc, t);
      FlipCoordinates(s);
      FlipCoordinates(t);
      LeftFlapInjective(enc, FlipFile(s), FlipFile(t));
    }
  }

  lemma FlipCoordinates(s: int)
    ensures FlipFile(s) / 8 == s / 8 && FlipFile(s) % 8 == 7 - s % 8
  {
  }

  lemma TwistInjective(enc: PawnEncoding, s: int, t: int)
    requires IsPawnSquare(s) && IsPawnSquare(t) && Twist(enc, s) == Twist(enc, t)
    ensures s == t
  {
    TwistFromFlap(enc, s);
    TwistFromFlap(enc, t);
    FlapAndHalf(enc, s, t);
  }

  lemma FlapIgnoresFlip(enc: PawnEncoding, s: int)
    requires IsPawnSquare(s)
    ensures IsPawnSquare(FlipFile(s)) && Flap(enc, FlipFile(s)) == Flap(enc, s)
  {
    FlipCoordinates(s);
    if s % 8 < 4 {
      FlapOfLeftHalf(enc, s);
      FlapOfRightHalf(enc, FlipFile(s));
    } else {
      FlapOfRightHalf(enc, s);
      FlapOfLeftHalf(enc, FlipFile(s));
    }
  }

  // ---------- symmetries ----------

  /** s ^ 0x07 */
  function FlipFile(s: int): int { 8 * (s / 8) + 7 - s % 8 }

  /** s ^ 0x38 */
  function FlipRank(s: int): int { 8 * (7 - s / 8) + s % 8 }

  function Transpose(s: int): int { 8 * (s % 8) + s / 8 }

  /** Flip the files, then the ranks, then transpose. */
  datatype Symmetry = Symmetry(files: bool, ranks: bool, diagonal: bool)

  function Move(g: Symmetry, s: int): (t: int)
    requires IsSquare(s)
    ensures IsSquare(t)
  {
    MaybeTranspose(g, MaybeFlipRank(g, MaybeFlipFile(g, s)))
  }

  function MaybeFlipFile(g: Symmetry, s: int): (t: int)
    requires IsSquare(s)
    ensures IsSquare(t)
  {
    if g.files then FlipFile(s) else s
  }

  function MaybeFlipRank(g: Symmetry, s: int): (t: int)
    requires IsSquare(s)
    ensures IsSquare(t)
  {
    if g.ranks then FlipRank(s) else s
  }

  function MaybeTranspose(g: Symmetry, s: int): (t: int)
    requires IsSquare(s)
    ensures IsSquare(t)
  {
    if g.diagonal then Transpose(s) else s
  }

  predicate AreSquares(p: seq<int>) { forall i | 0 <= i < |p| :: IsSquare(p[i]) }

  function MoveAll(g: Symmetry, p: seq<int>): (q: seq<int>)
    requires AreSquares(p)
    ensures |q| == |p| && AreSquares(q)
    ensures forall i | 0 <= i < |p| :: q[i] == Move(g, p[i])
  {
    seq(|p|, i requires 0 <= i < |p| => Move(g, p[i]))
  }

  lemma SymmetryCoordinates(s: int)
    requires IsSquare(s)
    ensures FlipFile(s) / 8 == s / 8 && FlipFile(s) % 8 == 7 - s % 8
    ensures FlipRank(s) / 8 == 7 - s / 8 && FlipRank(s) % 8 == s % 8
    ensures Transpose(s) / 8 == s % 8 && Transpose(s) % 8 == s / 8
  {
  }

  lemma FlipsInjective(s: int, t: int)
    requires IsSquare(s) && IsSquare(t)
    ensures FlipFile(s) == FlipFile(t) ==> s == t
    ensures FlipRank(s) == FlipRank(t) ==> s == t
    ensures Transpose(s) == Transpose(t) ==> s == t
  {
    SymmetryCoordinates(s);
    SymmetryCoordinates(t);
  }

  lemma MoveInjective(g: Symmetry, s: int, t: int)
    requires IsSquare(s) && IsSquare(t) && Move(g, s) == Move(g, t)
    ensures s == t
  {
    var a, b := MaybeFlipFile(g, s), MaybeFlipFile(g, t);
    FlipsInjective(MaybeFlipRank(g, a), MaybeFlipRank(g, b));
    FlipsInjective(a, b);
    FlipsInjective(s, t);
  }
}
