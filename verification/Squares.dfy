/** Board squares, the eight directions, and looking along a line up to the first occupied square. */
module Squares {

  /** A square by file and rank, both counted from 0; a1 is (0, 0). */
  datatype Square = Square(file: int, rank: int)

  predicate OnBoard(s: Square) { 0 <= s.file < 8 && 0 <= s.rank < 8 }

  predicate AllOnBoard(squares: set<Square>) { forall s | s in squares :: OnBoard(s) }

  datatype Dir = North | South | East | West | NorthEast | NorthWest | SouthEast | SouthWest

  function Files(d: Dir): int {
    match d
    case North | South => 0
    case East | NorthEast | SouthEast => 1
    case West | NorthWest | SouthWest => -1
  }

  function Ranks(d: Dir): int {
    match d
    case East | West => 0
    case North | NorthEast | NorthWest => 1
    case South | SouthEast | SouthWest => -1
  }

  predicate Straight(d: Dir) { Files(d) == 0 || Ranks(d) == 0 }

  function Opposite(d: Dir): Dir {
    match d
    case North => South case South => North case East => West case West => East
    case NorthEast => SouthWest case SouthWest => NorthEast
    case NorthWest => SouthEast case SouthEast => NorthWest
  }

  const ROOK_DIRS: seq<Dir> := [North, South, East, West]
  const BISHOP_DIRS: seq<Dir> := [NorthEast, SouthEast, NorthWest, SouthWest]

  function Times(c: int, n: int): int { if c == 1 then n else if c == -1 then -n else 0 }

  /** The square n steps from s. */
  function At(s: Square, d: Dir, n: int): Square {
    Square(s.file + Times(Files(d), n), s.rank + Times(Ranks(d), n))
  }

  lemma OnBoardBetween(s: Square, d: Dir, i: int, n: int)
    requires OnBoard(s) && OnBoard(At(s, d, n)) && 0 <= i <= n
    ensures OnBoard(At(s, d, i)) && n <= 7
  {
  }

  /** No square is on two lines, or twice on one line. */
  lemma OneLine(s: Square, d: Dir, n: int, e: Dir, m: int)
    requires At(s, d, n) == At(s, e, m) && n >= 1 && m >= 1
    ensures d == e && n == m
  {
  }

  lemma TwoWays(s: Square, d: Dir, n: int, m: int)
    ensures At(At(s, d, n), d, m) == At(s, d, n + m)
    ensures At(At(s, d, n), Opposite(d), m) == At(s, d, n - m)
    ensures Opposite(Opposite(d)) == d
  {
  }

  /** The squares from lo to hi - 1 steps away are not in occ. */
  ghost predicate Clear(occ: set<Square>, s: Square, d: Dir, lo: int, hi: int)
    decreases hi - lo
  {
    hi <= lo || (At(s, d, lo) !in occ && Clear(occ, s, d, lo + 1, hi))
  }

  lemma {:induction false} ClearAt(occ: set<Square>, s: Square, d: Dir, lo: int, hi: int, i: int)
    requires Clear(occ, s, d, lo, hi) && lo <= i < hi
    ensures At(s, d, i) !in occ
    decreases hi - lo
  {
    if lo < i { ClearAt(occ, s, d, lo + 1, hi, i); }
  }

  lemma {:induction false} ClearFrom(occ: set<Square>, s: Square, d: Dir, lo: int, hi: int)
    requires forall i | lo <= i < hi :: At(s, d, i) !in occ
    ensures Clear(occ, s, d, lo, hi)
    decreases hi - lo
  {
    if lo < hi { ClearFrom(occ, s, d, lo + 1, hi); }
  }

  lemma {:induction false} ClearSplit(occ: set<Square>, s: Square, d: Dir, lo: int, mid: int, hi: int)
    requires lo <= mid <= hi
    ensures Clear(occ, s, d, lo, hi) <==> Clear(occ, s, d, lo, mid) && Clear(occ, s, d, mid, hi)
    decreases mid - lo
  {
    if lo < mid { ClearSplit(occ, s, d, lo + 1, mid, hi); }
  }

  /** How far away the first square of occ is, from n steps on; 0 when the line leaves the board. */
  function First(occ: set<Square>, s: Square, d: Dir, n: nat): nat
    decreases 8 - n, s, occ
  {
    if n > 7 || !OnBoard(At(s, d, n)) then 0
    else if At(s, d, n) in occ then n
    else First(occ, s, d, n + 1)
  }

  ghost predicate IsFirst(occ: set<Square>, s: Square, d: Dir, n: nat, k: nat) {
    n <= k && OnBoard(At(s, d, k)) && At(s, d, k) in occ && Clear(occ, s, d, n, k)
  }

  lemma {:induction false} FirstFound(occ: set<Square>, s: Square, d: Dir, n: nat)
    requires First(occ, s, d, n) > 0
    ensures IsFirst(occ, s, d, n, First(occ, s, d, n))
    decreases 8 - n
  {
    if At(s, d, n) !in occ { FirstFound(occ, s, d, n + 1); }
  }

  lemma {:induction false} FirstIs(occ: set<Square>, s: Square, d: Dir, n: nat, k: nat)
    requires OnBoard(s) && 0 < n && IsFirst(occ, s, d, n, k)
    ensures First(occ, s, d, n) == k
    decreases k - n
  {
    OnBoardBetween(s, d, n, k);
    if n < k { FirstIs(occ, s, d, n + 1, k); }
  }

  lemma {:induction false} FirstNone(occ: set<Square>, s: Square, d: Dir, n: nat, k: nat)
    requires OnBoard(s) && 0 < n <= k && First(occ, s, d, n) == 0 && OnBoard(At(s, d, k))
    ensures At(s, d, k) !in occ
    decreases k - n
  {
    OnBoardBetween(s, d, n, k);
    if n < k { FirstNone(occ, s, d, n + 1, k); }
  }

  // ---------- sliding attacks ----------

  /** The squares a slider on s reaches in one direction: up to and including the first occupied. */
  function RaySquares(occ: set<Square>, s: Square, d: Dir, n: nat): (squares: set<Square>)
    ensures AllOnBoard(squares)
    decreases 8 - n, s, occ
  {
    if n > 7 || !OnBoard(At(s, d, n)) then {}
    else if At(s, d, n) in occ then {At(s, d, n)}
    else {At(s, d, n)} + RaySquares(occ, s, d, n + 1)
  }

  lemma {:induction false} OnRay(occ: set<Square>, s: Square, d: Dir, n: nat, k: nat)
    requires OnBoard(s) && 0 < n <= k && OnBoard(At(s, d, k)) && Clear(occ, s, d, n, k)
    ensures At(s, d, k) in RaySquares(occ, s, d, n)
    decreases k - n
  {
    OnBoardBetween(s, d, n, k);
    if n < k { OnRay(occ, s, d, n + 1, k); }
  }

  lemma {:induction false} FindOnRay(occ: set<Square>, s: Square, d: Dir, n: nat, t: Square) returns (k: nat)
    requires t in RaySquares(occ, s, d, n)
    ensures n <= k && t == At(s, d, k) && OnBoard(t) && Clear(occ, s, d, n, k)
    decreases 8 - n
  {
    if t == At(s, d, n) { k := n; } else { k := FindOnRay(occ, s, d, n + 1, t); }
  }

  /** t is reached from s in direction d with nothing of occ in between. */
  ghost predicate Reaches(occ: set<Square>, s: Square, d: Dir, t: Square) {
    exists k: nat :: 1 <= k && t == At(s, d, k) && Clear(occ, s, d, 1, k)
  }

  function RookAttacks(s: Square, occ: set<Square>): (squares: set<Square>)
    ensures AllOnBoard(squares)
  {
    RaySquares(occ, s, North, 1) + RaySquares(occ, s, South, 1) + RaySquares(occ, s, East, 1)
      + RaySquares(occ, s, West, 1)
  }

  function BishopAttacks(s: Square, occ: set<Square>): (squares: set<Square>)
    ensures AllOnBoard(squares)
  {
    RaySquares(occ, s, NorthEast, 1) + RaySquares(occ, s, NorthWest, 1)
    + RaySquares(occ, s, SouthEast, 1) + RaySquares(occ, s, SouthWest, 1)
  }

  lemma RookAttacksAre(s: Square, occ: set<Square>, t: Square)
    requires OnBoard(s) && OnBoard(t)
    ensures t in RookAttacks(s, occ) <==> exists d :: Straight(d) && Reaches(occ, s, d, t)
  {
    forall d
      ensures t in RaySquares(occ, s, d, 1) <==> Reaches(occ, s, d, t)
    {
      RayMeets(s, d, t, occ);
    }
    assert Straight(North) && Straight(South) && Straight(East) && Straight(West);
  }

  lemma BishopAttacksAre(s: Square, occ: set<Square>, t: Square)
    requires OnBoard(s) && OnBoard(t)
    ensures t in BishopAttacks(s, occ) <==> exists d :: !Straight(d) && Reaches(occ, s, d, t)
  {
    forall d
      ensures t in RaySquares(occ, s, d, 1) <==> Reaches(occ, s, d, t)
    {
      RayMeets(s, d, t, occ);
    }
    assert !Straight(NorthEast) && !Straight(NorthWest) && !Straight(SouthEast) && !Straight(SouthWest);
  }

  lemma RayMeets(s: Square, d: Dir, t: Square, occ: set<Square>)
    requires OnBoard(s) && OnBoard(t)
    ensures t in RaySquares(occ, s, d, 1) <==> Reaches(occ, s, d, t)
  {
    if t in RaySquares(occ, s, d, 1) {
      var k := FindOnRay(occ, s, d, 1, t);
    }
    if Reaches(occ, s, d, t) {
      var k: nat :| 1 <= k && t == At(s, d, k) && Clear(occ, s, d, 1, k);
      OnRay(occ, s, d, 1, k);
    }
  }

  // ---------- steps ----------

  function Abs(x: int): int { if x < 0 then -x else x }

  predicate KnightStep(s: Square, t: Square) {
    var f, r := Abs(t.file - s.file), Abs(t.rank - s.rank);
    (f == 1 && r == 2) || (f == 2 && r == 1)
  }

  predicate KingStep(s: Square, t: Square) {
    s != t && Abs(t.file - s.file) <= 1 && Abs(t.rank - s.rank) <= 1
  }

  // ---------- numbering ----------

  function IndexSquare(i: nat): Square { Square(i % 8, i / 8) }

  function Index(s: Square): int { 8 * s.rank + s.file }

  lemma IndexOf(s: Square)
    requires OnBoard(s)
    ensures 0 <= Index(s) < 64 && IndexSquare(Index(s)) == s
  {
  }
}
