/** The laws of chess the engine's board is meant to follow: what a piece attacks, and what making a
    move does to the pieces on the board. Nothing here knows about bitboards. */
module ChessRules {
  import opened Squares

  datatype Kind = Knight | Queen | Rook | Bishop | Pawn | King

  /** Ours is the side to move; our pawns go up the board. */
  datatype Piece = Piece(ours: bool, kind: Kind)

  type Position = map<Square, Piece>

  // ---------- attacks ----------

  ghost predicate AlongRank(occ: set<Square>, t: Square, s: Square) {
    exists d :: Straight(d) && Reaches(occ, t, d, s)
  }

  ghost predicate AlongDiagonal(occ: set<Square>, t: Square, s: Square) {
    exists d :: !Straight(d) && Reaches(occ, t, d, s)
  }

  predicate PawnHits(ours: bool, t: Square, s: Square) {
    Abs(s.file - t.file) == 1 && s.rank == t.rank + (if ours then 1 else -1)
  }

  /** The piece p standing on t attacks s. */
  ghost predicate Hits(occ: set<Square>, p: Piece, t: Square, s: Square) {
    match p.kind
    case King => KingStep(t, s)
    case Knight => KnightStep(t, s)
    case Pawn => PawnHits(p.ours, t, s)
    case Rook => AlongRank(occ, t, s)
    case Bishop => AlongDiagonal(occ, t, s)
    case Queen => AlongRank(occ, t, s) || AlongDiagonal(occ, t, s)
  }

  ghost predicate Attacked(pos: Position, byOurs: bool, s: Square) {
    exists t :: t in pos && pos[t].ours == byOurs && Hits(pos.Keys, pos[t], t, s)
  }

  /** Lines can be looked along from both ends. */
  lemma ReachesBack(occ: set<Square>, s: Square, d: Dir, t: Square)
    requires Reaches(occ, s, d, t)
    ensures Reaches(occ, t, Opposite(d), s) && Straight(d) == Straight(Opposite(d))
  {
    var k: nat :| 1 <= k && t == At(s, d, k) && Clear(occ, s, d, 1, k);
    forall i | 1 <= i < k
      ensures At(t, Opposite(d), i) !in occ
    {
      TwoWays(s, d, k, i);
      ClearAt(occ, s, d, 1, k, k - i);
    }
    ClearFrom(occ, t, Opposite(d), 1, k);
    TwoWays(s, d, k, k);
    assert s == At(t, Opposite(d), k);
  }

  lemma AlongRankBack(occ: set<Square>, s: Square, t: Square)
    ensures AlongRank(occ, s, t) <==> AlongRank(occ, t, s)
  {
    if AlongRank(occ, s, t) {
      var d :| Straight(d) && Reaches(occ, s, d, t);
      ReachesBack(occ, s, d, t);
    }
    if AlongRank(occ, t, s) {
      var d :| Straight(d) && Reaches(occ, t, d, s);
      ReachesBack(occ, t, d, s);
    }
  }

  lemma AlongDiagonalBack(occ: set<Square>, s: Square, t: Square)
    ensures AlongDiagonal(occ, s, t) <==> AlongDiagonal(occ, t, s)
  {
    if AlongDiagonal(occ, s, t) {
      var d :| !Straight(d) && Reaches(occ, s, d, t);
      ReachesBack(occ, s, d, t);
    }
    if AlongDiagonal(occ, t, s) {
      var d :| !Straight(d) && Reaches(occ, t, d, s);
      ReachesBack(occ, t, d, s);
    }
  }

  // ---------- making a move ----------

  /** What a move does besides going from one square to another. A castling move goes from the king
      to its own rook. */
  datatype Special = Ordinary | Promote(kind: Kind) | Castle | EnPassant

  datatype Move = Move(from: Square, to: Square, special: Special)

  function KingAfterCastling(m: Move): Square { Square(if m.to.file > m.from.file then 6 else 2, 0) }

  function RookAfterCastling(m: Move): Square { Square(if m.to.file > m.from.file then 5 else 3, 0) }

  /** The pawn taken en passant stands beside the moving pawn, on the fifth rank. */
  function TakenEnPassant(m: Move): Square { Square(m.to.file, 4) }

  function MakeMove(pos: Position, m: Move): Position
    requires m.from in pos
  {
    match m.special
    case Castle =>
      (pos - {m.from, m.to})[KingAfterCastling(m) := Piece(true, King)][RookAfterCastling(m) := Piece(true, Rook)]
    case EnPassant => (pos - {m.from, TakenEnPassant(m)})[m.to := pos[m.from]]
    case Promote(kind) => (pos - {m.from})[m.to := Piece(true, kind)]
    case Ordinary => (pos - {m.from})[m.to := pos[m.from]]
  }

  /** No king of ours is attacked. */
  ghost predicate KingSafe(pos: Position) {
    forall s | s in pos && pos[s] == Piece(true, King) :: !Attacked(pos, false, s)
  }
}
