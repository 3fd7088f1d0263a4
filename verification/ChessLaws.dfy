/** The laws of chess for the side to move: which moves may be made, and what remains of the rights to
    castle and to take en passant. Like the rules they build on, they know nothing about bitboards. */
module ChessLaws {
  import opened Squares
  import opened ChessRules

  /** What the laws depend on: the pieces, the rooks that may still castle with their king, and the
      squares passed by a pawn that may be taken en passant. */
  datatype Situation = Situation(pos: Position, castling: set<Square>, passed: set<Square>)

  predicate Has(pos: Position, s: Square, p: Piece) { s in pos && pos[s] == p }

  predicate HasOurs(pos: Position, s: Square) { s in pos && pos[s].ours }

  predicate HasTheirs(pos: Position, s: Square) { s in pos && !pos[s].ours }

  // ---------- moves ----------

  /** The man attacks the square it goes to, and none of ours stands there. */
  ghost predicate Reaching(pos: Position, m: Move) {
    m.from in pos && OnBoard(m.to) && Hits(pos.Keys, pos[m.from], m.from, m.to) && !HasOurs(pos, m.to)
  }

  /** On a way along the first rank, both ends included. */
  predicate OnWay(s: Square, a: Square, b: Square) {
    s.rank == 0 && (a.file <= s.file <= b.file || b.file <= s.file <= a.file)
  }

  /** Castling: the right is held, only the two castling men stand on their ways, and the king does not
      start from or pass an attacked square. */
  ghost predicate MayCastle(g: Situation, m: Move) {
    var k, r := KingAfterCastling(m), RookAfterCastling(m);
    && m.special.Castle? && m.from.rank == 0 && m.to.rank == 0 && m.to in g.castling
    && (forall s | s in g.pos && (OnWay(s, m.from, k) || OnWay(s, m.to, r)) :: s == m.from || s == m.to)
    && (forall s | OnWay(s, m.from, k) && (s != k || m.from == k) :: !Attacked(g.pos, false, s))
  }

  /** A pawn promotes to a queen, rook, bishop or knight if and only if it reaches the last rank. */
  predicate Promotes(m: Move) {
    if m.to.rank == 7 then
      m.special == Promote(Queen) || m.special == Promote(Rook) || m.special == Promote(Bishop)
      || m.special == Promote(Knight)
    else m.special == Ordinary
  }

  ghost predicate MayMovePawn(g: Situation, m: Move) {
    var ahead := Square(m.from.file, m.from.rank + 1);
    || (m.to == ahead && ahead !in g.pos && Promotes(m))
    || (m.from.rank == 1 && m.to == Square(m.from.file, 3) && m.special == Ordinary
        && ahead !in g.pos && m.to !in g.pos)
    || (Reaching(g.pos, m) && HasTheirs(g.pos, m.to) && Promotes(m))
    || (Reaching(g.pos, m) && m.to in g.passed && m.special == EnPassant)
  }

  /** A move that may be made if it leaves the own king unattacked. */
  ghost predicate MayMove(g: Situation, m: Move) {
    && HasOurs(g.pos, m.from)
    && match g.pos[m.from].kind
       case King => (m.special == Ordinary && Reaching(g.pos, m)) || MayCastle(g, m)
       case Pawn => MayMovePawn(g, m)
       case _ => m.special == Ordinary && Reaching(g.pos, m)
  }

  /** A legal move. */
  ghost predicate Lawful(g: Situation, m: Move) {
    MayMove(g, m) && KingSafe(MakeMove(g.pos, m))
  }

  // ---------- what a move leaves behind ----------

  /** A right is lost when its king moves, or its rook moves or is taken. */
  function CastlingAfter(g: Situation, m: Move): set<Square> {
    set s | s in g.castling && s != m.from && s != m.to && !(s.rank == 0 && Has(g.pos, m.from, Piece(true, King)))
  }

  /** A square passed by a pawn going two ranks can be entered by the pawns of theirs attacking it. */
  ghost predicate Exposes(pos: Position, m: Move, s: Square) {
    && Has(pos, m.from, Piece(true, Pawn)) && m.to.rank - m.from.rank == 2
    && s == Square(m.to.file, m.to.rank - 1)
    && exists t :: Has(pos, t, Piece(false, Pawn)) && PawnHits(false, t, s)
  }

  /** The situation after our move, seen as before. */
  ghost function AfterMove(g: Situation, m: Move): Situation
    requires m.from in g.pos
  {
    var between := Square(m.to.file, m.to.rank - 1);
    Situation(MakeMove(g.pos, m), CastlingAfter(g, m), if Exposes(g.pos, m, between) then {between} else {})
  }
}
