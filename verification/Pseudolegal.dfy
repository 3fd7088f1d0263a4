/** The moves the generator lists before checking our king's safety, and what applying them does. */
module Pseudolegal {
  import opened Squares
  import opened ChessRules
  import opened Boards

  // ---------- which moves are listed ----------

  predicate KingMove(b: Board, m: Move) {
    m.special.Ordinary? && m.from == b.ourKing && OnBoard(m.to) && KingStep(m.from, m.to)
    && m.to !in b.ours && !IsUnderAttack(b, m.to)
  }

  /** Every square of our first rank between two files is empty, but for the castling king and rook. */
  predicate WalkFree(b: Board, from: int, to: int, rook: int, king: int) {
    forall i | from <= i <= to && i != rook && i != king :: Square(i, 0) !in Occupied(b)
  }

  /** Some square the king passes is attacked, its own included, its last not unless it stays. */
  predicate RangeAttacked(b: Board, from: int, to: int) { RangeHit(AttackedSquare(b), from, to) }

  function AttackedSquare(b: Board): Square -> bool { s => IsUnderAttack(b, s) }

  predicate RangeHit(attacked: Square -> bool, from: int, to: int) {
    if from == to then attacked(Square(from, 0))
    else
      exists i | (if from < to then from else to + 1) <= i < (if from < to then to else from + 1) ::
        attacked(Square(i, 0))
  }

  function Min(x: int, y: int): int { if x < y then x else y }
  function Max(x: int, y: int): int { if x < y then y else x }

  predicate CastlesLeft(b: Board) {
    var king, rook := b.ourKing.file, b.castlings.ourQueenside;
    b.castlings.we000 && WalkFree(b, Min(2, rook), Max(3, king), rook, king) && !RangeAttacked(b, king, 2)
  }

  predicate CastlesRight(b: Board) {
    var king, rook := b.ourKing.file, b.castlings.ourKingside;
    b.castlings.we00 && WalkFree(b, Min(5, king), Max(6, rook), rook, king) && !RangeAttacked(b, king, 6)
  }

  predicate CastlingMove(b: Board, m: Move) {
    m.special.Castle? && m.from == Square(b.ourKing.file, 0) && b.ourKing in b.ours
    && ((CastlesLeft(b) && m.to == Square(b.castlings.ourQueenside, 0))
        || (CastlesRight(b) && m.to == Square(b.castlings.ourKingside, 0)))
  }

  predicate RookMove(b: Board, m: Move) {
    m.special.Ordinary? && m.from in b.rooks && m.to in RookAttacks(m.from, Occupied(b)) - b.ours
  }

  predicate BishopMove(b: Board, m: Move) {
    m.special.Ordinary? && m.from in b.bishops && m.to in BishopAttacks(m.from, Occupied(b)) - b.ours
  }

  predicate KnightMove(b: Board, m: Move) {
    m.special.Ordinary? && m.from !in b.rooks + b.bishops + Masked(b.pawns) && m.to in KnightAttacks(m.from) - b.ours
  }

  predicate Promotable(kind: Kind) { !kind.Pawn? && !kind.King? }

  /** Reaching the last rank promotes. */
  predicate Arrives(m: Move) {
    if m.to.rank == 7 then m.special.Promote? && Promotable(m.special.kind) else m.special.Ordinary?
  }

  predicate PawnStep(b: Board, m: Move) {
    m.to == Square(m.from.file, m.from.rank + 1) && m.to !in Occupied(b) && Arrives(m)
  }

  predicate PawnJump(b: Board, m: Move) {
    m.from.rank == 1 && m.to == Square(m.from.file, 3) && m.special.Ordinary?
    && Square(m.from.file, 2) !in Occupied(b) && m.to !in Occupied(b)
  }

  predicate PawnCapture(b: Board, m: Move) {
    PawnHits(true, m.from, m.to) && OnBoard(m.to) && m.to in b.theirs && Arrives(m)
  }

  predicate PassingCapture(b: Board, m: Move) {
    PawnHits(true, m.from, m.to) && OnBoard(m.to) && m.to !in b.theirs && m.to.rank == 5
    && Square(m.to.file, 7) in b.pawns && m.special.EnPassant?
  }

  predicate PawnMove(b: Board, m: Move) {
    m.from in Masked(b.pawns) && m.from !in b.rooks + b.bishops
    && (PawnStep(b, m) || PawnJump(b, m) || PawnCapture(b, m) || PassingCapture(b, m))
  }

  predicate PseudoLegal(b: Board, m: Move) {
    m.from in b.ours &&
    if m.from == b.ourKing then KingMove(b, m) || CastlingMove(b, m)
    else RookMove(b, m) || BishopMove(b, m) || PawnMove(b, m) || KnightMove(b, m)
  }

  // ---------- what applying such a move does ----------

  lemma ListedMove(b: Board, m: Move)
    requires Consistent(b) && PseudoLegal(b, m)
    ensures OnBoard(m.from) && OnBoard(m.to)
    ensures !m.special.Castle? ==> m.to !in b.ours && m.from != m.to
    ensures m.special.Castle? ==>
              m.from == b.ourKing && m.from.rank == 0 && m.to in b.ours && m.to in b.rooks && m.to !in b.bishops
    ensures m.special.EnPassant? ==>
              PassingCapture(b, m) && TheirMarker(b, Square(m.to.file, 7)) && m.to !in Occupied(b)
    ensures m.special.Promote? ==> m.to.rank == 7 && m.from in Masked(b.pawns) && Promotable(m.special.kind)
  {
    assert m.special.EnPassant? ==> Square(m.to.file, 7) in MarkersOf(b);
    if m.from != b.ourKing && RookMove(b, m) { assert m.to in RookAttacks(m.from, Occupied(b)); }
    if m.from != b.ourKing && BishopMove(b, m) { assert m.to in BishopAttacks(m.from, Occupied(b)); }
  }

  predicate StaysOffTheirKing(b: Board, m: Move) { m.special.Castle? || m.to != b.theirKing }

  /** Applying a move to the bitboards does to the pieces what the rules say. */
  lemma AppliedMakesMove(b: Board, m: Move)
    requires Consistent(b) && PseudoLegal(b, m) && StaysOffTheirKing(b, m)
    ensures Pieces(Applied(b, m)) == MakeMove(Pieces(b), m)
  {
    ListedMove(b, m);
    if m.special.Castle? {
      ListedCastles(b, m);
      CastledMakesMove(b, m);
    } else {
      ListedIsPlain(b, m);
      PlainMakesMove(b, m);
    }
  }

  /** The facts about a listed move that decide what it does to the board. */
  predicate Plain(b: Board, m: Move) {
    && Sides(b) && Kings(b) && OnBoard(m.from) && OnBoard(m.to)
    && m.from in b.ours && m.to !in b.ours && m.to != b.theirKing && !m.special.Castle?
    && (m.special.EnPassant? ==>
        m.to !in Occupied(b) && TakenEnPassant(m) in b.theirs && TakenEnPassant(m) in Masked(b.pawns)
                                 && m.from in Masked(b.pawns) && m.to.rank == 5)
    && (m.special.Promote? ==> m.to.rank == 7 && m.from in Masked(b.pawns) && Promotable(m.special.kind))
    && (!m.special.Promote? && m.from in Masked(b.pawns) ==> OnPawnRank(m.to))
  }

  lemma ListedIsPlain(b: Board, m: Move)
    requires Consistent(b) && PseudoLegal(b, m) && StaysOffTheirKing(b, m) && !m.special.Castle?
    ensures Plain(b, m)
  {
    ListedMove(b, m);
    assert m.special.EnPassant? ==> TakenEnPassant(m) in Masked(b.pawns);
  }

  lemma PlainMakesMove(b: Board, m: Move)
    requires Plain(b, m)
    ensures Pieces(Applied(b, m)) == MakeMove(Pieces(b), m)
  {
    assert Occupied(Applied(b, m)) == MakeMove(Pieces(b), m).Keys;
    forall s | s in MakeMove(Pieces(b), m)
      ensures Landed(b, m, s) == MakeMove(Pieces(b), m)[s]
    {
      SquareAfterMove(b, m, s);
    }
  }

  /** What stands on s after the move, read off the bitboards. */
  function Landed(b: Board, m: Move, s: Square): Piece {
    Piece(s in Applied(b, m).ours, KindAt(Applied(b, m), s))
  }

  lemma SquareAfterMove(b: Board, m: Move, s: Square)
    requires Plain(b, m) && s in MakeMove(Pieces(b), m)
    ensures Landed(b, m, s) == MakeMove(Pieces(b), m)[s]
  {
    if s != m.to {
      OtherSquare(b, m, s);
    } else if m.from == b.ourKing {
    } else if m.special.Promote? {
      PromotedSquare(b, m);
    } else {
      MovedSquare(b, m);
    }
  }

  lemma OtherSquare(b: Board, m: Move, s: Square)
    requires Plain(b, m) && s in Occupied(b) && s != m.from && s != m.to
    requires m.special.EnPassant? ==> s != TakenEnPassant(m)
    ensures Landed(b, m, s) == Pieces(b)[s]
  {
    var t := Taken(b, m);
    assert s in t.rooks <==> s in b.rooks;
    assert s in t.bishops <==> s in b.bishops;
  }

  lemma PromotedSquare(b: Board, m: Move)
    requires Plain(b, m) && m.from != b.ourKing && m.special.Promote?
    ensures Landed(b, m, m.to) == Piece(true, m.special.kind)
  {
  }

  lemma MovedSquare(b: Board, m: Move)
    requires Plain(b, m) && m.from != b.ourKing && !m.special.Promote?
    ensures Landed(b, m, m.to) == Pieces(b)[m.from]
  {
  }

  /** The facts about a listed castling move that decide what it does to the board. */
  predicate Castles(b: Board, m: Move) {
    var k, r := KingAfterCastling(m), RookAfterCastling(m);
    && m.special.Castle? && Sides(b) && Kings(b)
    && m.from == b.ourKing && m.from.rank == 0 && m.to.rank == 0
    && m.to in b.ours && m.to in b.rooks && m.to !in b.bishops
    && (k in Occupied(b) ==> k == m.from || k == m.to) && (r in Occupied(b) ==> r == m.from || r == m.to)
  }

  lemma ListedCastles(b: Board, m: Move)
    requires Consistent(b) && PseudoLegal(b, m) && m.special.Castle?
    ensures Castles(b, m)
  {
    ListedMove(b, m);
    CastlingSquaresFree(b, m);
  }

  lemma CastlingSquaresFree(b: Board, m: Move)
    requires Consistent(b) && PseudoLegal(b, m) && m.special.Castle?
    ensures var k, r := KingAfterCastling(m), RookAfterCastling(m);
            (k in Occupied(b) ==> k == m.from || k == m.to) && (r in Occupied(b) ==> r == m.from || r == m.to)
  {
  }

  lemma CastledMakesMove(b: Board, m: Move)
    requires Castles(b, m)
    ensures Pieces(Applied(b, m)) == MakeMove(Pieces(b), m)
  {
    assert Occupied(Applied(b, m)) == MakeMove(Pieces(b), m).Keys;
    forall s | s in MakeMove(Pieces(b), m)
      ensures Landed(b, m, s) == MakeMove(Pieces(b), m)[s]
    {
      SquareAfterCastling(b, m, s);
    }
  }

  lemma SquareAfterCastling(b: Board, m: Move, s: Square)
    requires Castles(b, m) && s in MakeMove(Pieces(b), m)
    ensures Landed(b, m, s) == MakeMove(Pieces(b), m)[s]
  {
  }
}
