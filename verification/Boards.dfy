/** The board as the engine stores it: overlapping sets of squares, two king squares, castling rights,
    and marker pawns on the outer ranks for en passant. */
module Boards {
  import opened Squares
  import opened ChessRules

  /** The files of the rooks that castling rights refer to, and which rights are still held. */
  datatype Castlings = Castlings(ourQueenside: int, theirQueenside: int, ourKingside: int, theirKingside: int,
                                 we00: bool, we000: bool, they00: bool, they000: bool)

  datatype Board = Board(ours: set<Square>, theirs: set<Square>, rooks: set<Square>, bishops: set<Square>,
                         pawns: set<Square>,
                         ourKing: Square, theirKing: Square, castlings: Castlings, flipped: bool)

  function Occupied(b: Board): set<Square> { b.ours + b.theirs }

  /** Ranks on which a pawn is a pawn and not a marker. */
  predicate OnPawnRank(s: Square) { 1 <= s.rank <= 6 }

  function Masked(pawns: set<Square>): (inner: set<Square>)
    ensures forall s :: s in inner <==> s in pawns && OnPawnRank(s)
  {
    set s | s in pawns && OnPawnRank(s)
  }

  function KindAt(b: Board, s: Square): Kind {
    if s == b.ourKing || s == b.theirKing then King
    else if s in b.rooks then if s in b.bishops then Queen else Rook
    else if s in b.bishops then Bishop
    else if s in b.pawns && OnPawnRank(s) then Pawn
    else Knight
  }

  /** The pieces on the board. */
  function Pieces(b: Board): (pos: Position)
    ensures pos.Keys == Occupied(b)
    ensures forall s | s in pos :: pos[s] == Piece(s in b.ours, KindAt(b, s))
  {
    map s | s in b.ours + b.theirs :: Piece(s in b.ours, KindAt(b, s))
  }

  // ---------- well-formed boards ----------

  predicate Kings(b: Board) {
    && b.ourKing in b.ours && b.theirKing in b.theirs
    && b.ourKing !in b.rooks + b.bishops && b.theirKing !in b.rooks + b.bishops
    && b.ourKing !in Masked(b.pawns) && b.theirKing !in Masked(b.pawns)
  }

  predicate Sides(b: Board) {
    && AllOnBoard(b.ours) && AllOnBoard(b.theirs) && b.ours !! b.theirs
    && b.rooks <= Occupied(b) && b.bishops <= Occupied(b) && Masked(b.pawns) <= Occupied(b)
    && Masked(b.pawns) !! b.rooks + b.bishops
  }

  /** A marker on the eighth rank stands for their pawn below it, just moved two squares. */
  predicate TheirMarker(b: Board, s: Square) {
    && OnBoard(s) && s.rank == 7
    && Square(s.file, 4) in b.theirs && Square(s.file, 4) in b.pawns
    && Square(s.file, 5) !in Occupied(b) && Square(s.file, 6) !in Occupied(b)
  }

  function MarkersOf(b: Board): set<Square> { b.pawns - Masked(b.pawns) }

  predicate Markers(b: Board) {
    (forall s | s in MarkersOf(b) :: TheirMarker(b, s)) && |MarkersOf(b)| <= 1
  }

  lemma TwoMembers(squares: set<Square>, s: Square, t: Square)
    requires s in squares && t in squares && s != t
    ensures |squares| >= 2
  {
    assert squares == {s, t} + (squares - {s, t});
  }

  lemma AtMostOne(squares: set<Square>)
    ensures |squares| <= 1 <==> forall s, t | s in squares && t in squares :: s == t
  {
    if |squares| <= 1 {
      forall s, t | s in squares && t in squares
        ensures s == t
      {
        if s != t { TwoMembers(squares, s, t); }
      }
    } else {
      var s :| s in squares;
      assert |squares - {s}| == |squares| - 1;
      var t :| t in squares - {s};
    }
  }

  predicate RookFor(b: Board, side: set<Square>, king: Square, file: int, rank: int, right: bool) {
    && king.rank == rank && 0 <= file < 8
    && Square(file, rank) in side && Square(file, rank) in b.rooks && Square(file, rank) !in b.bishops
    && (if right then file > king.file else file < king.file)
  }

  predicate Rights(b: Board) {
    var c := b.castlings;
    && (c.we00 ==> RookFor(b, b.ours, b.ourKing, c.ourKingside, 0, true))
    && (c.we000 ==> RookFor(b, b.ours, b.ourKing, c.ourQueenside, 0, false))
    && (c.they00 ==> RookFor(b, b.theirs, b.theirKing, c.theirKingside, 7, true))
    && (c.they000 ==> RookFor(b, b.theirs, b.theirKing, c.theirQueenside, 7, false))
  }

  predicate Consistent(b: Board) {
    Sides(b) && Kings(b) && Markers(b) && Rights(b)
  }

  // ---------- attacks ----------

  /** The squares from which one of their pawns attacks s; the table is empty for the last two ranks. */
  function PawnAttackers(s: Square): (squares: set<Square>)
    ensures forall t :: t in squares <==> OnBoard(t) && s.rank <= 5 && PawnHits(false, t, s)
  {
    set t | t in {Square(s.file - 1, s.rank + 1), Square(s.file + 1, s.rank + 1)} && OnBoard(t) && s.rank <= 5
  }

  function KnightAttacks(s: Square): (squares: set<Square>)
    ensures forall t :: t in squares <==> OnBoard(t) && KnightStep(s, t)
  {
    var around := {Square(s.file - 2, s.rank - 1), Square(s.file - 2, s.rank + 1), Square(s.file - 1, s.rank - 2),
                   Square(s.file - 1, s.rank + 2), Square(s.file + 1, s.rank - 2), Square(s.file + 1, s.rank + 2),
                   Square(s.file + 2, s.rank - 1), Square(s.file + 2, s.rank + 1)};
    set t | t in around && OnBoard(t)
  }

  function TheirKnights(b: Board): set<Square> {
    b.theirs - {b.theirKing} - b.rooks - b.bishops - Masked(b.pawns)
  }

  predicate IsUnderAttack(b: Board, s: Square) {
    || (Abs(b.theirKing.rank - s.rank) <= 1 && Abs(b.theirKing.file - s.file) <= 1)
    || RookAttacks(s, Occupied(b)) * b.theirs * b.rooks != {}
    || BishopAttacks(s, Occupied(b)) * b.theirs * b.bishops != {}
    || PawnAttackers(s) * b.theirs * b.pawns != {}
    || KnightAttacks(s) * TheirKnights(b) != {}
  }

  predicate IsUnderCheck(b: Board) { IsUnderAttack(b, b.ourKing) }

  lemma RooksHit(b: Board, s: Square)
    requires Sides(b) && OnBoard(s)
    ensures RookAttacks(s, Occupied(b)) * b.theirs * b.rooks != {} <==>
            exists t :: t in b.theirs && t in b.rooks && AlongRank(Occupied(b), t, s)
  {
    var hit := RookAttacks(s, Occupied(b)) * b.theirs * b.rooks;
    forall t | t in b.theirs && t in b.rooks
      ensures t in hit <==> AlongRank(Occupied(b), t, s)
    {
      RookAttacksAre(s, Occupied(b), t);
      AlongRankBack(Occupied(b), s, t);
    }
    if hit != {} { var t :| t in hit; }
  }

  lemma BishopsHit(b: Board, s: Square)
    requires Sides(b) && OnBoard(s)
    ensures BishopAttacks(s, Occupied(b)) * b.theirs * b.bishops != {} <==>
            exists t :: t in b.theirs && t in b.bishops && AlongDiagonal(Occupied(b), t, s)
  {
    var hit := BishopAttacks(s, Occupied(b)) * b.theirs * b.bishops;
    forall t | t in b.theirs && t in b.bishops
      ensures t in hit <==> AlongDiagonal(Occupied(b), t, s)
    {
      BishopAttacksAre(s, Occupied(b), t);
      AlongDiagonalBack(Occupied(b), s, t);
    }
    if hit != {} { var t :| t in hit; }
  }

  lemma PawnsHit(b: Board, s: Square)
    requires Sides(b) && OnBoard(s)
    ensures PawnAttackers(s) * b.theirs * b.pawns != {} <==>
            exists t :: t in b.theirs && t in Masked(b.pawns) && PawnHits(false, t, s)
  {
    var hit := PawnAttackers(s) * b.theirs * b.pawns;
    if t :| t in b.theirs && t in Masked(b.pawns) && PawnHits(false, t, s) { assert t in hit; }
    if hit != {} { var t :| t in hit; assert t in Masked(b.pawns); }
  }

  lemma KnightsHit(b: Board, s: Square)
    requires Sides(b) && OnBoard(s)
    ensures KnightAttacks(s) * TheirKnights(b) != {} <==> exists t :: t in TheirKnights(b) && KnightStep(t, s)
  {
    var hit := KnightAttacks(s) * TheirKnights(b);
    if t :| t in TheirKnights(b) && KnightStep(t, s) { assert t in hit; }
    if hit != {} { var t :| t in hit; assert KnightStep(t, s); }
  }

  /** The bitboard test for an attacked square is the rules' notion of an attacked square. */
  lemma UnderAttackIsAttacked(b: Board, s: Square)
    requires Sides(b) && Kings(b) && OnBoard(s)
    ensures IsUnderAttack(b, s) <==> s == b.theirKing || Attacked(Pieces(b), false, s)
  {
    if s != b.theirKing {
      if IsUnderAttack(b, s) { AttackerFound(b, s); }
      if Attacked(Pieces(b), false, s) { AttackerCounts(b, s); }
    }
  }

  lemma AttackerStands(b: Board, s: Square, t: Square)
    requires t in b.theirs && b.ours !! b.theirs && Hits(Occupied(b), Piece(false, KindAt(b, t)), t, s)
    ensures Attacked(Pieces(b), false, s)
  {
    var pos := Pieces(b);
    assert pos[t] == Piece(false, KindAt(b, t)) && pos.Keys == Occupied(b);
  }

  lemma AttackerFound(b: Board, s: Square)
    requires Sides(b) && Kings(b) && OnBoard(s) && s != b.theirKing && IsUnderAttack(b, s)
    ensures Attacked(Pieces(b), false, s)
  {
    if RookAttacks(s, Occupied(b)) * b.theirs * b.rooks != {} {
      SliderFound(b, s, true);
    } else if BishopAttacks(s, Occupied(b)) * b.theirs * b.bishops != {} {
      SliderFound(b, s, false);
    } else {
      StepperFound(b, s);
    }
  }

  lemma SliderFound(b: Board, s: Square, straight: bool)
    requires Sides(b) && Kings(b) && OnBoard(s)
    requires if straight then RookAttacks(s, Occupied(b)) * b.theirs * b.rooks != {}
             else BishopAttacks(s, Occupied(b)) * b.theirs * b.bishops != {}
    ensures Attacked(Pieces(b), false, s)
  {
    if straight {
      RooksHit(b, s);
      var t :| t in b.theirs && t in b.rooks && AlongRank(Occupied(b), t, s);
      AttackerStands(b, s, t);
    } else {
      BishopsHit(b, s);
      var t :| t in b.theirs && t in b.bishops && AlongDiagonal(Occupied(b), t, s);
      AttackerStands(b, s, t);
    }
  }

  lemma StepperFound(b: Board, s: Square)
    requires Sides(b) && Kings(b) && OnBoard(s) && s != b.theirKing
    requires KingStep(b.theirKing, s) || PawnAttackers(s) * b.theirs * b.pawns != {}
             || KnightAttacks(s) * TheirKnights(b) != {}
    ensures Attacked(Pieces(b), false, s)
  {
    PawnsHit(b, s);
    KnightsHit(b, s);
    if KingStep(b.theirKing, s) {
      AttackerStands(b, s, b.theirKing);
    } else if t :| t in b.theirs && t in Masked(b.pawns) && PawnHits(false, t, s) {
      AttackerStands(b, s, t);
    } else {
      var t :| t in TheirKnights(b) && KnightStep(t, s);
      AttackerStands(b, s, t);
    }
  }

  lemma AttackerCounts(b: Board, s: Square)
    requires Sides(b) && Kings(b) && OnBoard(s) && Attacked(Pieces(b), false, s)
    ensures IsUnderAttack(b, s)
  {
    var pos := Pieces(b);
    var t :| t in pos && !pos[t].ours && Hits(pos.Keys, pos[t], t, s);
    match KindAt(b, t)
    case King => assert t == b.theirKing;
    case Queen => RooksHit(b, s); BishopsHit(b, s);
    case Rook => RooksHit(b, s);
    case Bishop => BishopsHit(b, s);
    case Pawn => PawnsHit(b, s);
    case Knight => KnightsHit(b, s); assert t in TheirKnights(b);
  }

  // ---------- applying a move ----------

  /** The board after our move, and whether the move restarts the fifty-move count. */
  function Applied(b: Board, m: Move): Board {
    if m.from == b.ourKing && m.special.Castle? then Castled(b, m)
    else if m.from == b.ourKing then WithoutOurRights(Taken(b, m)).(ourKing := m.to)
    else if m.special.Promote? then Promoted(Taken(b, m), m)
    else Moved(Taken(b, m), m)
  }

  predicate Zeroing(b: Board, m: Move) {
    && !(m.from == b.ourKing && m.special.Castle?)
    && (m.to in b.theirs || m.from in Taken(b, m).pawns || (m.special.Promote? && m.from != b.ourKing))
  }

  function WithoutOurRights(b: Board): Board {
    b.(castlings := b.castlings.(we00 := false, we000 := false))
  }

  function Castled(b: Board, m: Move): Board {
    WithoutOurRights(b).(
      pawns := Masked(b.pawns), ourKing := KingAfterCastling(m),
      ours := b.ours - {b.ourKing} - {m.to} + {KingAfterCastling(m)} + {RookAfterCastling(m)},
      rooks := b.rooks - {m.to} + {RookAfterCastling(m)})
  }

  /** The mover is on its square, whatever stood there or was passed is gone, markers are wiped. */
  function Taken(b: Board, m: Move): Board {
    var captured := if m.to in b.theirs then {m.to} else {};
    var passed := if m.special.EnPassant? then {TakenEnPassant(m)} else {};
    b.(ours := b.ours - {m.from} + {m.to}, theirs := b.theirs - captured - passed,
       rooks := b.rooks - captured, bishops := b.bishops - captured,
       pawns := Masked(b.pawns - captured - passed),
       castlings := if captured == {} then b.castlings else
         b.castlings.(they00 := b.castlings.they00 && m.to != Square(b.castlings.theirKingside, 7),
                      they000 := b.castlings.they000 && m.to != Square(b.castlings.theirQueenside, 7)))
  }

  function Promoted(b: Board, m: Move): Board
    requires m.special.Promote?
  {
    var kind := m.special.kind;
    b.(pawns := b.pawns - {m.from},
       rooks := if kind.Rook? || kind.Queen? then b.rooks + {m.to} else b.rooks,
       bishops := if kind.Bishop? || kind.Queen? then b.bishops + {m.to} else b.bishops)
  }

  /** A set of like pieces after one of ours moved. */
  function Carried(squares: set<Square>, m: Move): (moved: set<Square>) {
    (if m.from in squares then squares + {m.to} else squares) - {m.from}
  }

  function Moved(b: Board, m: Move): Board {
    var leavesRook := m.from.rank == 0 && m.from in b.rooks;
    var pawns := Carried(b.pawns, m);
    var marked := m.to.rank - m.from.rank == 2 && m.to in pawns
                  && PawnAttackers(Square(m.to.file, m.to.rank - 1)) * b.theirs * pawns != {};
    b.(rooks := Carried(b.rooks, m), bishops := Carried(b.bishops, m),
       pawns := if marked then pawns + {Square(m.to.file, 0)} else pawns,
       castlings := b.castlings.(we000 := b.castlings.we000 && !(leavesRook && m.from.file == b.castlings.ourQueenside),
                                 we00 := b.castlings.we00 && !(leavesRook && m.from.file == b.castlings.ourKingside)))
  }
}
