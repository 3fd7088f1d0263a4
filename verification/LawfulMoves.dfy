/** The board follows the laws of chess: the generator lists the moves they allow, and applying one
    leaves the rights they leave. */
module LawfulMoves {
  import opened Squares
  import opened ChessRules
  import opened ChessLaws
  import opened Boards
  import opened Pseudolegal
  import opened Plies
  import opened SafeMoves
  import opened Games

  // ---------- what a board says to the laws ----------

  function RookOf(held: bool, file: int, rank: int): set<Square> { if held then {Square(file, rank)} else {} }

  /** The rooks that castling rights refer to. */
  function CastlingRooks(c: Castlings): set<Square> {
    RookOf(c.we00, c.ourKingside, 0) + RookOf(c.we000, c.ourQueenside, 0)
    + RookOf(c.they00, c.theirKingside, 7) + RookOf(c.they000, c.theirQueenside, 7)
  }

  /** A marker on an outer rank stands for the square passed, two ranks inside. */
  function PassedBy(marker: Square): Square { Square(marker.file, if marker.rank == 7 then 5 else 2) }

  function PassedSquares(b: Board): (passed: set<Square>)
    ensures forall s :: s in passed <==> exists t :: t in MarkersOf(b) && s == PassedBy(t)
  {
    set t | t in MarkersOf(b) :: PassedBy(t)
  }

  function SituationOf(b: Board): Situation {
    Situation(Pieces(b), CastlingRooks(b.castlings), PassedSquares(b))
  }

  // ---------- men ----------

  lemma SliderHits(b: Board, s: Square, t: Square)
    requires Sides(b) && s in b.ours && OnBoard(t) && s != b.ourKing && s != b.theirKing && s in b.rooks + b.bishops
    ensures Hits(Pieces(b).Keys, Pieces(b)[s], s, t) <==>
            (s in b.rooks && t in RookAttacks(s, Occupied(b))) || (s in b.bishops && t in BishopAttacks(s, Occupied(b)))
  {
    RookAttacksAre(s, Occupied(b), t);
    BishopAttacksAre(s, Occupied(b), t);
  }

  lemma SliderReaches(b: Board, m: Move)
    requires Consistent(b) && m.from in b.ours && m.from != b.ourKing && m.from in b.rooks + b.bishops
    ensures RookMove(b, m) || BishopMove(b, m) <==> m.special == Ordinary && Reaching(Pieces(b), m)
  {
    if OnBoard(m.to) { SliderHits(b, m.from, m.to); }
    assert HasOurs(Pieces(b), m.to) <==> m.to in b.ours;
  }

  lemma KnightReaches(b: Board, m: Move)
    requires Consistent(b) && m.from in b.ours && KindAt(b, m.from) == Knight
    ensures KnightMove(b, m) <==> m.special == Ordinary && Reaching(Pieces(b), m)
  {
  }

  /** A marker of theirs stands for the empty square behind the pawn that jumped. */
  lemma PassedIsEmpty(b: Board, s: Square)
    requires Consistent(b)
    ensures s in PassedSquares(b) <==> s.rank == 5 && Square(s.file, 7) in b.pawns
    ensures s in PassedSquares(b) ==> s !in Occupied(b)
  {
    if s in PassedSquares(b) {
      var t :| t in MarkersOf(b) && s == PassedBy(t);
      assert TheirMarker(b, t);
    }
    if s.rank == 5 && Square(s.file, 7) in b.pawns {
      assert Square(s.file, 7) in MarkersOf(b) && PassedBy(Square(s.file, 7)) == s;
    }
  }

  lemma PawnReaches(b: Board, m: Move)
    requires Consistent(b) && m.from in b.ours && KindAt(b, m.from) == Pawn
    ensures PawnMove(b, m) <==> MayMovePawn(SituationOf(b), m)
  {
    PassedIsEmpty(b, m.to);
  }

  // ---------- castling ----------

  /** The files on the two ways of castling are those the generator walks over. */
  lemma OnTheWays(m: Move, i: int)
    requires m.from.rank == 0 && m.to.rank == 0
    requires 0 <= m.from.file < 8 && 0 <= m.to.file < 8 && m.from.file != m.to.file
    ensures var king, rook, s := m.from.file, m.to.file, Square(i, 0);
            (OnWay(s, m.from, KingAfterCastling(m)) || OnWay(s, m.to, RookAfterCastling(m))) <==>
            (if rook > king then Min(5, king) <= i <= Max(6, rook) else Min(2, rook) <= i <= Max(3, king))
  {
  }

  predicate WayFree(b: Board, m: Move) {
    var king, rook := m.from.file, m.to.file;
    if rook > king then WalkFree(b, Min(5, king), Max(6, rook), rook, king)
    else WalkFree(b, Min(2, rook), Max(3, king), rook, king)
  }

  lemma WayIsEmpty(b: Board, m: Move)
    requires m.from.rank == 0 && m.to.rank == 0
    requires 0 <= m.from.file < 8 && 0 <= m.to.file < 8 && m.from.file != m.to.file
    ensures var k, r := KingAfterCastling(m), RookAfterCastling(m);
            (forall s | s in Pieces(b) && (OnWay(s, m.from, k) || OnWay(s, m.to, r)) :: s == m.from || s == m.to)
            <==> WayFree(b, m)
  {
    var k, r := KingAfterCastling(m), RookAfterCastling(m);
    if WayFree(b, m) {
      forall s | s in Pieces(b) && (OnWay(s, m.from, k) || OnWay(s, m.to, r))
        ensures s == m.from || s == m.to
      {
        OnTheWays(m, s.file);
        assert s == Square(s.file, 0);
      }
    } else {
      var lo, hi := if m.to.file > m.from.file then Min(5, m.from.file) else Min(2, m.to.file),
                    if m.to.file > m.from.file then Max(6, m.to.file) else Max(3, m.from.file);
      var i :| lo <= i <= hi && i != m.to.file && i != m.from.file && Square(i, 0) in Occupied(b);
      OnTheWays(m, i);
      assert Square(i, 0) in Pieces(b);
    }
  }

  predicate WayAttacked(b: Board, m: Move) { RangeAttacked(b, m.from.file, KingAfterCastling(m).file) }

  lemma RangeIsWay(attacked: Square -> bool, a: Square, k: Square)
    requires a.rank == 0 && k.rank == 0
    ensures RangeHit(attacked, a.file, k.file) <==> exists s :: OnWay(s, a, k) && (s != k || a == k) && attacked(s)
  {
    if s :| OnWay(s, a, k) && (s != k || a == k) && attacked(s) {
      assert s == Square(s.file, 0);
    }
    if RangeHit(attacked, a.file, k.file) {
      var i :| OnWay(Square(i, 0), a, k) && (Square(i, 0) != k || a == k) && attacked(Square(i, 0));
    }
  }

  lemma OnEmptyWay(b: Board, m: Move, s: Square)
    requires Consistent(b) && m.from == b.ourKing && m.from.rank == 0 && m.to.rank == 0 && 0 <= m.to.file < 8
    requires m.from.file != m.to.file && m.to in b.ours && WayFree(b, m) && OnWay(s, m.from, KingAfterCastling(m))
    ensures IsUnderAttack(b, s) <==> Attacked(Pieces(b), false, s)
  {
    OnTheWays(m, s.file);
    assert s == Square(s.file, 0);
    UnderAttackIsAttacked(b, s);
  }

  /** On an empty way, an attacked square is one that a man of theirs attacks. */
  lemma WayIsSafe(b: Board, m: Move)
    requires Consistent(b) && m.from == b.ourKing && m.from.rank == 0 && m.to.rank == 0 && 0 <= m.to.file < 8
    requires m.from.file != m.to.file && m.to in b.ours && WayFree(b, m)
    ensures var k := KingAfterCastling(m);
            (forall s | OnWay(s, m.from, k) && (s != k || m.from == k) :: !Attacked(Pieces(b), false, s))
            <==> !RangeAttacked(b, m.from.file, k.file)
  {
    var k := KingAfterCastling(m);
    RangeIsWay(AttackedSquare(b), m.from, k);
    forall s | OnWay(s, m.from, k)
      ensures AttackedSquare(b)(s) <==> Attacked(Pieces(b), false, s)
    {
      OnEmptyWay(b, m, s);
    }
  }

  lemma CastlesAre(b: Board, m: Move)
    requires Consistent(b) && m.from == b.ourKing && m.special.Castle?
    ensures CastlingMove(b, m) <==>
            && m.from.rank == 0 && m.to.rank == 0 && m.to in CastlingRooks(b.castlings) && WayFree(b, m)
            && !RangeAttacked(b, m.from.file, KingAfterCastling(m).file)
  {
    if m.from.rank == 0 && m.to.rank == 0 {
      RightNamed(b, m);
      if m.to in CastlingRooks(b.castlings) {
        if m.to.file > m.from.file { RightsideCastling(b, m); } else { LeftsideCastling(b, m); }
      }
    }
  }

  lemma RightNamed(b: Board, m: Move)
    requires Consistent(b) && m.from == b.ourKing && m.from.rank == 0 && m.to.rank == 0
    ensures var c := b.castlings;
            && (m.to in CastlingRooks(c) <==>
                  (c.we00 && m.to == Square(c.ourKingside, 0)) || (c.we000 && m.to == Square(c.ourQueenside, 0)))
            && (c.we00 ==> c.ourKingside > m.from.file) && (c.we000 ==> c.ourQueenside < m.from.file)
  {
    OurRookNamed(b.castlings, m.to);
  }

  lemma OurRookNamed(c: Castlings, s: Square)
    requires s.rank == 0
    ensures s in CastlingRooks(c) <==>
            (c.we00 && s == Square(c.ourKingside, 0)) || (c.we000 && s == Square(c.ourQueenside, 0))
  {
  }

  lemma RightsideCastling(b: Board, m: Move)
    requires m.from == b.ourKing && m.from.rank == 0 && m.to.rank == 0 && m.to.file > m.from.file
    requires b.castlings.we00 && m.to == Square(b.castlings.ourKingside, 0)
    ensures CastlesRight(b) <==> WayFree(b, m) && !RangeAttacked(b, m.from.file, KingAfterCastling(m).file)
  {
  }

  lemma LeftsideCastling(b: Board, m: Move)
    requires m.from == b.ourKing && m.from.rank == 0 && m.to.rank == 0 && m.to.file < m.from.file
    requires b.castlings.we000 && m.to == Square(b.castlings.ourQueenside, 0)
    ensures CastlesLeft(b) <==> WayFree(b, m) && !RangeAttacked(b, m.from.file, KingAfterCastling(m).file)
  {
  }

  lemma RookOfRight(b: Board, s: Square)
    requires Consistent(b) && s in CastlingRooks(b.castlings) && s.rank == 0
    ensures b.ourKing.rank == 0 && OnBoard(s) && s in b.ours && s != b.ourKing
  {
  }

  lemma CastlingAllowed(b: Board, m: Move)
    requires Consistent(b) && m.from == b.ourKing
    ensures CastlingMove(b, m) <==> MayCastle(SituationOf(b), m)
  {
    if m.special.Castle? {
      CastlesAre(b, m);
      if m.to in CastlingRooks(b.castlings) && m.to.rank == 0 {
        RookOfRight(b, m.to);
        WayIsEmpty(b, m);
        if WayFree(b, m) { WayIsSafe(b, m); }
      }
    }
  }

  // ---------- all moves ----------

  /** The generator lists a king's step only to a square that is not attacked and not their king's. */
  ghost predicate Guarded(pos: Position, m: Move) {
    Has(pos, m.from, Piece(true, King)) && m.special == Ordinary ==>
      !Attacked(pos, false, m.to) && !Has(pos, m.to, Piece(false, King))
  }

  lemma KingStands(b: Board, s: Square)
    requires Sides(b) && Kings(b)
    ensures Has(Pieces(b), s, Piece(true, King)) <==> s == b.ourKing
    ensures Has(Pieces(b), s, Piece(false, King)) <==> s == b.theirKing
    ensures HasOurs(Pieces(b), s) <==> s in b.ours
    ensures HasTheirs(Pieces(b), s) <==> s in b.theirs
  {
  }

  lemma KingReaches(b: Board, m: Move)
    requires Consistent(b) && m.from == b.ourKing
    ensures Reaching(Pieces(b), m) <==> OnBoard(m.to) && KingStep(m.from, m.to) && m.to !in b.ours
  {
  }

  lemma KingMoveAllowed(b: Board, m: Move)
    requires Consistent(b) && m.from == b.ourKing
    ensures KingMove(b, m) <==> m.special == Ordinary && Reaching(Pieces(b), m) && Guarded(Pieces(b), m)
  {
    KingReaches(b, m);
    if OnBoard(m.to) {
      UnderAttackIsAttacked(b, m.to);
      KingStands(b, m.from);
      KingStands(b, m.to);
    }
  }

  /** On every well-formed board the moves listed are those the laws allow, but for steps of the king
      that can be seen at once to be attacked. */
  lemma ListedIffAllowed(b: Board, m: Move)
    requires Consistent(b)
    ensures PseudoLegal(b, m) <==> MayMove(SituationOf(b), m) && Guarded(Pieces(b), m)
  {
    if m.from in b.ours {
      if m.from == b.ourKing {
        KingMoveAllowed(b, m);
        CastlingAllowed(b, m);
      } else {
        OtherMoveAllowed(b, m);
      }
    }
  }

  lemma OtherMoveAllowed(b: Board, m: Move)
    requires Consistent(b) && m.from in b.ours && m.from != b.ourKing
    ensures PseudoLegal(b, m) <==> MayMove(SituationOf(b), m)
    ensures Guarded(Pieces(b), m)
  {
    if m.from in b.rooks + b.bishops {
      SliderReaches(b, m);
    } else if m.from in Masked(b.pawns) {
      PawnReaches(b, m);
    } else {
      KnightReaches(b, m);
    }
  }

  // ---------- legal moves ----------

  lemma ReachesThrough(occ: set<Square>, other: set<Square>, t: Square, d: Dir, s: Square)
    requires other <= occ + {s} && Reaches(occ, t, d, s)
    ensures Reaches(other, t, d, s)
  {
    var k: nat :| 1 <= k && s == At(t, d, k) && Clear(occ, t, d, 1, k);
    forall i | 1 <= i < k
      ensures At(t, d, i) !in other
    {
      ClearAt(occ, t, d, 1, k, i);
      if At(t, d, i) == s { OneLine(t, d, i, d, k); }
    }
    ClearFrom(other, t, d, 1, k);
  }

  /** Fewer men in between attack no less. */
  lemma HitsThrough(occ: set<Square>, other: set<Square>, p: Piece, t: Square, s: Square)
    requires other <= occ + {s} && Hits(occ, p, t, s)
    ensures Hits(other, p, t, s) && s != t
  {
    forall d | Reaches(occ, t, d, s)
      ensures Reaches(other, t, d, s) && s != t
    {
      ReachesThrough(occ, other, t, d, s);
    }
  }

  /** A king that steps to an attacked square is attacked there. */
  lemma StepIntoAttack(pos: Position, m: Move)
    requires Has(pos, m.from, Piece(true, King)) && m.special == Ordinary && Attacked(pos, false, m.to)
    ensures !KingSafe(MakeMove(pos, m))
  {
    var after := MakeMove(pos, m);
    var t :| t in pos && !pos[t].ours && Hits(pos.Keys, pos[t], t, m.to);
    HitsThrough(pos.Keys, after.Keys, pos[t], t, m.to);
    assert t in after && after[t] == pos[t];
    assert Attacked(after, false, m.to);
    assert after[m.to] == Piece(true, King);
  }

  /** On a playable board the listed moves that leave our king unattacked are the legal moves. */
  lemma LegalIffLawful(b: Board, m: Move)
    requires Playable(b)
    ensures PseudoLegal(b, m) && KingSafe(MakeMove(Pieces(b), m)) <==> Lawful(SituationOf(b), m)
  {
    ListedIffAllowed(b, m);
    if Lawful(SituationOf(b), m) && Has(Pieces(b), m.from, Piece(true, King)) && m.special == Ordinary {
      if Attacked(Pieces(b), false, m.to) { StepIntoAttack(Pieces(b), m); }
      KingStands(b, m.from);
      KingStands(b, m.to);
    }
  }

  // ---------- what a move leaves behind ----------

  lemma OurRightsAfter(b: Board, m: Move)
    requires Consistent(b) && PseudoLegal(b, m) && StaysOffTheirKing(b, m)
    ensures var c, a := b.castlings, Applied(b, m).castlings;
            && a.ourKingside == c.ourKingside && a.ourQueenside == c.ourQueenside
            && (a.we00 <==> c.we00 && m.from != b.ourKing && m.from != Square(c.ourKingside, 0))
            && (a.we000 <==> c.we000 && m.from != b.ourKing && m.from != Square(c.ourQueenside, 0))
  {
    ListedMove(b, m);
  }

  lemma TheirRightsAfter(b: Board, m: Move)
    requires Consistent(b) && PseudoLegal(b, m) && StaysOffTheirKing(b, m)
    ensures var c, a := b.castlings, Applied(b, m).castlings;
            && a.theirKingside == c.theirKingside && a.theirQueenside == c.theirQueenside
            && (a.they00 <==> c.they00 && m.to != Square(c.theirKingside, 7))
            && (a.they000 <==> c.they000 && m.to != Square(c.theirQueenside, 7))
  {
    ListedMove(b, m);
  }

  /** How the flags change, and which rooks they stand for. */
  lemma FlagsAndRooks(c: Castlings, a: Castlings, kingMoves: bool, from: Square, to: Square, s: Square)
    requires a.ourKingside == c.ourKingside && a.ourQueenside == c.ourQueenside
    requires a.theirKingside == c.theirKingside && a.theirQueenside == c.theirQueenside
    requires a.we00 <==> c.we00 && !kingMoves && from != Square(c.ourKingside, 0)
    requires a.we000 <==> c.we000 && !kingMoves && from != Square(c.ourQueenside, 0)
    requires a.they00 <==> c.they00 && to != Square(c.theirKingside, 7)
    requires a.they000 <==> c.they000 && to != Square(c.theirQueenside, 7)
    requires s in CastlingRooks(c) ==> (s.rank == 0 && (!kingMoves ==> s != to)) || (s.rank == 7 && s != from)
    ensures s in CastlingRooks(a) <==> s in CastlingRooks(c) && s != from && s != to && !(s.rank == 0 && kingMoves)
  {
  }

  lemma RookKept(b: Board, m: Move, s: Square)
    requires Consistent(b) && PseudoLegal(b, m) && StaysOffTheirKing(b, m)
    ensures s in CastlingRooks(Applied(b, m).castlings) <==>
            s in CastlingRooks(b.castlings) && s != m.from && s != m.to && !(s.rank == 0 && m.from == b.ourKing)
  {
    OurRightsAfter(b, m);
    TheirRightsAfter(b, m);
    RooksStand(b, m);
    FlagsAndRooks(b.castlings, Applied(b, m).castlings, m.from == b.ourKing, m.from, m.to, s);
  }

  /** Each right is still held if and only if it was held, its king stayed, and its rook neither left
      its square nor was taken. */
  lemma RightsAfter(b: Board, m: Move)
    requires Consistent(b) && PseudoLegal(b, m) && StaysOffTheirKing(b, m)
    ensures CastlingRooks(Applied(b, m).castlings) == CastlingAfter(SituationOf(b), m)
  {
    KingStands(b, m.from);
    forall s
      ensures s in CastlingRooks(Applied(b, m).castlings) <==> s in CastlingAfter(SituationOf(b), m)
    {
      RookKept(b, m, s);
    }
  }

  lemma RooksStand(b: Board, m: Move)
    requires Consistent(b) && PseudoLegal(b, m)
    ensures forall s | s in CastlingRooks(b.castlings) ::
              (s.rank == 0 && s != b.ourKing && (m.from != b.ourKing ==> s != m.to)) || (s.rank == 7 && s != m.from)
  {
    ListedMove(b, m);
    forall s | s in CastlingRooks(b.castlings)
      ensures (s.rank == 0 && s != b.ourKing && (m.from != b.ourKing ==> s != m.to)) || (s.rank == 7 && s != m.from)
    {
      RookStands(b, s);
    }
  }

  lemma RookStands(b: Board, s: Square)
    requires Consistent(b) && s in CastlingRooks(b.castlings)
    ensures (s.rank == 0 && s != b.ourKing && s in b.ours) || (s.rank == 7 && s in b.theirs && s !in b.ours)
  {
  }

  // ---------- markers ----------

  /** Their pawns that could take a pawn of ours that has just jumped. */
  lemma TakersAre(b: Board, m: Move)
    requires Consistent(b) && PseudoLegal(b, m) && m.from in Masked(b.pawns) && m.to.rank - m.from.rank == 2
    ensures var t, s := Taken(b, m), Square(m.to.file, m.to.rank - 1);
            PawnAttackers(s) * t.theirs * Carried(t.pawns, m) != {}
            <==> exists x :: Has(Pieces(b), x, Piece(false, Pawn)) && PawnHits(false, x, s)
  {
    JumpedPawn(b, m);
    var t, s := Taken(b, m), Square(m.to.file, m.to.rank - 1);
    var takers := PawnAttackers(s) * t.theirs * Carried(t.pawns, m);
    forall x
      ensures x in takers <==> Has(Pieces(b), x, Piece(false, Pawn)) && PawnHits(false, x, s)
    {
      TakerIs(b, m, x);
    }
    if takers != {} { var x :| x in takers; }
  }

  lemma TakerIs(b: Board, m: Move, x: Square)
    requires Consistent(b) && PseudoLegal(b, m) && m.from in Masked(b.pawns) && PawnJump(b, m)
    ensures var t, s := Taken(b, m), Square(m.to.file, m.to.rank - 1);
            x in PawnAttackers(s) * t.theirs * Carried(t.pawns, m)
            <==> Has(Pieces(b), x, Piece(false, Pawn)) && PawnHits(false, x, s)
  {
  }

  lemma MarkersAfter(b: Board, m: Move)
    requires Consistent(b) && PseudoLegal(b, m) && StaysOffTheirKing(b, m)
    ensures var t := Taken(b, m);
            MarkersOf(Applied(b, m)) ==
            if m.from in Masked(b.pawns) && m.to.rank - m.from.rank == 2
               && PawnAttackers(Square(m.to.file, m.to.rank - 1)) * t.theirs * Carried(t.pawns, m) != {}
            then {Square(m.to.file, 0)} else {}
  {
    ListedMove(b, m);
    if m.from == b.ourKing || m.special.Promote? {
      NoJump(b, m);
      MarkersWiped(b, m);
    } else {
      MarkersMoved(b, m);
    }
  }

  lemma NoJump(b: Board, m: Move)
    requires Consistent(b) && PseudoLegal(b, m) && (m.from == b.ourKing || m.special.Promote?)
    ensures !(m.from in Masked(b.pawns) && m.to.rank - m.from.rank == 2)
  {
  }

  lemma MarkersWiped(b: Board, m: Move)
    requires m.from == b.ourKing || m.special.Promote?
    ensures MarkersOf(Applied(b, m)) == {}
  {
  }

  lemma MarkersMoved(b: Board, m: Move)
    requires m.from != b.ourKing && !m.special.Promote? && OnBoard(m.from) && OnBoard(m.to) && m.to !in b.ours
    requires Consistent(b) && PseudoLegal(b, m)
    ensures var t := Taken(b, m);
            MarkersOf(Applied(b, m)) ==
            if m.from in Masked(b.pawns) && m.to.rank - m.from.rank == 2
               && PawnAttackers(Square(m.to.file, m.to.rank - 1)) * t.theirs * Carried(t.pawns, m) != {}
            then {Square(m.to.file, 0)} else {}
  {
    PawnsTaken(b, m);
    MarkersCarried(Taken(b, m), m);
  }

  lemma PawnsTaken(b: Board, m: Move)
    requires m.from != b.ourKing && !m.special.Promote? && m.to !in b.ours && Consistent(b) && PseudoLegal(b, m)
    ensures var t := Taken(b, m);
            && Masked(t.pawns) == t.pawns && m.to !in t.pawns
            && (m.from in t.pawns <==> m.from in Masked(b.pawns)) && (m.from in t.pawns ==> OnPawnRank(m.to))
  {
    if m.from in Masked(b.pawns) { assert PawnMove(b, m); }
  }

  lemma MarkersCarried(t: Board, m: Move)
    requires Masked(t.pawns) == t.pawns && m.to !in t.pawns && (m.from in t.pawns ==> OnPawnRank(m.to))
    ensures MarkersOf(Moved(t, m)) ==
            if m.from in t.pawns && m.to.rank - m.from.rank == 2
               && PawnAttackers(Square(m.to.file, m.to.rank - 1)) * t.theirs * Carried(t.pawns, m) != {}
            then {Square(m.to.file, 0)} else {}
  {
    var pawns := Carried(t.pawns, m);
    assert Masked(pawns) == pawns;
    assert m.from != m.to ==> (m.to in pawns <==> m.from in t.pawns);
  }

  lemma PassedByOne(b: Board, s: Square)
    ensures MarkersOf(b) == {s} ==> PassedSquares(b) == {PassedBy(s)}
    ensures MarkersOf(b) == {} ==> PassedSquares(b) == {}
  {
  }

  lemma ExposedIs(b: Board, m: Move)
    requires Consistent(b) && PseudoLegal(b, m)
    ensures var t, s := Taken(b, m), Square(m.to.file, m.to.rank - 1);
            Exposes(Pieces(b), m, s) <==>
            m.from in Masked(b.pawns) && m.to.rank - m.from.rank == 2
            && PawnAttackers(s) * t.theirs * Carried(t.pawns, m) != {}
  {
    PawnStands(b, m.from);
    if m.from in Masked(b.pawns) && m.to.rank - m.from.rank == 2 { TakersAre(b, m); }
  }

  lemma PawnStands(b: Board, s: Square)
    requires Consistent(b) && s in b.ours
    ensures Has(Pieces(b), s, Piece(true, Pawn)) <==> s in Masked(b.pawns)
  {
  }

  /** A marker is set if and only if a pawn of ours went two ranks past a square that a pawn of theirs
      attacks; no other marker is left. */
  lemma PassedAfter(b: Board, m: Move)
    requires Consistent(b) && PseudoLegal(b, m) && StaysOffTheirKing(b, m)
    ensures PassedSquares(Applied(b, m)) == AfterMove(SituationOf(b), m).passed
  {
    MarkersAfter(b, m);
    ExposedIs(b, m);
    PassedByOne(Applied(b, m), Square(m.to.file, 0));
    if m.from in Masked(b.pawns) && m.to.rank - m.from.rank == 2 { JumpedPawn(b, m); }
  }

  /** Applying a listed move does what the laws say: to the pieces, to the rights to castle, and to the
      square where a pawn may be taken en passant. */
  lemma MoveFollowsLaws(b: Board, m: Move)
    requires Consistent(b) && PseudoLegal(b, m) && StaysOffTheirKing(b, m)
    ensures m.from in Pieces(b) && SituationOf(Applied(b, m)) == AfterMove(SituationOf(b), m)
  {
    AppliedMakesMove(b, m);
    RightsAfter(b, m);
    PassedAfter(b, m);
  }

  // ---------- from ply to ply ----------

  /** The situation seen from the other side. */
  function Turned(g: Situation): (turned: Situation)
    ensures turned.pos.Keys == Mirrored(g.pos.Keys)
    ensures forall s | s in turned.pos :: FlipRank(s) in g.pos
              && turned.pos[s] == Piece(!g.pos[FlipRank(s)].ours, g.pos[FlipRank(s)].kind)
  {
    Situation(map s | s in Mirrored(g.pos.Keys) :: Piece(!g.pos[FlipRank(s)].ours, g.pos[FlipRank(s)].kind),
              Mirrored(g.castling), Mirrored(g.passed))
  }

  lemma PieceTurns(b: Board, s: Square)
    requires b.ours !! b.theirs && s in Mirrored(Occupied(b))
    ensures s in Pieces(Mirror(b)) && Pieces(Mirror(b))[s] == Turned(SituationOf(b)).pos[s]
  {
    assert FlipRank(FlipRank(s)) == s;
    MirrorKind(b, FlipRank(s));
  }

  lemma PiecesTurn(b: Board)
    requires b.ours !! b.theirs
    ensures Pieces(Mirror(b)) == Turned(SituationOf(b)).pos
  {
    assert Pieces(Mirror(b)).Keys == Mirrored(Occupied(b));
    forall s | s in Mirrored(Occupied(b))
      ensures Pieces(Mirror(b))[s] == Turned(SituationOf(b)).pos[s]
    {
      PieceTurns(b, s);
    }
  }

  lemma RightsTurn(b: Board)
    ensures CastlingRooks(Mirror(b).castlings) == Mirrored(CastlingRooks(b.castlings))
  {
    forall s
      ensures FlipRank(FlipRank(s)) == s && (s.rank == 0 <==> FlipRank(s).rank == 7)
    {
    }
  }

  lemma PassedTurn(b: Board)
    requires forall s | s in MarkersOf(b) :: s.rank == 0
    ensures PassedSquares(Mirror(b)) == Mirrored(PassedSquares(b))
  {
    var m := Mirror(b);
    forall s
      ensures s in MarkersOf(m) <==> FlipRank(s) in MarkersOf(b)
      ensures FlipRank(FlipRank(s)) == s
    {
    }
    forall s
      ensures s in PassedSquares(m) <==> FlipRank(s) in PassedSquares(b)
    {
      if s in PassedSquares(m) {
        var t :| t in MarkersOf(m) && s == PassedBy(t);
        assert FlipRank(s) == PassedBy(FlipRank(t));
      }
      if FlipRank(s) in PassedSquares(b) {
        var t :| t in MarkersOf(b) && FlipRank(s) == PassedBy(t);
        assert FlipRank(t) in MarkersOf(m) && s == PassedBy(FlipRank(t));
      }
    }
  }

  /** So do applying it and handing the board over, seen from the other side. */
  lemma PlyFollowsLaws(b: Board, m: Move)
    requires Consistent(b) && PseudoLegal(b, m) && StaysOffTheirKing(b, m)
    ensures m.from in Pieces(b)
    ensures SituationOf(Mirror(Applied(b, m))) == Turned(AfterMove(SituationOf(b), m))
  {
    var a := Applied(b, m);
    MoveFollowsLaws(b, m);
    MarkersAfter(b, m);
    PlyKeepsConsistent(b, m);
    PiecesTurn(a);
    RightsTurn(a);
    PassedTurn(a);
  }

  // ---------- games ----------

  /** The situation a game has led to by the laws alone. */
  ghost function LawfulNow(g: Game): Situation {
    match g
    case Start(board) => SituationOf(board)
    case Ply(before, m) =>
      if m.from in LawfulNow(before).pos then Turned(AfterMove(LawfulNow(before), m)) else LawfulNow(before)
  }

  /** By the laws alone, every move of the game is legal. */
  ghost predicate LawfulGame(g: Game) {
    match g
    case Start(board) => Playable(board) && ChecksLimited(board)
    case Ply(before, m) => LawfulGame(before) && Lawful(LawfulNow(before), m)
  }

  /** The games played on boards are the games of the laws, and show the same situation throughout. */
  lemma {:induction false} GamesAreLawful(g: Game)
    ensures LegalGame(g) <==> LawfulGame(g)
    ensures LegalGame(g) ==> SituationOf(Now(g)) == LawfulNow(g)
  {
    if g.Ply? {
      GamesAreLawful(g.before);
      if LegalGame(g.before) {
        FilterExactThroughout(g.before);
        LegalIffLawful(Now(g.before), g.m);
        if LegalGame(g) {
          TheirKingIsSpared(Now(g.before), g.m);
          PlyFollowsLaws(Now(g.before), g.m);
        }
      }
    }
  }
}
