/** One ply keeps the board well formed: applying a listed move, then handing the board over. */
module Plies {
  import opened Squares
  import opened ChessRules
  import opened Boards
  import opened Pseudolegal

  // ---------- handing the board over ----------

  function FlipRank(s: Square): Square { Square(s.file, 7 - s.rank) }

  function Mirrored(squares: set<Square>): (flipped: set<Square>)
    ensures forall s :: s in flipped <==> FlipRank(s) in squares
  {
    var flipped := set s | s in squares :: FlipRank(s);
    assert forall s | FlipRank(s) in squares :: FlipRank(FlipRank(s)) in flipped;
    flipped
  }

  function MirrorCastlings(c: Castlings): Castlings {
    Castlings(c.theirQueenside, c.ourQueenside, c.theirKingside, c.ourKingside, c.they00, c.they000, c.we00, c.we000)
  }

  /** The same board seen from the other side. */
  function Mirror(b: Board): Board {
    Board(Mirrored(b.theirs), Mirrored(b.ours), Mirrored(b.rooks), Mirrored(b.bishops), Mirrored(b.pawns),
          FlipRank(b.theirKing), FlipRank(b.ourKing), MirrorCastlings(b.castlings), !b.flipped)
  }

  lemma MirrorTwice(b: Board)
    ensures Mirror(Mirror(b)) == b
  {
    assert Mirrored(Mirrored(b.ours)) == b.ours && Mirrored(Mirrored(b.theirs)) == b.theirs;
    assert Mirrored(Mirrored(b.rooks)) == b.rooks && Mirrored(Mirrored(b.bishops)) == b.bishops;
    assert Mirrored(Mirrored(b.pawns)) == b.pawns;
  }

  // ---------- well-formed for the side that just moved ----------

  /** A marker on the first rank stands for our pawn, just moved two squares. */
  predicate OurMarkers(b: Board) {
    (forall s | s in MarkersOf(b) :: OurMarker(b, s)) && |MarkersOf(b)| <= 1
  }

  predicate OurMarker(b: Board, s: Square) {
    && OnBoard(s) && s.rank == 0
    && Square(s.file, 3) in b.ours && Square(s.file, 3) in b.pawns
    && Square(s.file, 2) !in Occupied(b) && Square(s.file, 1) !in Occupied(b)
  }

  predicate HandedOver(b: Board) {
    Sides(b) && Kings(b) && OurMarkers(b) && Rights(b)
  }

  lemma MirrorKeepsSides(b: Board)
    requires Sides(b)
    ensures Sides(Mirror(b))
  {
    var m := Mirror(b);
    forall s | s in m.ours + m.theirs
      ensures OnBoard(s)
    {
      assert OnBoard(FlipRank(s));
    }
    forall s
      ensures s in Masked(m.pawns) <==> FlipRank(s) in Masked(b.pawns)
    {
    }
  }

  lemma MirrorRook(b: Board, side: set<Square>, king: Square, file: int, right: bool)
    requires RookFor(b, side, king, file, 0, right) || RookFor(b, side, king, file, 7, right)
    ensures RookFor(Mirror(b), Mirrored(side), FlipRank(king), file, 7 - king.rank, right)
  {
    assert FlipRank(Square(file, 7 - king.rank)) == Square(file, king.rank);
  }

  lemma MirrorMarker(b: Board, s: Square)
    requires OurMarker(b, s)
    ensures TheirMarker(Mirror(b), FlipRank(s))
  {
    assert FlipRank(Square(s.file, 4)) == Square(s.file, 3);
    assert FlipRank(Square(s.file, 5)) == Square(s.file, 2);
    assert FlipRank(Square(s.file, 6)) == Square(s.file, 1);
  }

  /** A board that is well formed for the side that moved is well formed for the side to move. */
  lemma MirrorHandsOver(b: Board)
    requires HandedOver(b)
    ensures Consistent(Mirror(b))
  {
    MirrorKeepsSides(b);
    MirrorKeepsKings(b);
    MirrorKeepsMarkers(b);
    MirrorKeepsRights(b);
  }

  lemma MirrorKeepsRights(b: Board)
    requires Rights(b)
    ensures Rights(Mirror(b))
  {
    var c := b.castlings;
    if c.we00 { MirrorRook(b, b.ours, b.ourKing, c.ourKingside, true); }
    if c.we000 { MirrorRook(b, b.ours, b.ourKing, c.ourQueenside, false); }
    if c.they00 { MirrorRook(b, b.theirs, b.theirKing, c.theirKingside, true); }
    if c.they000 { MirrorRook(b, b.theirs, b.theirKing, c.theirQueenside, false); }
  }

  lemma MirrorKeepsKings(b: Board)
    requires Kings(b)
    ensures Kings(Mirror(b))
  {
    assert FlipRank(FlipRank(b.ourKing)) == b.ourKing && FlipRank(FlipRank(b.theirKing)) == b.theirKing;
  }

  lemma MirrorKeepsMarkers(b: Board)
    requires OurMarkers(b)
    ensures Markers(Mirror(b))
  {
    var m := Mirror(b);
    forall s | s in MarkersOf(m)
      ensures TheirMarker(m, s)
    {
      MirrorMarker(b, FlipRank(s));
    }
    AtMostOne(MarkersOf(b));
    forall s, t | s in MarkersOf(m) && t in MarkersOf(m)
      ensures s == t
    {
      assert FlipRank(s) in MarkersOf(b) && FlipRank(t) in MarkersOf(b);
    }
    AtMostOne(MarkersOf(m));
  }

  // ---------- applying a move ----------

  lemma PlainKeepsSides(b: Board, m: Move)
    requires Plain(b, m)
    ensures Sides(Applied(b, m)) && Kings(Applied(b, m))
  {
    PlainKeepsMen(b, m);
    var a := Applied(b, m);
    forall s | s in Masked(a.pawns)
      ensures s in Occupied(a) && s !in a.rooks + a.bishops
    {
      PawnIsPawn(b, m, s);
    }
  }

  lemma PlainKeepsMen(b: Board, m: Move)
    requires Plain(b, m)
    ensures var a := Applied(b, m);
            && AllOnBoard(a.ours) && AllOnBoard(a.theirs) && a.ours !! a.theirs
            && a.rooks <= Occupied(a) && a.bishops <= Occupied(a) && Kings(a)
  {
  }

  lemma PawnIsPawn(b: Board, m: Move, s: Square)
    requires Plain(b, m) && s in Masked(Applied(b, m).pawns)
    ensures var a := Applied(b, m); s in Occupied(a) && s !in a.rooks + a.bishops
  {
  }

  lemma MarkerAppears(b: Board, m: Move)
    requires Consistent(b) && PseudoLegal(b, m) && Plain(b, m)
    ensures OurMarkers(Applied(b, m))
  {
    var a := Applied(b, m);
    forall s | s in MarkersOf(a)
      ensures s == Square(m.to.file, 0) && OurMarker(a, s)
    {
      MarkerOnlyForJump(b, m, s);
    }
    AtMostOne(MarkersOf(a));
  }

  /** Only a pawn that jumped is marked. */
  lemma MarkerOnlyForJump(b: Board, m: Move, s: Square)
    requires Consistent(b) && PseudoLegal(b, m) && Plain(b, m)
    requires s in Applied(b, m).pawns && !OnPawnRank(s)
    ensures s == Square(m.to.file, 0) && OurMarker(Applied(b, m), s)
  {
    var t := Taken(b, m);
    assert m.from != b.ourKing && !m.special.Promote?;
    assert s == Square(m.to.file, 0) && m.to.rank - m.from.rank == 2 && m.to in Carried(t.pawns, m);
    assert m.from in Masked(b.pawns);
    JumpedPawn(b, m);
  }

  lemma JumpedPawn(b: Board, m: Move)
    requires Consistent(b) && PseudoLegal(b, m) && m.from in Masked(b.pawns) && m.to.rank - m.from.rank == 2
    ensures m.from != b.ourKing && PawnJump(b, m)
  {
  }

  lemma RightsKept(b: Board, m: Move)
    requires Consistent(b) && Plain(b, m)
    ensures Rights(Applied(b, m))
  {
    var a := Applied(b, m);
    if a.castlings.we00 { OurRightKept(b, m, true); }
    if a.castlings.we000 { OurRightKept(b, m, false); }
    if a.castlings.they00 { TheirRightKept(b, m, true); }
    if a.castlings.they000 { TheirRightKept(b, m, false); }
  }

  /** The right is only left when neither our king nor its rook moved. */
  lemma OurRightKept(b: Board, m: Move, right: bool)
    requires Consistent(b) && Plain(b, m)
    requires var c := Applied(b, m).castlings; if right then c.we00 else c.we000
    ensures var a, c := Applied(b, m), b.castlings;
            && a.castlings.ourKingside == c.ourKingside && a.castlings.ourQueenside == c.ourQueenside
            && RookFor(a, a.ours, a.ourKing, if right then c.ourKingside else c.ourQueenside, 0, right)
  {
    RookStays(b, m, Square(if right then b.castlings.ourKingside else b.castlings.ourQueenside, 0));
  }

  /** The right is only left when its rook was not taken. */
  lemma TheirRightKept(b: Board, m: Move, right: bool)
    requires Consistent(b) && Plain(b, m)
    requires var c := Applied(b, m).castlings; if right then c.they00 else c.they000
    ensures var a, c := Applied(b, m), b.castlings;
            && a.castlings.theirKingside == c.theirKingside && a.castlings.theirQueenside == c.theirQueenside
            && RookFor(a, a.theirs, a.theirKing, if right then c.theirKingside else c.theirQueenside, 7, right)
  {
    RookStays(b, m, Square(if right then b.castlings.theirKingside else b.castlings.theirQueenside, 7));
  }

  lemma RookStays(b: Board, m: Move, s: Square)
    requires Plain(b, m) && s in Occupied(b) && s in b.rooks && s !in b.bishops && s != m.from && s != m.to
    ensures var a := Applied(b, m);
            s in a.rooks && s !in a.bishops && (s in b.ours ==> s in a.ours) && (s in b.theirs ==> s in a.theirs)
  {
    assert m.special.EnPassant? ==> TakenEnPassant(m) in b.theirs;
  }

  lemma CastlingKeeps(b: Board, m: Move)
    requires Castles(b, m) && Rights(b)
    ensures HandedOver(Applied(b, m))
  {
    CastledKeepsSides(b, m);
    CastledKeepsRights(b, m);
  }

  lemma CastledKeepsSides(b: Board, m: Move)
    requires Castles(b, m)
    ensures Sides(Castled(b, m)) && Kings(Castled(b, m)) && OurMarkers(Castled(b, m))
  {
    assert Masked(Castled(b, m).pawns) == Masked(b.pawns);
    assert MarkersOf(Castled(b, m)) == {};
  }

  lemma CastledKeepsRights(b: Board, m: Move)
    requires Sides(b) && Rights(b) && m.to in b.ours
    ensures Rights(Castled(b, m))
  {
  }

  /** Applying a listed move that leaves their king alone, and handing the board over, keeps it well
      formed. */
  lemma PlyKeepsConsistent(b: Board, m: Move)
    requires Consistent(b) && PseudoLegal(b, m) && StaysOffTheirKing(b, m)
    ensures HandedOver(Applied(b, m)) && Consistent(Mirror(Applied(b, m)))
  {
    if m.special.Castle? {
      ListedCastles(b, m);
      CastlingKeeps(b, m);
    } else {
      ListedIsPlain(b, m);
      PlainKeepsSides(b, m);
      MarkerAppears(b, m);
      RightsKept(b, m);
    }
    MirrorHandsOver(Applied(b, m));
  }
}
