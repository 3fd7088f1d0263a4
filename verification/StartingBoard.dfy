/** The starting position is one from which games are played. */
module StartingBoard {
  import opened Squares
  import opened ChessRules
  import opened Boards
  import opened Pseudolegal
  import opened Legality
  import opened SafeMoves
  import opened Games

  function Ranks(lo: int, hi: int): (squares: set<Square>)
    ensures forall s :: s in squares <==> 0 <= s.file < 8 && lo <= s.rank <= hi
  {
    set f, r | 0 <= f < 8 && lo <= r <= hi :: Square(f, r)
  }

  function StartBoard(): Board {
    Board(Ranks(0, 1), Ranks(6, 7),
          {Square(0, 0), Square(7, 0), Square(3, 0), Square(0, 7), Square(7, 7), Square(3, 7)},
          {Square(2, 0), Square(5, 0), Square(3, 0), Square(2, 7), Square(5, 7), Square(3, 7)},
          Ranks(1, 1) + Ranks(6, 6), Square(4, 0), Square(4, 7),
          Castlings(0, 0, 7, 7, true, true, true, true), false)
  }

  lemma StartSides()
    ensures Sides(StartBoard()) && Masked(StartBoard().pawns) == StartBoard().pawns
  {
    var b := StartBoard();
    assert Masked(b.pawns) == b.pawns;
  }

  lemma StartKings()
    ensures Kings(StartBoard()) && Rights(StartBoard())
  {
  }

  lemma StartMarkers()
    ensures Markers(StartBoard())
  {
    StartSides();
    assert MarkersOf(StartBoard()) == {};
  }

  lemma StartIsConsistent()
    ensures Consistent(StartBoard())
  {
    StartSides();
    StartKings();
    StartMarkers();
  }

  /** Every square around a king at home is taken by its own men. */
  lemma HomeIsFull(d: Dir, up: bool)
    ensures var s := At(Square(4, if up then 0 else 7), d, 1);
            OnBoard(s) ==> s in if up then Ranks(0, 1) else Ranks(6, 7)
  {
  }

  lemma NoLineToTheirKing(t: Square, d: Dir)
    requires t in StartBoard().ours
    ensures !Reaches(Occupied(StartBoard()), t, d, Square(4, 7))
  {
    var b, king := StartBoard(), Square(4, 7);
    if Reaches(Occupied(b), t, d, king) {
      var k: nat :| 1 <= k && king == At(t, d, k) && Clear(Occupied(b), t, d, 1, k);
      TwoWays(t, d, k, 1);
      HomeIsFull(Opposite(d), false);
      OnBoardBetween(t, d, k - 1, k);
      assert k > 1;
      ClearAt(Occupied(b), t, d, 1, k, k - 1);
    }
  }

  lemma NoSliderHits(t: Square)
    requires t in StartBoard().ours
    ensures var occ := Occupied(StartBoard()); !AlongRank(occ, t, Square(4, 7)) && !AlongDiagonal(occ, t, Square(4, 7))
  {
    forall d
      ensures !Reaches(Occupied(StartBoard()), t, d, Square(4, 7))
    {
      NoLineToTheirKing(t, d);
    }
  }

  lemma NoManHits(t: Square, kind: Kind)
    requires t in StartBoard().ours
    ensures !Hits(Occupied(StartBoard()), Piece(true, kind), t, Square(4, 7))
  {
    NoSliderHits(t);
    assert t.rank <= 1;
  }

  lemma TheirKingUnattacked()
    ensures !Attacked(Pieces(StartBoard()), true, StartBoard().theirKing)
  {
    var b := StartBoard();
    forall t | t in b.ours
      ensures !Hits(Occupied(b), Piece(true, KindAt(b, t)), t, Square(4, 7))
    {
      NoManHits(t, KindAt(b, t));
    }
  }

  /** A man of ours next to our king keeps the line quiet. */
  lemma ShieldedLine(b: Board, d: Dir)
    requires b.ours !! b.theirs && (OnBoard(At(b.ourKing, d, 1)) ==> At(b.ourKing, d, 1) in b.ours)
    ensures !LineOf(b, d).Checked?
  {
    if OnBoard(At(b.ourKing, d, 1)) {
      assert First(Occupied(b), b.ourKing, d, 1) == 1;
    } else {
      assert First(Occupied(b), b.ourKing, d, 1) == 0;
    }
  }

  lemma NoLineChecked(d: Dir)
    ensures !LineOf(StartBoard(), d).Checked?
  {
    HomeIsFull(d, true);
    ShieldedLine(StartBoard(), d);
  }

  lemma NoCheckingPawn(t: Square)
    ensures t !in CheckingPawns(StartBoard())
  {
    assert t in PawnAttackers(StartBoard().ourKing) ==> t.rank == 1;
  }

  lemma NoCheckingKnight(t: Square)
    ensures t !in CheckingKnights(StartBoard())
  {
    assert t in KnightAttacks(StartBoard().ourKing) ==> t.rank <= 2;
    assert t in TheirKnights(StartBoard()) ==> t in StartBoard().theirs;
  }

  lemma NoLineChecks()
    ensures LineChecks(StartBoard()) <= 1
  {
    var b := StartBoard();
    forall d
      ensures !LineOf(b, d).Checked?
    {
      NoLineChecked(d);
    }
    OneLineAtMost(b);
  }

  lemma NobodyChecks()
    ensures ChecksLimited(StartBoard())
  {
    forall t
      ensures t !in CheckingPawns(StartBoard()) && t !in CheckingKnights(StartBoard())
    {
      NoCheckingPawn(t);
      NoCheckingKnight(t);
    }
    NoLineChecks();
    NoStepChecks(StartBoard());
  }

  lemma StartIsPlayable()
    ensures Playable(StartBoard())
  {
    StartIsConsistent();
    TheirKingUnattacked();
  }

  /** The king's pawn may go two squares. */
  function KingsPawn(): Move { Move(Square(4, 1), Square(4, 3), Ordinary) }

  lemma KingsPawnListed()
    ensures PseudoLegal(StartBoard(), KingsPawn())
  {
    var b := StartBoard();
    assert KingsPawn().from in b.ours && KingsPawn().from in Masked(b.pawns);
    assert KingsPawn().from !in b.rooks + b.bishops && KingsPawn().from != b.ourKing;
    assert Square(4, 2) !in Occupied(b) && Square(4, 3) !in Occupied(b);
    assert PawnJump(b, KingsPawn());
  }

  /** A game may start from the starting position, and a move is listed there. */
  lemma GamesStartHere()
    ensures LegalGame(Start(StartBoard())) && PseudoLegal(Now(Start(StartBoard())), KingsPawn())
  {
    StartIsPlayable();
    NobodyChecks();
    KingsPawnListed();
  }
}
