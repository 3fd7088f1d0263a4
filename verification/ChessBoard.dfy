/** The board object: bitboards updated in place, and the move generator and legality filter that
    read them. */
module ChessBoards {
  import opened Squares
  import opened ChessRules
  import opened Boards
  import opened Pseudolegal
  import opened Plies
  import opened Legality
  import opened SafeMoves
  import opened Games
  import opened MoveGenerator
  import opened ChessLaws
  import opened LawfulMoves

  class ChessBoard {
    var ours: set<Square>
    var theirs: set<Square>
    var rooks: set<Square>
    var bishops: set<Square>
    var pawns: set<Square>
    var ourKing: Square
    var theirKing: Square
    var castlings: Castlings
    var flipped: bool

    function Value(): Board
      reads this
    {
      Board(ours, theirs, rooks, bishops, pawns, ourKing, theirKing, castlings, flipped)
    }

    constructor (b: Board)
      ensures Value() == b
    {
      ours, theirs, rooks, bishops, pawns := b.ours, b.theirs, b.rooks, b.bishops, b.pawns;
      ourKing, theirKing, castlings, flipped := b.ourKing, b.theirKing, b.castlings, b.flipped;
    }

    /** Makes our move as the laws say; tells whether the fifty-move count restarts. */
    method ApplyMove(m: Move) returns (reset50: bool)
      requires m.from in ours
      modifies this
      ensures Value() == Applied(old(Value()), m)
      ensures reset50 == Zeroing(old(Value()), m)
      ensures Consistent(old(Value())) && PseudoLegal(old(Value()), m) && StaysOffTheirKing(old(Value()), m) ==>
                SituationOf(Value()) == AfterMove(SituationOf(old(Value())), m)
    {
      ghost var b := Value();
      reset50 := Update(m);
      if Consistent(b) && PseudoLegal(b, m) && StaysOffTheirKing(b, m) { MoveFollowsLaws(b, m); }
    }

    /** The branches of making a move. */
    method Update(m: Move) returns (reset50: bool)
      requires m.from in ours
      modifies this
      ensures Value() == Applied(old(Value()), m)
      ensures reset50 == Zeroing(old(Value()), m)
    {
      var from := m.from;
      if from == ourKing {
        castlings := castlings.(we00 := false, we000 := false);
        if m.special.Castle? {
          DoCastling(KingAfterCastling(m), m.to, RookAfterCastling(m));
          return false;
        }
      }
      reset50 := MoveAndTake(m);
      reset50 := reset50 || from in pawns;
      if from == ourKing {
        ourKing := m.to;
        return;
      }
      if m.special.Promote? {
        Promote(m);
        return true;
      }
      Carry(m);
    }

    method DoCastling(kingTo: Square, rookFrom: Square, rookTo: Square)
      modifies this
      ensures Value() == old(Value()).(pawns := Masked(old(pawns)), ourKing := kingTo,
                           ours := old(ours) - {old(ourKing)} - {rookFrom} + {kingTo} + {rookTo},
                           rooks := old(rooks) - {rookFrom} + {rookTo})
    {
      pawns := Masked(pawns);
      ours := ours - {ourKing};
      ours := ours - {rookFrom};
      rooks := rooks - {rookFrom};
      ourKing := kingTo;
      ours := ours + {ourKing};
      ours := ours + {rookTo};
      rooks := rooks + {rookTo};
    }

    /** Moves the man among ours, takes what it captures or passes, and wipes the markers. */
    method MoveAndTake(m: Move) returns (captured: bool)
      modifies this
      ensures Value() == Taken(old(Value()), m) && captured == (m.to in old(theirs))
    {
      var to := m.to;
      ours := ours - {m.from};
      ours := ours + {to};
      captured := to in theirs;
      NothingLess(theirs);
      NothingLess(rooks);
      NothingLess(bishops);
      NothingLess(pawns);
      if captured {
        theirs := theirs - {to};
        rooks := rooks - {to};
        bishops := bishops - {to};
        pawns := pawns - {to};
        DropTheirRight(to);
      }
      if m.special.EnPassant? {
        pawns := pawns - {TakenEnPassant(m)};
        theirs := theirs - {TakenEnPassant(m)};
      }
      pawns := Masked(pawns);
    }

    method DropTheirRight(to: Square)
      modifies this`castlings
      ensures castlings == old(castlings).(
                they00 := old(castlings).they00 && to != Square(old(castlings).theirKingside, 7),
                they000 := old(castlings).they000 && to != Square(old(castlings).theirQueenside, 7))
    {
      if to == Square(castlings.theirKingside, 7) { castlings := castlings.(they00 := false); }
      if to == Square(castlings.theirQueenside, 7) { castlings := castlings.(they000 := false); }
    }

    method Promote(m: Move)
      requires m.special.Promote?
      modifies this
      ensures Value() == Promoted(old(Value()), m)
    {
      match m.special.kind {
        case Rook => rooks := rooks + {m.to};
        case Bishop => bishops := bishops + {m.to};
        case Queen => rooks := rooks + {m.to}; bishops := bishops + {m.to};
        case _ =>
      }
      pawns := pawns - {m.from};
    }

    /** Carries the moved man's kind along, drops our right to castle with a rook that leaves, and
        marks a pawn that can be taken en passant. */
    method Carry(m: Move)
      modifies this
      ensures Value() == Moved(old(Value()), m)
    {
      DropRight(m);
      CarryKinds(m);
      MarkJump(m);
    }

    method CarryKinds(m: Move)
      modifies this`rooks, this`bishops, this`pawns
      ensures rooks == Carried(old(rooks), m) && bishops == Carried(old(bishops), m) && pawns == Carried(old(pawns), m)
    {
      var from, to := m.from, m.to;
      if from in rooks { rooks := rooks + {to}; }
      if from in bishops { bishops := bishops + {to}; }
      if from in pawns { pawns := pawns + {to}; }
      rooks := rooks - {from};
      bishops := bishops - {from};
      pawns := pawns - {from};
    }

    method DropRight(m: Move)
      modifies this`castlings
      ensures var leavesRook := m.from.rank == 0 && m.from in rooks;
              castlings == old(castlings).(
                we000 := old(castlings).we000 && !(leavesRook && m.from.file == old(castlings).ourQueenside),
                we00 := old(castlings).we00 && !(leavesRook && m.from.file == old(castlings).ourKingside))
    {
      if m.from.rank == 0 && m.from in rooks {
        if m.from.file == castlings.ourQueenside { castlings := castlings.(we000 := false); }
        if m.from.file == castlings.ourKingside { castlings := castlings.(we00 := false); }
      }
    }

    method MarkJump(m: Move)
      modifies this`pawns
      ensures var marked := m.to.rank - m.from.rank == 2 && m.to in old(pawns)
                            && PawnAttackers(Square(m.to.file, m.to.rank - 1)) * theirs * old(pawns) != {};
              pawns == if marked then old(pawns) + {Square(m.to.file, 0)} else old(pawns)
    {
      if m.to.rank - m.from.rank == 2 && m.to in pawns {
        if PawnAttackers(Square(m.to.file, m.to.rank - 1)) * theirs * pawns != {} {
          pawns := pawns + {Square(m.to.file, 0)};
        }
      }
    }

    /** Hands the board to the other side. */
    method Flip()
      modifies this
      ensures Value() == Mirror(old(Value()))
    {
      FlipMen();
      ourKing, theirKing := FlipRank(theirKing), FlipRank(ourKing);
      castlings := MirrorCastlings(castlings);
      flipped := !flipped;
    }

    method FlipMen()
      modifies this`ours, this`theirs, this`rooks, this`bishops, this`pawns
      ensures ours == Mirrored(old(theirs)) && theirs == Mirrored(old(ours))
      ensures rooks == Mirrored(old(rooks)) && bishops == Mirrored(old(bishops)) && pawns == Mirrored(old(pawns))
    {
      rooks, bishops, pawns := Mirrored(rooks), Mirrored(bishops), Mirrored(pawns);
      ours, theirs := Mirrored(theirs), Mirrored(ours);
    }

    // ---------- what is found out about our king ----------

    /** Walks one line from our king, collecting the squares up to the first man of ours, until a man
        of theirs or a second man of ours ends it. */
    method WalkLine(d: Dir) returns (line: Line, attackLine: set<Square>)
      requires OnBoard(ourKing) && ours !! theirs
      ensures line == LineOf(Value(), d)
      ensures line.Checked? ==> attackLine == Segment(ourKing, d, line.far)
    {
      var sliders := if Straight(d) then rooks else bishops;
      line, attackLine := Quiet, {};
      var man, n := 0, 1;
      while OnBoard(At(ourKing, d, n))
        invariant line == Quiet && Walked(Value(), d, n, man, attackLine)
        decreases 8 - n
      {
        var destination := At(ourKing, d, n);
        OnBoardBetween(ourKing, d, n, n);
        if destination in ours {
          if man > 0 {
            WalkMeetsSecond(Value(), d, n, man, attackLine);
            return;
          }
          WalkMeetsFirst(Value(), d, n, attackLine);
          man := n;
        } else if destination in theirs {
          WalkMeetsTheirs(Value(), d, n, man, attackLine);
        } else {
          WalkPasses(Value(), d, n, man, attackLine);
        }
        if man == 0 { attackLine := attackLine + {destination}; }
        if destination in theirs {
          if destination in sliders { line := if man > 0 then Pinned(man, n) else Checked(n); }
          return;
        }
        n := n + 1;
      }
      WalkedOff(Value(), d, n, man, attackLine);
    }

    /** Adds what the lines in these directions show to what is known so far. */
    method AddLines(dirs: seq<Dir>, info: KingAttackInfo, attackers: nat)
      returns (info': KingAttackInfo, attackers': nat)
      requires OnBoard(ourKing) && ours !! theirs
      ensures info' == info.(pinned := info.pinned + PinnedOver(Value(), dirs, |dirs|),
                             attackLines := info.attackLines + CheckedOver(Value(), dirs, |dirs|))
      ensures attackers' == attackers + ChecksOver(Value(), dirs, |dirs|)
    {
      info', attackers' := info, attackers;
      for k := 0 to |dirs|
        invariant info' == info.(pinned := info.pinned + PinnedOver(Value(), dirs, k),
                                 attackLines := info.attackLines + CheckedOver(Value(), dirs, k))
        invariant attackers' == attackers + ChecksOver(Value(), dirs, k)
      {
        var line, attackLine := WalkLine(dirs[k]);
        OneMoreLine(Value(), dirs, k, info);
        if line.Pinned? {
          info' := info'.(pinned := info'.pinned + {At(ourKing, dirs[k], line.man)});
        } else if line.Checked? {
          info' := info'.(attackLines := info'.attackLines + attackLine);
          attackers' := attackers' + 1;
        }
      }
    }

    /** Finds the pinned men, the lines of attack and whether two men give check. */
    method GenerateKingAttackInfo() returns (info: KingAttackInfo)
      requires Sides(Value()) && Kings(Value())
      ensures info == AttackInfo(Value())
    {
      var attackers;
      info, attackers := SliderInfo();
      var attackingPawns := PawnAttackers(ourKing) * theirs * pawns;
      info := info.(attackLines := info.attackLines + attackingPawns);
      if attackingPawns != {} { attackers := attackers + 1; }
      var attackingKnights := KnightAttacks(ourKing) * (theirs - {theirKing} - rooks - bishops - Masked(pawns));
      info := info.(attackLines := info.attackLines + attackingKnights);
      if attackingKnights != {} { attackers := attackers + 1; }
      info := info.(doubleCheck := attackers == 2);
    }

    method SliderInfo() returns (info: KingAttackInfo, attackers: nat)
      requires Sides(Value()) && Kings(Value())
      ensures info == KingAttackInfo(false, PinnedMen(Value()), CheckLines(Value())) && attackers == LineChecks(Value())
    {
      info, attackers := KingAttackInfo(false, {}, {}), 0;
      info, attackers := AddLinesIfSeen(ROOK_DIRS, true, info, attackers);
      info, attackers := AddLinesIfSeen(BISHOP_DIRS, false, info, attackers);
      AllLines(Value(), info, attackers);
    }

    /** The lines are only walked when a slider stands somewhere on them. */
    method AddLinesIfSeen(dirs: seq<Dir>, straight: bool, info: KingAttackInfo, attackers: nat)
      returns (info': KingAttackInfo, attackers': nat)
      requires Sides(Value()) && Kings(Value()) && forall i | 0 <= i < |dirs| :: Straight(dirs[i]) == straight
      ensures info' == info.(pinned := info.pinned + PinnedOver(Value(), dirs, |dirs|),
                             attackLines := info.attackLines + CheckedOver(Value(), dirs, |dirs|))
      ensures attackers' == attackers + ChecksOver(Value(), dirs, |dirs|)
    {
      var seen := if straight then RookAttacks(ourKing, {}) * theirs * rooks
                  else BishopAttacks(ourKing, {}) * theirs * bishops;
      if seen != {} {
        info', attackers' := AddLines(dirs, info, attackers);
      } else {
        NoSliderInSight(Value(), dirs, straight, |dirs|);
        info', attackers' := info, attackers;
      }
    }

    /** Whether a listed move is legal, from what was found out about our king. */
    method IsLegalMove(m: Move, info: KingAttackInfo) returns (legal: bool)
      requires m.from in ours
      ensures legal == IsLegal(Value(), m, info)
    {
      if m.special.EnPassant? {
        legal := SafeOnCopy(m);
        return;
      }
      if info.attackLines != {} {
        if m.from == ourKing {
          legal := SafeOnCopy(m);
          return;
        }
        if m.from in info.pinned { return false; }
        if info.doubleCheck { return false; }
        return m.to in info.attackLines;
      }
      if m.from == ourKing {
        if !m.special.Castle? { return true; }
        legal := SafeOnCopy(m);
        return;
      }
      if m.from !in info.pinned { return true; }
      var dx, dy := m.from.file - ourKing.file, m.from.rank - ourKing.rank;
      var ex, ey := m.to.file - ourKing.file, m.to.rank - ourKing.rank;
      legal := if dx == 0 || ex == 0 then dx == ex else dx * ey == ex * dy;
    }

    /** Lists exactly the legal moves: pseudo-legal ones that leave our king safe. */
    method GenerateLegalMoves() returns (legal: seq<Move>)
      requires Playable(Value()) && ChecksLimited(Value())
      ensures forall m :: m in legal <==> PseudoLegal(Value(), m) && KingSafe(MakeMove(Pieces(Value()), m))
      ensures forall m :: m in legal <==> Lawful(SituationOf(Value()), m)
    {
      var info := GenerateKingAttackInfo();
      var moves := GeneratePseudolegalMoves(Value());
      legal := KeepLegal(moves, info);
      forall m | m in moves
        ensures Passes(Value(), info)(m) <==> KingSafe(MakeMove(Pieces(Value()), m))
      {
        LegalIffKingSafe(Value(), m);
      }
      AllLawful(Value());
    }

    method KeepLegal(moves: seq<Move>, info: KingAttackInfo) returns (legal: seq<Move>)
      requires forall m | m in moves :: m.from in ours
      ensures forall m :: m in legal <==> m in moves && Passes(Value(), info)(m)
    {
      ghost var passes := Passes(Value(), info);
      legal := [];
      for k := 0 to |moves|
        invariant forall m :: m in legal <==> m in moves[..k] && passes(m)
      {
        assert moves[k] in moves && moves[..k + 1] == moves[..k] + [moves[k]];
        var keep := IsLegalMove(moves[k], info);
        assert keep == passes(moves[k]);
        if keep { legal := legal + [moves[k]]; }
      }
      assert moves[..|moves|] == moves;
    }

    /** Makes the move on a copy of the board and looks whether our king is in check. */
    method SafeOnCopy(m: Move) returns (safe: bool)
      requires m.from in ours
      ensures safe == !IsUnderCheck(Applied(Value(), m))
    {
      var board := new ChessBoard(Value());
      var _ := board.ApplyMove(m);
      safe := !IsUnderCheck(board.Value());
    }
  }

  lemma AllLawful(b: Board)
    requires Playable(b)
    ensures forall m :: PseudoLegal(b, m) && KingSafe(MakeMove(Pieces(b), m)) <==> Lawful(SituationOf(b), m)
  {
    forall m
      ensures PseudoLegal(b, m) && KingSafe(MakeMove(Pieces(b), m)) <==> Lawful(SituationOf(b), m)
    {
      LegalIffLawful(b, m);
    }
  }

  lemma NothingLess(squares: set<Square>)
    ensures squares - {} == squares
  {
  }

  function Passes(b: Board, info: KingAttackInfo): Move -> bool { m => IsLegal(b, m, info) }

  // ---------- walking a line ----------

  /** The walk has passed the squares before n; man is where our first man stands, or 0. */
  ghost predicate Walked(b: Board, d: Dir, n: nat, man: nat, attackLine: set<Square>) {
    var occ, king := Occupied(b), b.ourKing;
    && 1 <= n && man < n
    && if man == 0 then First(occ, king, d, 1) == First(occ, king, d, n) && attackLine == Segment(king, d, n - 1)
       else
         && First(occ, king, d, 1) == man && At(king, d, man) !in b.theirs
         && First(occ, king, d, man + 1) == First(occ, king, d, n)
  }

  lemma WalkMeetsFirst(b: Board, d: Dir, n: nat, attackLine: set<Square>)
    requires b.ours !! b.theirs && Walked(b, d, n, 0, attackLine) && n <= 7
    requires OnBoard(At(b.ourKing, d, n)) && At(b.ourKing, d, n) in b.ours
    ensures Walked(b, d, n + 1, n, attackLine)
  {
    assert First(Occupied(b), b.ourKing, d, n) == n;
  }

  lemma WalkMeetsSecond(b: Board, d: Dir, n: nat, man: nat, attackLine: set<Square>)
    requires b.ours !! b.theirs && man > 0 && Walked(b, d, n, man, attackLine) && n <= 7
    requires OnBoard(At(b.ourKing, d, n)) && At(b.ourKing, d, n) in b.ours
    ensures LineOf(b, d) == Quiet
  {
    assert First(Occupied(b), b.ourKing, d, n) == n;
  }

  lemma WalkMeetsTheirs(b: Board, d: Dir, n: nat, man: nat, attackLine: set<Square>)
    requires b.ours !! b.theirs && Walked(b, d, n, man, attackLine) && n <= 7
    requires OnBoard(At(b.ourKing, d, n)) && At(b.ourKing, d, n) in b.theirs
    ensures LineOf(b, d)
            == if !EnemySlider(b, d, At(b.ourKing, d, n)) then Quiet else if man > 0 then Pinned(man, n) else Checked(n)
    ensures man == 0 ==> attackLine + {At(b.ourKing, d, n)} == Segment(b.ourKing, d, n)
  {
    assert First(Occupied(b), b.ourKing, d, n) == n;
  }

  lemma WalkPasses(b: Board, d: Dir, n: nat, man: nat, attackLine: set<Square>)
    requires Walked(b, d, n, man, attackLine) && n <= 7
    requires OnBoard(At(b.ourKing, d, n)) && At(b.ourKing, d, n) !in Occupied(b)
    ensures Walked(b, d, n + 1, man, if man == 0 then attackLine + {At(b.ourKing, d, n)} else attackLine)
  {
    assert First(Occupied(b), b.ourKing, d, n) == First(Occupied(b), b.ourKing, d, n + 1);
  }

  lemma WalkedOff(b: Board, d: Dir, n: nat, man: nat, attackLine: set<Square>)
    requires Walked(b, d, n, man, attackLine) && !OnBoard(At(b.ourKing, d, n))
    ensures LineOf(b, d) == Quiet
  {
  }

  // ---------- adding up lines ----------

  function PinnedOver(b: Board, dirs: seq<Dir>, n: nat): set<Square>
    requires n <= |dirs|
  {
    if n == 0 then {} else PinnedOver(b, dirs, n - 1) + PinnedOn(b, dirs[n - 1])
  }

  function CheckedOver(b: Board, dirs: seq<Dir>, n: nat): set<Square>
    requires n <= |dirs|
  {
    if n == 0 then {} else CheckedOver(b, dirs, n - 1) + CheckedOn(b, dirs[n - 1])
  }

  function ChecksOver(b: Board, dirs: seq<Dir>, n: nat): nat
    requires n <= |dirs|
  {
    if n == 0 then 0 else ChecksOver(b, dirs, n - 1) + Checks(b, dirs[n - 1])
  }

  lemma OneMoreLine(b: Board, dirs: seq<Dir>, k: nat, info: KingAttackInfo)
    requires k < |dirs|
    ensures info.pinned + PinnedOver(b, dirs, k + 1) == info.pinned + PinnedOver(b, dirs, k) + PinnedOn(b, dirs[k])
    ensures info.attackLines + CheckedOver(b, dirs, k + 1)
         == info.attackLines + CheckedOver(b, dirs, k) + CheckedOn(b, dirs[k])
    ensures !LineOf(b, dirs[k]).Pinned? ==> PinnedOver(b, dirs, k + 1) == PinnedOver(b, dirs, k)
    ensures !LineOf(b, dirs[k]).Checked? ==> CheckedOver(b, dirs, k + 1) == CheckedOver(b, dirs, k)
  {
  }

  lemma FourPinned(b: Board, dirs: seq<Dir>)
    requires |dirs| == 4
    ensures PinnedOver(b, dirs, 4)
         == PinnedOn(b, dirs[0]) + PinnedOn(b, dirs[1]) + PinnedOn(b, dirs[2]) + PinnedOn(b, dirs[3])
  {
    assert PinnedOver(b, dirs, 0) == {};
    assert PinnedOver(b, dirs, 1) == PinnedOn(b, dirs[0]);
    assert PinnedOver(b, dirs, 2) == PinnedOver(b, dirs, 1) + PinnedOn(b, dirs[1]);
    assert PinnedOver(b, dirs, 3) == PinnedOver(b, dirs, 2) + PinnedOn(b, dirs[2]);
  }

  lemma FourChecked(b: Board, dirs: seq<Dir>)
    requires |dirs| == 4
    ensures CheckedOver(b, dirs, 4)
         == CheckedOn(b, dirs[0]) + CheckedOn(b, dirs[1]) + CheckedOn(b, dirs[2]) + CheckedOn(b, dirs[3])
  {
    assert CheckedOver(b, dirs, 0) == {};
    assert CheckedOver(b, dirs, 1) == CheckedOn(b, dirs[0]);
    assert CheckedOver(b, dirs, 2) == CheckedOver(b, dirs, 1) + CheckedOn(b, dirs[1]);
    assert CheckedOver(b, dirs, 3) == CheckedOver(b, dirs, 2) + CheckedOn(b, dirs[2]);
  }

  lemma FourChecks(b: Board, dirs: seq<Dir>)
    requires |dirs| == 4
    ensures ChecksOver(b, dirs, 4)
         == Checks(b, dirs[0]) + Checks(b, dirs[1]) + Checks(b, dirs[2]) + Checks(b, dirs[3])
  {
    assert ChecksOver(b, dirs, 0) == 0;
    assert ChecksOver(b, dirs, 1) == Checks(b, dirs[0]);
    assert ChecksOver(b, dirs, 2) == ChecksOver(b, dirs, 1) + Checks(b, dirs[1]);
    assert ChecksOver(b, dirs, 3) == ChecksOver(b, dirs, 2) + Checks(b, dirs[2]);
  }

  lemma AllPinned(b: Board)
    ensures PinnedMen(b) == PinnedOver(b, ROOK_DIRS, 4) + PinnedOver(b, BISHOP_DIRS, 4)
  {
    FourPinned(b, ROOK_DIRS);
    FourPinned(b, BISHOP_DIRS);
  }

  lemma AllChecked(b: Board)
    ensures CheckLines(b) == CheckedOver(b, ROOK_DIRS, 4) + CheckedOver(b, BISHOP_DIRS, 4)
  {
    FourChecked(b, ROOK_DIRS);
    FourChecked(b, BISHOP_DIRS);
  }

  lemma AllChecks(b: Board)
    ensures LineChecks(b) == ChecksOver(b, ROOK_DIRS, 4) + ChecksOver(b, BISHOP_DIRS, 4)
  {
    FourChecks(b, ROOK_DIRS);
    FourChecks(b, BISHOP_DIRS);
  }

  lemma AllLines(b: Board, info: KingAttackInfo, attackers: nat)
    requires info == KingAttackInfo(false, {} + PinnedOver(b, ROOK_DIRS, 4) + PinnedOver(b, BISHOP_DIRS, 4),
                                    {} + CheckedOver(b, ROOK_DIRS, 4) + CheckedOver(b, BISHOP_DIRS, 4))
    requires attackers == 0 + ChecksOver(b, ROOK_DIRS, 4) + ChecksOver(b, BISHOP_DIRS, 4)
    ensures info == KingAttackInfo(false, PinnedMen(b), CheckLines(b)) && attackers == LineChecks(b)
  {
    AllPinned(b);
    AllChecked(b);
    AllChecks(b);
    FromNothing(PinnedOver(b, ROOK_DIRS, 4), PinnedOver(b, BISHOP_DIRS, 4));
    FromNothing(CheckedOver(b, ROOK_DIRS, 4), CheckedOver(b, BISHOP_DIRS, 4));
  }

  lemma FromNothing(x: set<Square>, y: set<Square>)
    ensures {} + x + y == x + y
  {
  }

  /** Without a slider anywhere on the crossing lines, no line shows anything. */
  lemma {:induction false} NoSliderInSight(b: Board, dirs: seq<Dir>, straight: bool, n: nat)
    requires Sides(b) && Kings(b) && n <= |dirs| && forall i | 0 <= i < |dirs| :: Straight(dirs[i]) == straight
    requires if straight then RookAttacks(b.ourKing, {}) * b.theirs * b.rooks == {}
             else BishopAttacks(b.ourKing, {}) * b.theirs * b.bishops == {}
    ensures PinnedOver(b, dirs, n) == {} && CheckedOver(b, dirs, n) == {} && ChecksOver(b, dirs, n) == 0
  {
    if n > 0 {
      QuietWithoutSlider(b, dirs[n - 1]);
      NoSliderInSight(b, dirs, straight, n - 1);
    }
  }

  lemma QuietWithoutSlider(b: Board, d: Dir)
    requires Sides(b) && Kings(b)
    requires if Straight(d) then RookAttacks(b.ourKing, {}) * b.theirs * b.rooks == {}
             else BishopAttacks(b.ourKing, {}) * b.theirs * b.bishops == {}
    ensures LineOf(b, d).Quiet?
  {
    var line := LineOf(b, d);
    if line.Pinned? {
      PinnedLine(b, d);
      SliderInSight(b, d, line.far);
    } else if line.Checked? {
      FirstFound(Occupied(b), b.ourKing, d, 1);
      SliderInSight(b, d, line.far);
    }
  }

  lemma SliderInSight(b: Board, d: Dir, n: nat)
    requires Kings(b) && Sides(b) && 1 <= n && OnBoard(At(b.ourKing, d, n)) && EnemySlider(b, d, At(b.ourKing, d, n))
    ensures if Straight(d) then RookAttacks(b.ourKing, {}) * b.theirs * b.rooks != {}
            else BishopAttacks(b.ourKing, {}) * b.theirs * b.bishops != {}
  {
    var king, t := b.ourKing, At(b.ourKing, d, n);
    ClearFrom({}, king, d, 1, n);
    assert Reaches({}, king, d, t);
    if Straight(d) {
      RookAttacksAre(king, {}, t);
      assert t in RookAttacks(king, {}) * b.theirs * b.rooks;
    } else {
      BishopAttacksAre(king, {}, t);
      assert t in BishopAttacks(king, {}) * b.theirs * b.bishops;
    }
  }
}
