/** Listing the moves: loops over our men, their targets and promotions. */
module MoveGenerator {
  import opened Squares
  import opened ChessRules
  import opened Boards
  import opened Pseudolegal
  import opened ChessLaws
  import opened LawfulMoves

  const KING_MOVES: seq<(int, int)> := [(-1, -1), (-1, 0), (-1, 1), (0, -1), (0, 1), (1, -1), (1, 0), (1, 1)]

  const PROMOTIONS: seq<Kind> := [Queen, Rook, Bishop, Knight]

  /** The listed moves of the man on one square. */
  ghost predicate MovesOf(b: Board, s: Square, moves: seq<Move>) {
    forall m :: m in moves <==> PseudoLegal(b, m) && m.from == s
  }

  // ---------- the king ----------

  method KingSteps(b: Board) returns (moves: seq<Move>)
    ensures forall m :: m in moves <==> KingMove(b, m)
  {
    moves := StepsFrom(b.ourKing, s => s in b.ours || IsUnderAttack(b, s));
  }

  method StepsFrom(king: Square, barred: Square -> bool) returns (moves: seq<Move>)
    ensures forall m :: m in moves <==> StepMove(king, barred, m)
  {
    moves := [];
    for k := 0 to 8
      invariant forall m :: m in moves <==>
                  StepMove(king, barred, m) && exists i :: 0 <= i < k && StepsBy(m, KING_MOVES[i])
    {
      var to := Square(king.file + KING_MOVES[k].1, king.rank + KING_MOVES[k].0);
      var m := Move(king, to, Ordinary);
      assert StepsBy(m, KING_MOVES[k]);
      StepIsKingStep(m, k);
      if OnBoard(to) && !barred(to) {
        moves := moves + [m];
      }
    }
    forall m | StepMove(king, barred, m)
      ensures exists i :: 0 <= i < 8 && StepsBy(m, KING_MOVES[i])
    {
      SomeStep(m);
    }
  }

  predicate StepMove(king: Square, barred: Square -> bool, m: Move) {
    m.special.Ordinary? && m.from == king && OnBoard(m.to) && KingStep(m.from, m.to) && !barred(m.to)
  }

  lemma StepIsKingStep(m: Move, k: nat)
    requires k < 8 && StepsBy(m, KING_MOVES[k])
    ensures KingStep(m.from, m.to)
  {
  }

  predicate StepsBy(m: Move, delta: (int, int)) {
    m.to == Square(m.from.file + delta.1, m.from.rank + delta.0)
  }

  lemma SomeStep(m: Move)
    requires KingStep(m.from, m.to)
    ensures exists i :: 0 <= i < 8 && StepsBy(m, KING_MOVES[i])
  {
    var r, f := m.to.rank - m.from.rank, m.to.file - m.from.file;
    var i := if r == -1 then f + 1 else if r == 0 then (if f == -1 then 3 else 4) else f + 6;
    assert StepsBy(m, KING_MOVES[i]);
  }

  method IsWalkFree(b: Board, from: int, to: int, rook: int, king: int) returns (free: bool)
    ensures free == WalkFree(b, from, to, rook, king)
  {
    var i := from;
    while i <= to
      invariant from <= i
      invariant forall j | from <= j < i && j != rook && j != king :: Square(j, 0) !in Occupied(b)
    {
      if i != rook && i != king {
        if Square(i, 0) in b.ours || Square(i, 0) in b.theirs { return false; }
      }
      i := i + 1;
    }
    free := true;
  }

  method IsRangeAttacked(attacked: Square -> bool, start: int, to: int) returns (hit: bool)
    ensures hit == RangeHit(attacked, start, to)
  {
    if start == to { return attacked(Square(start, 0)); }
    var increment := if start < to then 1 else -1;
    var from := start;
    while from != to
      invariant if start < to then start <= from <= to else to <= from <= start
      invariant forall i | (if start < to then start <= i < from else from < i <= start) :: !attacked(Square(i, 0))
      decreases if start < to then to - from else from - to
    {
      if attacked(Square(from, 0)) { return true; }
      from := from + increment;
    }
    hit := false;
  }

  method Castlings(b: Board) returns (moves: seq<Move>)
    requires b.ourKing in b.ours
    ensures forall m :: m in moves <==> CastlingMove(b, m)
  {
    moves := [];
    var king := b.ourKing.file;
    if b.castlings.we000 {
      var rook := b.castlings.ourQueenside;
      var free := IsWalkFree(b, Min(2, rook), Max(3, king), rook, king);
      var attacked := IsRangeAttacked(AttackedSquare(b), king, 2);
      if free && !attacked { moves := moves + [Move(Square(king, 0), Square(rook, 0), Castle)]; }
    }
    if b.castlings.we00 {
      var rook := b.castlings.ourKingside;
      var free := IsWalkFree(b, Min(5, king), Max(6, rook), rook, king);
      var attacked := IsRangeAttacked(AttackedSquare(b), king, 6);
      if free && !attacked { moves := moves + [Move(Square(king, 0), Square(rook, 0), Castle)]; }
    }
  }

  // ---------- pieces ----------

  /** Appends the ordinary moves from one square to each of some others. */
  method AppendAll(moves: seq<Move>, from: Square, targets: set<Square>) returns (result: seq<Move>)
    ensures forall m :: m in result <==> m in moves || (m.special.Ordinary? && m.from == from && m.to in targets)
  {
    result := moves;
    var rest := targets;
    while rest != {}
      invariant rest <= targets
      invariant forall m :: m in result <==>
                  m in moves || (m.special.Ordinary? && m.from == from && m.to in targets - rest)
    {
      var to :| to in rest;
      result := result + [Move(from, to, Ordinary)];
      rest := rest - {to};
    }
  }

  // ---------- pawns ----------

  method AppendPromotions(moves: seq<Move>, from: Square, to: Square) returns (result: seq<Move>)
    ensures forall m :: m in result <==>
              m in moves || (m.from == from && m.to == to && m.special.Promote? && Promotable(m.special.kind))
  {
    result := moves;
    for k := 0 to 4
      invariant forall m :: m in result <==>
                  m in moves || (m.from == from && m.to == to && m.special.Promote?
                    && m.special.kind in PROMOTIONS[..k])
    {
      result := result + [Move(from, to, Promote(PROMOTIONS[k]))];
      assert PROMOTIONS[..k + 1] == PROMOTIONS[..k] + [PROMOTIONS[k]];
    }
    assert PROMOTIONS[..4] == PROMOTIONS;
    forall kind: Kind
      ensures Promotable(kind) <==> kind in PROMOTIONS
    {
      assert Queen == PROMOTIONS[0] && Rook == PROMOTIONS[1] && Bishop == PROMOTIONS[2] && Knight == PROMOTIONS[3];
    }
  }

  method PawnPushes(b: Board, s: Square) returns (moves: seq<Move>)
    requires OnPawnRank(s)
    ensures forall m :: m in moves <==> m.from == s && (PawnStep(b, m) || PawnJump(b, m))
  {
    moves := [];
    var to := Square(s.file, s.rank + 1);
    if to !in b.ours && to !in b.theirs {
      if to.rank != 7 {
        moves := moves + [Move(s, to, Ordinary)];
        if to.rank == 2 {
          var jump := Square(s.file, 3);
          if jump !in b.ours && jump !in b.theirs {
            moves := moves + [Move(s, jump, Ordinary)];
          }
        }
      } else {
        moves := AppendPromotions(moves, s, to);
      }
    }
  }

  method AppendCaptures(b: Board, s: Square, to: Square, moves: seq<Move>) returns (result: seq<Move>)
    requires PawnHits(true, s, to)
    ensures forall m :: m in result <==>
              m in moves || (m.from == s && m.to == to && (PawnCapture(b, m) || PassingCapture(b, m)))
  {
    result := moves;
    if OnBoard(to) {
      if to in b.theirs {
        if to.rank == 7 {
          result := AppendPromotions(result, s, to);
        } else {
          result := result + [Move(s, to, Ordinary)];
        }
      } else if to.rank == 5 && Square(to.file, 7) in b.pawns {
        result := result + [Move(s, to, EnPassant)];
      }
    }
  }

  method PawnMoves(b: Board, s: Square) returns (moves: seq<Move>)
    requires s in Masked(b.pawns) && s !in b.rooks + b.bishops
    ensures forall m :: m in moves <==> m.from == s && PawnMove(b, m)
  {
    moves := PawnPushes(b, s);
    moves := AppendCaptures(b, s, Square(s.file - 1, s.rank + 1), moves);
    moves := AppendCaptures(b, s, Square(s.file + 1, s.rank + 1), moves);
  }

  // ---------- all men ----------

  method ManMoves(b: Board, s: Square) returns (moves: seq<Move>)
    requires s in b.ours && s != b.ourKing && Masked(b.pawns) !! b.rooks + b.bishops
    ensures MovesOf(b, s, moves)
  {
    moves := [];
    var processed := false;
    if s in b.rooks {
      processed := true;
      moves := AppendAll(moves, s, RookAttacks(s, Occupied(b)) - b.ours);
    }
    if s in b.bishops {
      processed := true;
      moves := AppendAll(moves, s, BishopAttacks(s, Occupied(b)) - b.ours);
    }
    if !processed {
      if s in Masked(b.pawns) {
        moves := PawnMoves(b, s);
      } else {
        moves := AppendAll(moves, s, KnightAttacks(s) - b.ours);
      }
    }
  }

  method KingMoves(b: Board) returns (moves: seq<Move>)
    requires Sides(b) && Kings(b) && Rights(b)
    ensures MovesOf(b, b.ourKing, moves)
  {
    var steps := KingSteps(b);
    var castlings := Castlings(b);
    moves := steps + castlings;
    assert forall m | CastlingMove(b, m) :: m.from == b.ourKing;
  }

  /** Lists exactly the pseudo-legal moves, which are those the laws allow before the king's safety is
      looked at. */
  method GeneratePseudolegalMoves(b: Board) returns (moves: seq<Move>)
    requires Consistent(b)
    ensures forall m :: m in moves <==> PseudoLegal(b, m)
    ensures forall m :: m in moves <==> MayMove(SituationOf(b), m) && Guarded(Pieces(b), m)
  {
    moves := [];
    var rest := b.ours;
    while rest != {}
      invariant rest <= b.ours
      invariant forall m :: m in moves <==> PseudoLegal(b, m) && m.from !in rest
    {
      var s :| s in rest;
      var more;
      if s == b.ourKing {
        more := KingMoves(b);
      } else {
        more := ManMoves(b, s);
      }
      moves := moves + more;
      rest := rest - {s};
    }
    forall m
      ensures PseudoLegal(b, m) <==> MayMove(SituationOf(b), m) && Guarded(Pieces(b), m)
    {
      ListedIffAllowed(b, m);
    }
  }
}
