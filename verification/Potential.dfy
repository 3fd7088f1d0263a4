/** A measure of the position that no move increases and every capture or pawn move lowers. */
module Potential {
  import opened Squares
  import opened ChessRules
  import opened Boards
  import opened Pseudolegal
  import opened Plies

  /** A man counts eight; a pawn, also the ranks it has left to go. */
  function Weight(p: Piece, s: Square): int {
    8 + if !p.kind.Pawn? then 0 else if p.ours then 7 - s.rank else s.rank
  }

  function WeightAt(pos: Position, s: Square): int {
    if s in pos then Weight(pos[s], s) else 0
  }

  /** The weights of the first n squares of a rank. */
  function RankWeight(pos: Position, rank: int, n: nat): int
    decreases n, pos
  {
    if n == 0 then 0 else RankWeight(pos, rank, n - 1) + WeightAt(pos, Square(n - 1, rank))
  }

  /** The weights of the first n ranks. */
  function Total(pos: Position, n: nat): int
    decreases n, pos
  {
    if n == 0 then 0 else Total(pos, n - 1) + RankWeight(pos, n - 1, 8)
  }

  ghost predicate SameElsewhere(pos: Position, other: Position, x: Square) {
    forall s | s != x :: WeightAt(pos, s) == WeightAt(other, s)
  }

  lemma {:induction false} RankDiffers(pos: Position, other: Position, x: Square, rank: int, n: nat)
    requires SameElsewhere(pos, other, x)
    ensures RankWeight(other, rank, n) - RankWeight(pos, rank, n)
         == if rank == x.rank && 0 <= x.file < n then WeightAt(other, x) - WeightAt(pos, x) else 0
  {
    if n > 0 { RankDiffers(pos, other, x, rank, n - 1); }
  }

  lemma {:induction false} TotalDiffers(pos: Position, other: Position, x: Square, n: nat)
    requires SameElsewhere(pos, other, x) && 0 <= x.file < 8
    ensures Total(other, n) - Total(pos, n) == if 0 <= x.rank < n then WeightAt(other, x) - WeightAt(pos, x) else 0
  {
    if n > 0 {
      TotalDiffers(pos, other, x, n - 1);
      RankDiffers(pos, other, x, n - 1, 8);
    }
  }

  lemma Taking(pos: Position, x: Square)
    requires OnBoard(x)
    ensures Total(pos - {x}, 8) == Total(pos, 8) - WeightAt(pos, x)
  {
    TotalDiffers(pos, pos - {x}, x, 8);
  }

  lemma Putting(pos: Position, x: Square, p: Piece)
    requires OnBoard(x)
    ensures Total(pos[x := p], 8) == Total(pos, 8) - WeightAt(pos, x) + Weight(p, x)
  {
    TotalDiffers(pos, pos[x := p], x, 8);
  }

  // ---------- mirroring ----------

  lemma {:induction false} MirrorRank(b: Board, rank: int, n: nat)
    requires b.ours !! b.theirs
    ensures RankWeight(Pieces(Mirror(b)), 7 - rank, n) == RankWeight(Pieces(b), rank, n)
  {
    if n > 0 {
      MirrorRank(b, rank, n - 1);
      MirrorWeight(b, Square(n - 1, rank));
    }
  }

  lemma MirrorWeight(b: Board, s: Square)
    requires b.ours !! b.theirs
    ensures WeightAt(Pieces(Mirror(b)), FlipRank(s)) == WeightAt(Pieces(b), s)
  {
    assert FlipRank(FlipRank(s)) == s;
    assert FlipRank(s) == FlipRank(b.ourKing) <==> s == b.ourKing;
    assert FlipRank(s) == FlipRank(b.theirKing) <==> s == b.theirKing;
  }

  /** The first ranks of the mirrored board are the last ranks of the board. */
  lemma {:induction false} MirrorRanks(b: Board, n: nat)
    requires b.ours !! b.theirs && n <= 8
    ensures Total(Pieces(Mirror(b)), n) == Total(Pieces(b), 8) - Total(Pieces(b), 8 - n)
  {
    if n > 0 {
      MirrorRanks(b, n - 1);
      MirrorRank(b, 8 - n, 8);
    }
  }

  /** The side that looks at the board does not matter. */
  lemma MirrorTotal(b: Board)
    requires b.ours !! b.theirs
    ensures Total(Pieces(Mirror(b)), 8) == Total(Pieces(b), 8)
  {
    MirrorRanks(b, 8);
  }

  // ---------- moves ----------

  lemma PlainTotal(b: Board, m: Move)
    requires Plain(b, m)
    ensures var pos := Pieces(b);
            Total(MakeMove(pos, m), 8) == Total(pos, 8) - WeightAt(pos, m.from) - WeightAt(pos, m.to)
              + Weight(if m.special.Promote? then Piece(true, m.special.kind) else pos[m.from], m.to)
              - (if m.special.EnPassant? then WeightAt(pos, TakenEnPassant(m)) else 0)
  {
    var pos := Pieces(b);
    var p := if m.special.Promote? then Piece(true, m.special.kind) else pos[m.from];
    Taking(pos, m.from);
    if m.special.EnPassant? {
      Taking(pos - {m.from}, TakenEnPassant(m));
      assert pos - {m.from, TakenEnPassant(m)} == pos - {m.from} - {TakenEnPassant(m)};
      Putting(pos - {m.from, TakenEnPassant(m)}, m.to, p);
    } else {
      Putting(pos - {m.from}, m.to, p);
    }
  }

  lemma CastlingTotal(b: Board, m: Move)
    requires Castles(b, m)
    ensures Total(MakeMove(Pieces(b), m), 8) == Total(Pieces(b), 8)
  {
    var pos, k, r := Pieces(b), KingAfterCastling(m), RookAfterCastling(m);
    Taking(pos, m.from);
    Taking(pos - {m.from}, m.to);
    assert pos - {m.from, m.to} == pos - {m.from} - {m.to};
    Putting(pos - {m.from, m.to}, k, Piece(true, King));
    Putting((pos - {m.from, m.to})[k := Piece(true, King)], r, Piece(true, Rook));
  }

  function PotentialOf(b: Board): int { Total(Pieces(b), 8) }

  /** A move restarts the fifty-move count exactly when a capture or a pawn move lowers the
      potential; no other move changes it. */
  lemma ZeroingDrops(b: Board, m: Move)
    requires Consistent(b) && PseudoLegal(b, m) && StaysOffTheirKing(b, m)
    ensures if Zeroing(b, m) then PotentialOf(Mirror(Applied(b, m))) < PotentialOf(b)
            else PotentialOf(Mirror(Applied(b, m))) == PotentialOf(b)
  {
    AppliedMakesMove(b, m);
    PlyKeepsConsistent(b, m);
    MirrorTotal(Applied(b, m));
    if m.special.Castle? {
      ListedCastles(b, m);
      CastlingTotal(b, m);
    } else {
      ListedIsPlain(b, m);
      ListedMove(b, m);
      PlainTotal(b, m);
      if m.from in Masked(b.pawns) { PawnsGoUp(b, m); }
      WeightsCompared(b, m);
    }
  }

  lemma PawnsGoUp(b: Board, m: Move)
    requires Consistent(b) && PseudoLegal(b, m) && m.from in Masked(b.pawns)
    ensures m.to.rank > m.from.rank
  {
  }

  lemma WeightsCompared(b: Board, m: Move)
    requires Plain(b, m) && (m.from in Masked(b.pawns) ==> m.to.rank > m.from.rank)
    ensures var pos := Pieces(b);
            var change := Weight(if m.special.Promote? then Piece(true, m.special.kind) else pos[m.from], m.to)
                          - WeightAt(pos, m.from) - WeightAt(pos, m.to)
                          - (if m.special.EnPassant? then WeightAt(pos, TakenEnPassant(m)) else 0);
            if Zeroing(b, m) then change < 0 else change == 0
  {
  }
}
