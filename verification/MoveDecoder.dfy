/** Reading a move back from the planes of a board and of the board before it. */
module MoveDecoder {
  import opened Wrappers
  import opened Squares
  import opened ChessRules
  import opened Boards
  import opened Pseudolegal
  import opened Plies

  // ---------- planes ----------

  /** One plane for each kind of piece, ours and theirs. */
  datatype Planes = Planes(ours: Kind -> set<Square>, theirs: Kind -> set<Square>)

  /** The squares holding a kind of piece, from the overlapping sets of the board. */
  function OfKind(b: Board, kind: Kind): set<Square> {
    match kind
    case Pawn => Masked(b.pawns)
    case Knight => b.ours + b.theirs - Masked(b.pawns) - {b.ourKing} - {b.theirKing} - b.rooks - b.bishops
    case Bishop => b.bishops - b.rooks
    case Rook => b.rooks - b.bishops
    case Queen => b.rooks * b.bishops
    case King => {b.ourKing, b.theirKing}
  }

  function PlanesOf(b: Board): Planes {
    Planes(k => b.ours * OfKind(b, k), k => b.theirs * OfKind(b, k))
  }

  lemma PlaneHolds(b: Board, kind: Kind, s: Square)
    requires Sides(b) && Kings(b) && s in Occupied(b)
    ensures s in OfKind(b, kind) <==> KindAt(b, s) == kind
  {
  }

  /** The planes of a board are its pieces, kind by kind. */
  lemma PlanesShowPieces(b: Board, kind: Kind, s: Square)
    requires Sides(b) && Kings(b)
    ensures s in PlanesOf(b).ours(kind) <==> s in Pieces(b) && Pieces(b)[s] == Piece(true, kind)
    ensures s in PlanesOf(b).theirs(kind) <==> s in Pieces(b) && Pieces(b)[s] == Piece(false, kind)
  {
    if s in Occupied(b) { PlaneHolds(b, kind, s); }
  }

  // ---------- decoding ----------

  function FlipMove(m: Move): Move { Move(FlipRank(m.from), FlipRank(m.to), m.special) }

  /** The first square of a set, counting from a1, among those from number i on. */
  function FirstFrom(squares: set<Square>, i: nat): Square
    decreases 64 - i, squares
  {
    if i >= 64 then Square(0, 0) else if IndexSquare(i) in squares then IndexSquare(i) else FirstFrom(squares, i + 1)
  }

  function SingleSquare(squares: set<Square>): Square { FirstFrom(squares, 0) }

  lemma {:induction false} FirstFound(s: Square, i: nat)
    requires OnBoard(s) && i <= Index(s)
    ensures FirstFrom({s}, i) == s
    decreases 64 - i
  {
    if i < Index(s) { FirstFound(s, i + 1); } else { IndexOf(s); }
  }

  lemma Single(s: Square)
    requires OnBoard(s)
    ensures SingleSquare({s}) == s
  {
    FirstFound(s, 0);
  }

  /** The squares where a plane and the mirrored earlier plane differ. */
  function MaskDiff(cur: set<Square>, prev: set<Square>): set<Square> {
    (cur - Mirrored(prev)) + (Mirrored(prev) - cur)
  }

  function OldPosition(prev: set<Square>, diff: set<Square>): Square { SingleSquare(Mirrored(prev) * diff) }

  /** A castling move by files, on the rank the king came from. */
  function CastlingMove(from: Square, to: Square): Move {
    var m := Move(Square(from.file, 0), Square(to.file, 0), Castle);
    if from.rank == 7 then FlipMove(m) else m
  }

  function DecodePromotion(cur: Planes, prior: Planes, from: Square): Option<Move> {
    var knights := MaskDiff(cur.theirs(Knight), prior.ours(Knight));
    var bishops := MaskDiff(cur.theirs(Bishop), prior.ours(Bishop));
    var rooks := MaskDiff(cur.theirs(Rook), prior.ours(Rook));
    var queens := MaskDiff(cur.theirs(Queen), prior.ours(Queen));
    if |knights| == 1 then Some(Move(from, SingleSquare(knights), Promote(Knight)))
    else if |bishops| == 1 then Some(Move(from, SingleSquare(bishops), Promote(Bishop)))
    else if |rooks| == 1 then Some(Move(from, SingleSquare(rooks), Promote(Rook)))
    else if |queens| == 1 then Some(Move(from, SingleSquare(queens), Promote(Queen)))
    else None
  }

  function DecodeKing(cur: Planes, prior: Planes, kingDiff: set<Square>, rookDiff: set<Square>): Move {
    var from := OldPosition(prior.ours(King), kingDiff);
    if |rookDiff| == 2 then CastlingMove(from, OldPosition(prior.ours(Rook), rookDiff))
    else
      var to := SingleSquare(cur.theirs(King) * kingDiff);
      if Abs(from.file - to.file) > 1 then
        CastlingMove(from, Square(if from.file > to.file then to.file + 1 else to.file - 1, from.rank))
      else Move(from, to, Ordinary)
  }

  function DecodeRook(cur: Planes, prior: Planes, rookDiff: set<Square>): Move {
    var from := OldPosition(prior.ours(Rook), rookDiff);
    var to := SingleSquare(cur.theirs(Rook) * rookDiff);
    var king := SingleSquare(cur.theirs(King));
    if from.rank == king.rank && to.rank == king.rank
       && ((from.file < king.file && to.file > king.file) || (from.file > king.file && to.file < king.file))
    then CastlingMove(king, from)
    else Move(from, to, Ordinary)
  }

  function DecodePawn(cur: Planes, prior: Planes, pawnDiff: set<Square>): Move {
    var from := OldPosition(prior.ours(Pawn), pawnDiff);
    var to := SingleSquare(cur.theirs(Pawn) * pawnDiff);
    var targets := prior.theirs(Pawn) + prior.theirs(Knight) + prior.theirs(Bishop) + prior.theirs(Rook)
      + prior.theirs(Queen);
    Move(from, to, if from.file != to.file && Mirrored(targets) * pawnDiff == {} then EnPassant else Ordinary)
  }

  function DecodePiece(cur: Planes, prior: Planes, kind: Kind, diff: set<Square>): Move {
    Move(OldPosition(prior.ours(kind), diff), SingleSquare(cur.theirs(kind) * diff), Ordinary)
  }

  function Decode(cur: Planes, prior: Planes): Option<Move> {
    var pawnDiff := MaskDiff(cur.theirs(Pawn), prior.ours(Pawn));
    var knightDiff := MaskDiff(cur.theirs(Knight), prior.ours(Knight));
    var bishopDiff := MaskDiff(cur.theirs(Bishop), prior.ours(Bishop));
    var rookDiff := MaskDiff(cur.theirs(Rook), prior.ours(Rook));
    var queenDiff := MaskDiff(cur.theirs(Queen), prior.ours(Queen));
    var kingDiff := MaskDiff(cur.theirs(King), prior.ours(King));
    if |pawnDiff| == 1 then DecodePromotion(cur, prior, SingleSquare(pawnDiff))
    else if |kingDiff| == 2 then Some(DecodeKing(cur, prior, kingDiff, rookDiff))
    else if |queenDiff| == 2 then Some(DecodePiece(cur, prior, Queen, queenDiff))
    else if |rookDiff| == 2 then Some(DecodeRook(cur, prior, rookDiff))
    else if |bishopDiff| == 2 then Some(DecodePiece(cur, prior, Bishop, bishopDiff))
    else if |knightDiff| == 2 then Some(DecodePiece(cur, prior, Knight, knightDiff))
    else if |pawnDiff| == 2 then Some(DecodePawn(cur, prior, pawnDiff))
    else None
  }

  // ---------- what a move changes ----------

  /** What a move changes of our men of one kind: who left a square, and who came to one. */
  datatype Change = Change(gone: set<Square>, come: set<Square>)

  /** Our men of a kind, before and after a change. */
  predicate Changes(before: set<Square>, after: set<Square>, c: Change) {
    after == before - c.gone + c.come && c.gone <= before && c.come !! before
  }

  function ChangeOf(b: Board, m: Move, kind: Kind): Change {
    var moved := KindAt(b, m.from);
    if m.special.Castle? then
      if kind == King then Swap(m.from, KingAfterCastling(m))
      else if kind == Rook then Swap(m.to, RookAfterCastling(m))
      else Change({}, {})
    else if m.special.Promote? then
      if kind == Pawn then Change({m.from}, {})
      else if kind == m.special.kind then Change({}, {m.to})
      else Change({}, {})
    else if kind == moved then Change({m.from}, {m.to})
    else Change({}, {})
  }

  function Swap(from: Square, to: Square): Change {
    if from == to then Change({}, {}) else Change({from}, {to})
  }

  /** Our men of one kind after a move. */
  lemma OurMenAfter(b: Board, m: Move, kind: Kind)
    requires Consistent(b) && PseudoLegal(b, m) && StaysOffTheirKing(b, m)
    ensures Changes(b.ours * OfKind(b, kind), Applied(b, m).ours * OfKind(Applied(b, m), kind), ChangeOf(b, m, kind))
  {
    PlyKeepsConsistent(b, m);
    if m.special.Castle? {
      ListedCastles(b, m);
      CastledMenAfter(b, m, kind);
    } else {
      ListedIsPlain(b, m);
      PlainMenAfter(b, m, kind);
    }
  }

  lemma PlainMenAfter(b: Board, m: Move, kind: Kind)
    requires Plain(b, m) && Sides(Applied(b, m)) && Kings(Applied(b, m))
    ensures Changes(b.ours * OfKind(b, kind), Applied(b, m).ours * OfKind(Applied(b, m), kind), ChangeOf(b, m, kind))
  {
    var a, c := Applied(b, m), ChangeOf(b, m, kind);
    var before, after := b.ours * OfKind(b, kind), a.ours * OfKind(a, kind);
    forall s
      ensures s in after <==> s in before - c.gone + c.come
    {
      PlainManAt(b, m, kind, s);
    }
    PlaneHolds(b, kind, m.from);
    PlaneHolds(b, Pawn, m.from);
  }

  lemma PlainManAt(b: Board, m: Move, kind: Kind, s: Square)
    requires Plain(b, m) && Sides(Applied(b, m)) && Kings(Applied(b, m))
    ensures var a, c := Applied(b, m), ChangeOf(b, m, kind);
            s in a.ours * OfKind(a, kind) <==> s in b.ours * OfKind(b, kind) - c.gone + c.come
  {
    var a := Applied(b, m);
    if s in a.ours {
      PlaneHolds(a, kind, s);
      SquareAfterMove(b, m, s);
    }
    if s in b.ours { PlaneHolds(b, kind, s); }
  }

  lemma CastledMenAfter(b: Board, m: Move, kind: Kind)
    requires Castles(b, m) && Sides(Applied(b, m)) && Kings(Applied(b, m))
    ensures Changes(b.ours * OfKind(b, kind), Applied(b, m).ours * OfKind(Applied(b, m), kind), ChangeOf(b, m, kind))
  {
    var a, c := Applied(b, m), ChangeOf(b, m, kind);
    var before, after := b.ours * OfKind(b, kind), a.ours * OfKind(a, kind);
    forall s
      ensures s in after <==> s in before - c.gone + c.come
    {
      if s in a.ours {
        PlaneHolds(a, kind, s);
        SquareAfterCastling(b, m, s);
      }
      if s in b.ours { PlaneHolds(b, kind, s); }
    }
  }

  // ---------- what the planes show ----------

  lemma MirroredPlane(a: Board, kind: Kind)
    ensures PlanesOf(Mirror(a)).theirs(kind) == Mirrored(a.ours * OfKind(a, kind))
  {
    var m := Mirror(a);
    forall s
      ensures s in OfKind(m, kind) <==> FlipRank(s) in OfKind(a, kind)
    {
      FlipTwice(s);
      FlipTwice(a.ourKing);
      FlipTwice(a.theirKing);
    }
  }

  lemma FlipTwice(s: Square)
    ensures FlipRank(FlipRank(s)) == s
  {
  }

  /** The difference of the planes is the change, mirrored. */
  lemma DiffShows(before: set<Square>, after: set<Square>, c: Change)
    requires Changes(before, after, c)
    ensures var diff := MaskDiff(Mirrored(after), before);
            && diff == Mirrored(c.gone + c.come)
            && Mirrored(before) * diff == Mirrored(c.gone) && Mirrored(after) * diff == Mirrored(c.come)
  {
  }

  lemma MirroredSmall(s: Square, t: Square)
    ensures Mirrored({}) == {} && Mirrored({s}) == {FlipRank(s)}
    ensures Mirrored({s} + {t}) == {FlipRank(s), FlipRank(t)}
    ensures s != t ==> |Mirrored({s} + {t})| == 2
  {
    FlipTwice(s);
    FlipTwice(t);
    forall x
      ensures FlipRank(x) == s <==> x == FlipRank(s)
      ensures FlipRank(x) == t <==> x == FlipRank(t)
    {
      FlipTwice(x);
    }
  }

  /** The planes agree with a change, as far as decoding looks at them. */
  ghost predicate Shows(cur: Planes, prior: Planes, kind: Kind, c: Change) {
    var diff := MaskDiff(cur.theirs(kind), prior.ours(kind));
    && diff == Mirrored(c.gone + c.come)
    && Mirrored(prior.ours(kind)) * diff == Mirrored(c.gone) && cur.theirs(kind) * diff == Mirrored(c.come)
  }

  lemma PlanesShow(b: Board, m: Move, kind: Kind)
    requires Consistent(b) && PseudoLegal(b, m) && StaysOffTheirKing(b, m)
    ensures Shows(PlanesOf(Mirror(Applied(b, m))), PlanesOf(b), kind, ChangeOf(b, m, kind))
  {
    var a := Applied(b, m);
    MirroredPlane(a, kind);
    OurMenAfter(b, m, kind);
    DiffShows(b.ours * OfKind(b, kind), a.ours * OfKind(a, kind), ChangeOf(b, m, kind));
  }

  /** A kind of which nobody moved shows no difference. */
  lemma NothingShows(cur: Planes, prior: Planes, kind: Kind)
    requires Shows(cur, prior, kind, Change({}, {}))
    ensures |MaskDiff(cur.theirs(kind), prior.ours(kind))| == 0
  {
    MirroredSmall(Square(0, 0), Square(0, 0));
    assert Mirrored({} + {}) == {};
  }

  /** A man that moved shows where it came from and where it went. */
  lemma MovedShows(cur: Planes, prior: Planes, kind: Kind, from: Square, to: Square)
    requires Shows(cur, prior, kind, Change({from}, {to})) && from != to && OnBoard(from) && OnBoard(to)
    ensures var diff := MaskDiff(cur.theirs(kind), prior.ours(kind));
            && |diff| == 2 && diff == {FlipRank(from), FlipRank(to)}
            && OldPosition(prior.ours(kind), diff) == FlipRank(from)
              && SingleSquare(cur.theirs(kind) * diff) == FlipRank(to)
  {
    MirroredSmall(from, to);
    MirroredSmall(to, from);
    Single(FlipRank(from));
    Single(FlipRank(to));
  }

  lemma OneShows(cur: Planes, prior: Planes, kind: Kind, c: Change, s: Square)
    requires Shows(cur, prior, kind, c) && c.gone + c.come == {s} && OnBoard(s)
    ensures var diff := MaskDiff(cur.theirs(kind), prior.ours(kind)); |diff| == 1 && SingleSquare(diff) == FlipRank(s)
  {
    MirroredSmall(s, s);
    Single(FlipRank(s));
  }

  ghost predicate AllShow(cur: Planes, prior: Planes, b: Board, m: Move) {
    forall kind :: Shows(cur, prior, kind, ChangeOf(b, m, kind))
  }

  // ---------- decoding each kind of move ----------

  lemma PromotionDecoded(cur: Planes, prior: Planes, b: Board, m: Move)
    requires AllShow(cur, prior, b, m) && m.special.Promote? && Promotable(m.special.kind) && OnBoard(m.from)
             && OnBoard(m.to)
    ensures Decode(cur, prior) == Some(FlipMove(m))
  {
    var kind := m.special.kind;
    PromotionShows(cur, prior, b, m, Pawn);
    PromotionShows(cur, prior, b, m, Knight);
    PromotionShows(cur, prior, b, m, Bishop);
    PromotionShows(cur, prior, b, m, Rook);
    PromotionShows(cur, prior, b, m, Queen);
  }

  lemma PromotionShows(cur: Planes, prior: Planes, b: Board, m: Move, k: Kind)
    requires AllShow(cur, prior, b, m) && m.special.Promote? && Promotable(m.special.kind) && OnBoard(m.from)
             && OnBoard(m.to)
    ensures var diff := MaskDiff(cur.theirs(k), prior.ours(k));
            if k == Pawn then |diff| == 1 && SingleSquare(diff) == FlipRank(m.from)
            else if k == m.special.kind then |diff| == 1 && SingleSquare(diff) == FlipRank(m.to)
            else |diff| == 0
  {
    assert Shows(cur, prior, k, ChangeOf(b, m, k));
    if k == Pawn {
      OneShows(cur, prior, k, ChangeOf(b, m, k), m.from);
    } else if k == m.special.kind {
      OneShows(cur, prior, k, ChangeOf(b, m, k), m.to);
    } else {
      NothingShows(cur, prior, k);
    }
  }

  /** The other kinds show nothing when a man of one kind moves. */
  lemma OthersShowNothing(cur: Planes, prior: Planes, b: Board, m: Move, k: Kind)
    requires AllShow(cur, prior, b, m) && !m.special.Castle? && !m.special.Promote? && k != KindAt(b, m.from)
    ensures |MaskDiff(cur.theirs(k), prior.ours(k))| == 0
  {
    assert Shows(cur, prior, k, ChangeOf(b, m, k));
    NothingShows(cur, prior, k);
  }

  lemma MoverShows(cur: Planes, prior: Planes, b: Board, m: Move)
    requires AllShow(cur, prior, b, m) && !m.special.Castle? && !m.special.Promote?
    requires m.from != m.to && OnBoard(m.from) && OnBoard(m.to)
    ensures var kind := KindAt(b, m.from);
            var diff := MaskDiff(cur.theirs(kind), prior.ours(kind));
            && |diff| == 2 && diff == {FlipRank(m.from), FlipRank(m.to)}
            && OldPosition(prior.ours(kind), diff) == FlipRank(m.from)
              && SingleSquare(cur.theirs(kind) * diff) == FlipRank(m.to)
  {
    var kind := KindAt(b, m.from);
    assert Shows(cur, prior, kind, ChangeOf(b, m, kind));
    MovedShows(cur, prior, kind, m.from, m.to);
  }

  /** Which branch decoding takes for an ordinary move. */
  lemma OrdinaryDecoded(cur: Planes, prior: Planes, b: Board, m: Move)
    requires AllShow(cur, prior, b, m) && !m.special.Castle? && !m.special.Promote?
    requires m.from != m.to && OnBoard(m.from) && OnBoard(m.to)
    ensures var kind := KindAt(b, m.from);
            var diff := MaskDiff(cur.theirs(kind), prior.ours(kind));
            Decode(cur, prior) == Some(
              match kind
              case King => DecodeKing(cur, prior, diff, MaskDiff(cur.theirs(Rook), prior.ours(Rook)))
              case Rook => DecodeRook(cur, prior, diff)
              case Pawn => DecodePawn(cur, prior, diff)
              case _ => Move(FlipRank(m.from), FlipRank(m.to), Ordinary))
  {
    MoverShows(cur, prior, b, m);
    forall k | k != KindAt(b, m.from)
      ensures |MaskDiff(cur.theirs(k), prior.ours(k))| == 0
    {
      OthersShowNothing(cur, prior, b, m, k);
    }
  }

  lemma KingDecoded(cur: Planes, prior: Planes, b: Board, m: Move)
    requires AllShow(cur, prior, b, m) && m.special.Ordinary? && KingStep(m.from, m.to) && OnBoard(m.from)
             && OnBoard(m.to)
    requires KindAt(b, m.from) == King
    ensures Decode(cur, prior) == Some(FlipMove(m))
  {
    OrdinaryDecoded(cur, prior, b, m);
    MoverShows(cur, prior, b, m);
    OthersShowNothing(cur, prior, b, m, Rook);
  }

  lemma PawnDecoded(cur: Planes, prior: Planes, b: Board, m: Move)
    requires AllShow(cur, prior, b, m) && (m.special.Ordinary? || m.special.EnPassant?)
    requires m.from != m.to && OnBoard(m.from) && OnBoard(m.to) && KindAt(b, m.from) == Pawn
    requires var targets := prior.theirs(Pawn) + prior.theirs(Knight) + prior.theirs(Bishop) + prior.theirs(Rook)
             + prior.theirs(Queen);
             m.from !in targets && (m.special.EnPassant? <==> m.from.file != m.to.file && m.to !in targets)
    ensures Decode(cur, prior) == Some(FlipMove(m))
  {
    OrdinaryDecoded(cur, prior, b, m);
    MoverShows(cur, prior, b, m);
    var targets := prior.theirs(Pawn) + prior.theirs(Knight) + prior.theirs(Bishop) + prior.theirs(Rook)
      + prior.theirs(Queen);
    var diff := MaskDiff(cur.theirs(Pawn), prior.ours(Pawn));
    FlipTwice(m.from);
    FlipTwice(m.to);
    assert FlipRank(m.to) in Mirrored(targets) <==> m.to in targets;
    assert FlipRank(m.from) !in Mirrored(targets);
    assert Mirrored(targets) * diff == {} <==> m.to !in targets;
  }

  /** A rook never passes its own king. */
  predicate PassesKing(from: Square, to: Square, king: Square) {
    from.rank == king.rank && to.rank == king.rank
    && ((from.file < king.file && to.file > king.file) || (from.file > king.file && to.file < king.file))
  }

  lemma RookDecoded(cur: Planes, prior: Planes, b: Board, m: Move)
    requires AllShow(cur, prior, b, m) && m.special.Ordinary? && m.from != m.to && OnBoard(m.from) && OnBoard(m.to)
    requires KindAt(b, m.from) == Rook && cur.theirs(King) == {FlipRank(b.ourKing)} && OnBoard(b.ourKing)
    requires !PassesKing(m.from, m.to, b.ourKing)
    ensures Decode(cur, prior) == Some(FlipMove(m))
  {
    OrdinaryDecoded(cur, prior, b, m);
    MoverShows(cur, prior, b, m);
    Single(FlipRank(b.ourKing));
  }

  lemma RookReaches(b: Board, m: Move)
    requires Consistent(b) && PseudoLegal(b, m) && m.from != b.ourKing && KindAt(b, m.from) == Rook
    ensures exists d :: Straight(d) && Reaches(Occupied(b), m.from, d, m.to)
  {
    ListedMove(b, m);
    RookAttacksAre(m.from, Occupied(b), m.to);
  }

  lemma RookStaysOnItsSide(b: Board, m: Move)
    requires Consistent(b) && PseudoLegal(b, m) && m.from != b.ourKing && KindAt(b, m.from) == Rook
    ensures !PassesKing(m.from, m.to, b.ourKing)
  {
    RookReaches(b, m);
    var d :| Straight(d) && Reaches(Occupied(b), m.from, d, m.to);
    ReachStopsAtKing(Occupied(b), m.from, d, m.to, b.ourKing);
  }

  lemma ReachStopsAtKing(occ: set<Square>, from: Square, d: Dir, to: Square, king: Square)
    requires Reaches(occ, from, d, to) && king in occ
    ensures !PassesKing(from, to, king)
  {
    var k: nat :| 1 <= k && to == At(from, d, k) && Clear(occ, from, d, 1, k);
    if PassesKing(from, to, king) {
      KingBetween(from, d, k, king);
      ClearAt(occ, from, d, 1, k, Abs(king.file - from.file));
    }
  }

  lemma KingBetween(from: Square, d: Dir, k: nat, king: Square)
    requires PassesKing(from, At(from, d, k), king) && 1 <= k
    ensures var i := Abs(king.file - from.file); 1 <= i < k && At(from, d, i) == king
  {
  }

  lemma NotCastling(cur: Planes, prior: Planes, b: Board, m: Move, k: Kind)
    requires AllShow(cur, prior, b, m) && m.special.Castle? && k != King && k != Rook
    ensures |MaskDiff(cur.theirs(k), prior.ours(k))| == 0
  {
    assert Shows(cur, prior, k, ChangeOf(b, m, k));
    NothingShows(cur, prior, k);
  }

  /** A man that went from one square to another, or stayed, as its plane shows it. */
  ghost predicate Seen(cur: Planes, prior: Planes, kind: Kind, from: Square, to: Square) {
    var diff := MaskDiff(cur.theirs(kind), prior.ours(kind));
    if from == to then |diff| == 0
    else
      && |diff| == 2 && OldPosition(prior.ours(kind), diff) == FlipRank(from)
      && SingleSquare(cur.theirs(kind) * diff) == FlipRank(to)
  }

  lemma SwapSeen(cur: Planes, prior: Planes, kind: Kind, from: Square, to: Square)
    requires Shows(cur, prior, kind, Swap(from, to)) && OnBoard(from) && OnBoard(to)
    ensures Seen(cur, prior, kind, from, to)
  {
    if from == to { NothingShows(cur, prior, kind); } else { MovedShows(cur, prior, kind, from, to); }
  }

  lemma CastlersSeen(cur: Planes, prior: Planes, b: Board, m: Move)
    requires AllShow(cur, prior, b, m) && m.special.Castle? && OnBoard(m.from) && OnBoard(m.to)
    ensures Seen(cur, prior, King, m.from, KingAfterCastling(m)) && Seen(cur, prior, Rook, m.to, RookAfterCastling(m))
  {
    assert Shows(cur, prior, King, ChangeOf(b, m, King)) && Shows(cur, prior, Rook, ChangeOf(b, m, Rook));
    SwapSeen(cur, prior, King, m.from, KingAfterCastling(m));
    SwapSeen(cur, prior, Rook, m.to, RookAfterCastling(m));
  }

  /** The king went, with or without the rook; if without, it is seen to go too far for a step. */
  lemma KingWentDecoded(cur: Planes, prior: Planes, m: Move)
    requires m.special.Castle? && OnBoard(m.from) && OnBoard(m.to) && m.from.rank == 0 && m.to.rank == 0
             && m.from != m.to
    requires m.from != KingAfterCastling(m)
    requires Seen(cur, prior, King, m.from, KingAfterCastling(m)) && Seen(cur, prior, Rook, m.to, RookAfterCastling(m))
    ensures var kings := MaskDiff(cur.theirs(King), prior.ours(King));
            var rooks := MaskDiff(cur.theirs(Rook), prior.ours(Rook));
            DecodeKing(cur, prior, kings, rooks) == FlipMove(m)
  {
  }

  /** The king stayed: the rook is seen to pass it. */
  lemma RookWentDecoded(cur: Planes, prior: Planes, m: Move)
    requires m.special.Castle? && OnBoard(m.from) && OnBoard(m.to) && m.from.rank == 0 && m.to.rank == 0
             && m.from != m.to
    requires m.from == KingAfterCastling(m) && SingleSquare(cur.theirs(King)) == FlipRank(m.from)
    requires Seen(cur, prior, Rook, m.to, RookAfterCastling(m))
    ensures m.to != RookAfterCastling(m)
    ensures DecodeRook(cur, prior, MaskDiff(cur.theirs(Rook), prior.ours(Rook))) == FlipMove(m)
  {
  }

  lemma CastlingDecoded(cur: Planes, prior: Planes, b: Board, m: Move)
    requires AllShow(cur, prior, b, m) && m.special.Castle? && OnBoard(m.from) && OnBoard(m.to)
    requires m.from.rank == 0 && m.to.rank == 0 && m.from != m.to
    requires cur.theirs(King) == {FlipRank(KingAfterCastling(m))}
    ensures Decode(cur, prior) == Some(FlipMove(m))
  {
    NotCastling(cur, prior, b, m, Pawn);
    NotCastling(cur, prior, b, m, Queen);
    CastlersSeen(cur, prior, b, m);
    Single(FlipRank(KingAfterCastling(m)));
    if m.from == KingAfterCastling(m) {
      RookWentDecoded(cur, prior, m);
    } else {
      KingWentDecoded(cur, prior, m);
    }
    CastlingBranch(cur, prior, m);
  }

  /** Which branch decoding takes for a castling move. */
  lemma CastlingBranch(cur: Planes, prior: Planes, m: Move)
    requires |MaskDiff(cur.theirs(Pawn), prior.ours(Pawn))| == 0
             && |MaskDiff(cur.theirs(Queen), prior.ours(Queen))| == 0
    requires m.from == KingAfterCastling(m) ==> m.to != RookAfterCastling(m)
    requires Seen(cur, prior, King, m.from, KingAfterCastling(m)) && Seen(cur, prior, Rook, m.to, RookAfterCastling(m))
    ensures var kingDiff := MaskDiff(cur.theirs(King), prior.ours(King));
            var rookDiff := MaskDiff(cur.theirs(Rook), prior.ours(Rook));
            Decode(cur, prior) == Some(if m.from == KingAfterCastling(m) then DecodeRook(cur, prior, rookDiff)
                                       else DecodeKing(cur, prior, kingDiff, rookDiff))
  {
  }

  // ---------- the theorem ----------

  lemma TargetsAreTheirs(b: Board, s: Square)
    requires Sides(b) && Kings(b) && s in Occupied(b)
    ensures var prior := PlanesOf(b);
            var targets := prior.theirs(Pawn) + prior.theirs(Knight) + prior.theirs(Bishop) + prior.theirs(Rook)
              + prior.theirs(Queen);
            s in targets <==> s in b.theirs && s != b.theirKing
  {
    PlaneHolds(b, Pawn, s);
    PlaneHolds(b, Knight, s);
    PlaneHolds(b, Bishop, s);
    PlaneHolds(b, Rook, s);
    PlaneHolds(b, Queen, s);
  }

  lemma KingPlane(a: Board)
    requires Sides(a) && Kings(a)
    ensures PlanesOf(Mirror(a)).theirs(King) == {FlipRank(a.ourKing)}
  {
    MirroredPlane(a, King);
    MirroredSmall(a.ourKing, a.ourKing);
    assert a.ours * OfKind(a, King) == {a.ourKing};
  }

  /** The planes after a move and before it give the move back, seen from the other side. */
  lemma DecodingInvertsApplying(b: Board, m: Move)
    requires Consistent(b) && PseudoLegal(b, m) && StaysOffTheirKing(b, m)
    ensures Decode(PlanesOf(Mirror(Applied(b, m))), PlanesOf(b))
         == Some(Move(FlipRank(m.from), FlipRank(m.to), m.special))
  {
    var a := Applied(b, m);
    var cur, prior := PlanesOf(Mirror(a)), PlanesOf(b);
    PlyKeepsConsistent(b, m);
    ListedMove(b, m);
    KingPlane(a);
    forall kind
      ensures Shows(cur, prior, kind, ChangeOf(b, m, kind))
    {
      PlanesShow(b, m, kind);
    }
    DecodedByKind(cur, prior, b, m);
  }

  lemma DecodedByKind(cur: Planes, prior: Planes, b: Board, m: Move)
    requires Consistent(b) && PseudoLegal(b, m) && StaysOffTheirKing(b, m)
    requires AllShow(cur, prior, b, m) && cur.theirs(King) == {FlipRank(Applied(b, m).ourKing)} && prior == PlanesOf(b)
    ensures Decode(cur, prior) == Some(FlipMove(m))
  {
    ListedMove(b, m);
    if m.special.Castle? {
      ListedCastles(b, m);
      CastlingDecoded(cur, prior, b, m);
    } else if m.special.Promote? {
      PromotionDecoded(cur, prior, b, m);
    } else if m.from == b.ourKing {
      KingDecoded(cur, prior, b, m);
    } else {
      ListedIsPlain(b, m);
      ManDecoded(cur, prior, b, m);
    }
  }

  lemma ManDecoded(cur: Planes, prior: Planes, b: Board, m: Move)
    requires Consistent(b) && PseudoLegal(b, m) && Plain(b, m) && m.from != b.ourKing && !m.special.Promote?
    requires AllShow(cur, prior, b, m) && cur.theirs(King) == {FlipRank(b.ourKing)} && prior == PlanesOf(b)
    ensures Decode(cur, prior) == Some(FlipMove(m))
  {
    match KindAt(b, m.from)
    case Rook =>
      RookStaysOnItsSide(b, m);
      RookDecoded(cur, prior, b, m);
    case Pawn =>
      TargetsAreTheirs(b, m.from);
      PawnGoesWhere(b, m);
      PawnDecoded(cur, prior, b, m);
    case _ =>
      OrdinaryDecoded(cur, prior, b, m);
  }

  lemma PawnGoesWhere(b: Board, m: Move)
    requires Consistent(b) && PseudoLegal(b, m) && Plain(b, m) && KindAt(b, m.from) == Pawn
    ensures var prior := PlanesOf(b);
            var targets := prior.theirs(Pawn) + prior.theirs(Knight) + prior.theirs(Bishop) + prior.theirs(Rook)
              + prior.theirs(Queen);
            m.special.EnPassant? <==> m.from.file != m.to.file && m.to !in targets
  {
    if m.to in Occupied(b) { TargetsAreTheirs(b, m.to); }
  }
}
