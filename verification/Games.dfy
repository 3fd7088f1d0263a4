/** Whole games: legal plies keep our assumptions about the board, so the filter is exact throughout. */
module Games {
  import opened Wrappers
  import opened Squares
  import opened ChessRules
  import opened Boards
  import opened Pseudolegal
  import opened Plies
  import opened Legality
  import opened SafeMoves

  // ---------- the board upside down ----------

  function FlipDir(d: Dir): Dir {
    match d
    case North => South case South => North case East => East case West => West
    case NorthEast => SouthEast case SouthEast => NorthEast
    case NorthWest => SouthWest case SouthWest => NorthWest
  }

  lemma FlipLine(s: Square, d: Dir, n: int)
    ensures At(FlipRank(s), FlipDir(d), n) == FlipRank(At(s, d, n))
    ensures FlipDir(FlipDir(d)) == d && Straight(FlipDir(d)) == Straight(d)
  {
  }

  lemma FlipReaches(occ: set<Square>, s: Square, d: Dir, t: Square)
    requires Reaches(Mirrored(occ), FlipRank(s), d, FlipRank(t))
    ensures Reaches(occ, s, FlipDir(d), t)
  {
    var k: nat :| 1 <= k && FlipRank(t) == At(FlipRank(s), d, k) && Clear(Mirrored(occ), FlipRank(s), d, 1, k);
    FlipLine(s, FlipDir(d), k);
    forall i | 1 <= i < k
      ensures At(s, FlipDir(d), i) !in occ
    {
      ClearAt(Mirrored(occ), FlipRank(s), d, 1, k, i);
      FlipLine(s, FlipDir(d), i);
      assert FlipRank(FlipRank(At(s, FlipDir(d), i))) == At(s, FlipDir(d), i);
    }
    ClearFrom(occ, s, FlipDir(d), 1, k);
    assert t == At(s, FlipDir(d), k);
  }

  lemma FlipHits(occ: set<Square>, kind: Kind, t: Square, s: Square)
    requires Hits(Mirrored(occ), Piece(true, kind), FlipRank(t), FlipRank(s))
    ensures Hits(occ, Piece(false, kind), t, s)
  {
    if AlongRank(Mirrored(occ), FlipRank(t), FlipRank(s)) {
      var d :| Straight(d) && Reaches(Mirrored(occ), FlipRank(t), d, FlipRank(s));
      FlipReaches(occ, t, d, s);
      FlipLine(t, d, 0);
    }
    if AlongDiagonal(Mirrored(occ), FlipRank(t), FlipRank(s)) {
      var d :| !Straight(d) && Reaches(Mirrored(occ), FlipRank(t), d, FlipRank(s));
      FlipReaches(occ, t, d, s);
      FlipLine(t, d, 0);
    }
  }

  /** What we attack on the mirrored board, they attacked before. */
  lemma MirrorAttacked(b: Board, s: Square)
    requires Sides(b) && Attacked(Pieces(Mirror(b)), true, FlipRank(s))
    ensures Attacked(Pieces(b), false, s)
  {
    var pos := Pieces(Mirror(b));
    var t' :| t' in pos && pos[t'].ours && Hits(pos.Keys, pos[t'], t', FlipRank(s));
    var t := FlipRank(t');
    assert FlipRank(t) == t';
    assert pos.Keys == Mirrored(Occupied(b));
    MirrorKind(b, t);
    FlipHits(Occupied(b), KindAt(b, t), t, s);
  }

  lemma MirrorKind(b: Board, t: Square)
    ensures KindAt(Mirror(b), FlipRank(t)) == KindAt(b, t)
  {
    assert FlipRank(FlipRank(t)) == t;
    assert FlipRank(t) == FlipRank(b.ourKing) <==> t == b.ourKing;
    assert FlipRank(t) == FlipRank(b.theirKing) <==> t == b.theirKing;
  }

  /** After a legal ply their king, now the one of the side that moved, cannot be taken. */
  lemma LegalPlyKeepsPlayable(b: Board, m: Move)
    requires Playable(b) && PseudoLegal(b, m) && KingSafe(MakeMove(Pieces(b), m))
    ensures Playable(Mirror(Applied(b, m)))
  {
    TheirKingIsSpared(b, m);
    PlyKeepsConsistent(b, m);
    SafeAfter(b, m);
    SafeKingStays(Applied(b, m));
  }

  lemma SafeKingStays(a: Board)
    requires Sides(a) && Kings(a) && !IsUnderCheck(a)
    ensures var c := Mirror(a); !KingStep(c.ourKing, c.theirKing) && !Attacked(Pieces(c), true, c.theirKing)
  {
    UnderAttackIsAttacked(a, a.ourKing);
    if Attacked(Pieces(Mirror(a)), true, Mirror(a).theirKing) {
      MirrorAttacked(a, a.ourKing);
    }
  }

  // ---------- how many attackers a move can bring ----------

  predicate OurSlider(b: Board, d: Dir, s: Square) { s in b.ours && s in Sliders(b, d) }

  predicate WeCheckOn(b: Board, d: Dir) {
    var i := First(Occupied(b), b.theirKing, d, 1);
    i > 0 && OurSlider(b, d, At(b.theirKing, d, i))
  }

  lemma NoLineCheck(b: Board, d: Dir)
    requires Sides(b) && Kings(b) && !Attacked(Pieces(b), true, b.theirKing)
    ensures !WeCheckOn(b, d)
  {
    var occ, king := Occupied(b), b.theirKing;
    if WeCheckOn(b, d) {
      var i := First(occ, king, d, 1);
      FirstFound(occ, king, d, 1);
      var t := At(king, d, i);
      assert Reaches(occ, king, d, t);
      ReachesBack(occ, king, d, t);
      assert Hits(Pieces(b).Keys, Pieces(b)[t], t, king);
    }
  }

  lemma {:induction false} FlipFirst(occ: set<Square>, s: Square, d: Dir, n: nat)
    ensures First(Mirrored(occ), FlipRank(s), FlipDir(d), n) == First(occ, s, d, n)
    decreases 8 - n
  {
    FlipLine(s, d, n);
    assert FlipRank(FlipRank(At(s, d, n))) == At(s, d, n);
    if n <= 7 { FlipFirst(occ, s, d, n + 1); }
  }

  lemma CheckIsOurs(a: Board, d: Dir)
    requires LineOf(Mirror(a), d).Checked?
    ensures WeCheckOn(a, FlipDir(d))
  {
    var e := FlipDir(d);
    FlipLine(a.theirKing, e, 0);
    assert Occupied(Mirror(a)) == Mirrored(Occupied(a));
    FlipFirst(Occupied(a), a.theirKing, e, 1);
    FlipLine(a.theirKing, e, First(Occupied(a), a.theirKing, e, 1));
    FlipBack(At(a.theirKing, e, First(Occupied(a), a.theirKing, e, 1)));
  }

  lemma FlipBack(s: Square)
    ensures FlipRank(FlipRank(s)) == s
  {
  }

  ghost predicate OnLine(king: Square, d: Dir, s: Square) {
    exists j: nat :: 1 <= j && s == At(king, d, j)
  }

  /** One of these squares is on the line with board beyond it. */
  ghost predicate Opened(king: Square, d: Dir, left: set<Square>) {
    exists j: nat, n: nat :: 1 <= j < n && At(king, d, j) in left && OnBoard(At(king, d, n))
  }

  /** Where a new check on a line comes from: a square that was left, with the checker beyond it, or
      the checker itself arrived. */
  lemma NewLineCheck(b: Board, a: Board, d: Dir, left: set<Square>, arrived: Square)
    requires OnBoard(b.theirKing) && a.theirKing == b.theirKing && !WeCheckOn(b, d) && WeCheckOn(a, d)
    requires forall s | s in Occupied(b) && s !in Occupied(a) :: s in left
    requires forall s | OurSlider(a, d, s) && !OurSlider(b, d, s) :: s == arrived
    ensures (OurSlider(a, d, arrived) && OnLine(b.theirKing, d, arrived))
         || Opened(b.theirKing, d, left)
  {
    var king, n := b.theirKing, First(Occupied(a), b.theirKing, d, 1);
    FirstFound(Occupied(a), king, d, 1);
    if OurSlider(b, d, At(king, d, n)) {
      if forall j | 1 <= j < n :: At(king, d, j) !in Occupied(b) {
        ClearFrom(Occupied(b), king, d, 1, n);
        FirstIs(Occupied(b), king, d, 1, n);
      } else {
        var j: nat :| 1 <= j < n && At(king, d, j) in Occupied(b);
        ClearAt(Occupied(a), king, d, 1, n, j);
        assert At(king, d, j) in left;
      }
    } else {
      assert arrived == At(king, d, n);
    }
  }

  lemma CountWithin(b: Board, x: Dir, y: Dir)
    requires forall d | LineOf(b, d).Checked? :: d == x || d == y
    ensures LineChecks(b) <= 2
    ensures x == y ==> LineChecks(b) <= 1
  {
    match x
    case North => case South => case East => case West =>
    case NorthEast => case NorthWest => case SouthEast => case SouthWest =>
  }

  /** Some direction in which s lies, if any. */
  lemma LineTo(king: Square, s: Square) returns (d: Dir)
    ensures forall e | OnLine(king, e, s) :: e == d
  {
    if e :| OnLine(king, e, s) {
      d := e;
      forall f | OnLine(king, f, s)
        ensures f == d
      {
        LinesApart(king, f, d, s);
      }
    } else {
      d := North;
    }
  }

  /** When every checking line leads to one of two squares, there are at most two. */
  lemma LinesToTwo(a: Board, s: Square, t: Square)
    requires forall d | WeCheckOn(a, d) :: OnLine(a.theirKing, d, s) || OnLine(a.theirKing, d, t)
    ensures LineChecks(Mirror(a)) <= 2
    ensures s == t ==> LineChecks(Mirror(a)) <= 1
  {
    var x := LineTo(a.theirKing, s);
    var y := LineTo(a.theirKing, t);
    if s == t { y := x; }
    forall d | LineOf(Mirror(a), d).Checked?
      ensures d == FlipDir(x) || d == FlipDir(y)
    {
      CheckIsOurs(a, d);
      FlipLine(a.theirKing, d, 0);
    }
    CountWithin(Mirror(a), FlipDir(x), FlipDir(y));
  }

  // ---------- ordinary moves, promotions, en passant ----------

  /** The squares a move leaves empty. */
  function Left(m: Move): set<Square> {
    if m.special.EnPassant? then {m.from, TakenEnPassant(m)} else {m.from}
  }

  lemma MovedSquares(b: Board, m: Move, d: Dir)
    requires Plain(b, m)
    ensures var a := Applied(b, m);
            && a.theirKing == b.theirKing
            && (forall s | s in Occupied(b) && s !in Occupied(a) :: s in Left(m))
            && (forall s | OurSlider(a, d, s) && !OurSlider(b, d, s) :: s == m.to)
  {
  }

  lemma ArrivalOrLeaving(b: Board, m: Move, d: Dir)
    requires Plain(b, m) && !Attacked(Pieces(b), true, b.theirKing) && WeCheckOn(Applied(b, m), d)
    ensures (OurSlider(Applied(b, m), d, m.to) && OnLine(b.theirKing, d, m.to))
         || exists s :: s in Left(m) && OnLine(b.theirKing, d, s)
  {
    NoLineCheck(b, d);
    MovedSquares(b, m, d);
    NewLineCheck(b, Applied(b, m), d, Left(m), m.to);
  }

  lemma PawnsInMirror(a: Board, t': Square)
    requires Sides(a) && Kings(a) && t' in CheckingPawns(Mirror(a))
    ensures var t := FlipRank(t');
            t in a.ours && t in Masked(a.pawns) && KindAt(a, t) == Pawn && PawnHits(true, t, a.theirKing)
  {
    FlipBack(t');
  }

  lemma KnightsInMirror(a: Board, t': Square)
    requires Sides(a) && Kings(a) && t' in CheckingKnights(Mirror(a))
    ensures var t := FlipRank(t');
            t in a.ours && KindAt(a, t) == Knight && KnightStep(t, a.theirKing)
  {
    FlipBack(t');
    MirrorKind(a, FlipRank(t'));
  }

  lemma NoStepCheck(b: Board, t: Square)
    requires Sides(b) && Kings(b) && !Attacked(Pieces(b), true, b.theirKing) && t in b.ours
    ensures KindAt(b, t) == Pawn ==> !PawnHits(true, t, b.theirKing)
    ensures KindAt(b, t) == Knight ==> !KnightStep(t, b.theirKing)
  {
    var pos := Pieces(b);
    assert Hits(pos.Keys, pos[t], t, b.theirKing) ==> Attacked(pos, true, b.theirKing);
  }

  /** Only the man that moved can check as a pawn or a knight. */
  lemma StepCheckArrived(b: Board, m: Move, t': Square)
    requires Plain(b, m) && !Attacked(Pieces(b), true, b.theirKing)
    requires t' in CheckingPawns(Mirror(Applied(b, m))) || t' in CheckingKnights(Mirror(Applied(b, m)))
    ensures t' == FlipRank(m.to)
  {
    var a := Applied(b, m);
    PlainKeepsSides(b, m);
    var t := FlipRank(t');
    FlipBack(t');
    if t' in CheckingPawns(Mirror(a)) { PawnsInMirror(a, t'); } else { KnightsInMirror(a, t'); }
    if t != m.to {
      NoStepCheck(b, t);
      OtherSquare(b, m, t);
    }
  }

  lemma WithinOne(squares: set<Square>, s: Square)
    requires forall t | t in squares :: t == s
    ensures |squares| <= 1
  {
    NoLarger(squares, {s});
  }

  lemma StepChecksFew(b: Board, m: Move)
    requires Plain(b, m) && !Attacked(Pieces(b), true, b.theirKing)
    ensures var c := Mirror(Applied(b, m)); |CheckingPawns(c)| <= 1 && |CheckingKnights(c)| <= 1
  {
    var c := Mirror(Applied(b, m));
    forall t | t in CheckingPawns(c) || t in CheckingKnights(c)
      ensures t == FlipRank(m.to)
    {
      StepCheckArrived(b, m, t);
    }
    WithinOne(CheckingPawns(c), FlipRank(m.to));
    WithinOne(CheckingKnights(c), FlipRank(m.to));
  }

  /** The man that arrived checks as a pawn or a knight: it is no slider, and at most one line opens. */
  lemma ArrivedAsStepper(b: Board, m: Move, t: Square)
    requires Plain(b, m) && !Attacked(Pieces(b), true, b.theirKing)
    requires t in CheckingPawns(Mirror(Applied(b, m))) || t in CheckingKnights(Mirror(Applied(b, m)))
    ensures CountedChecks(Mirror(Applied(b, m))) <= 2
  {
    var a := Applied(b, m);
    PlainKeepsSides(b, m);
    MirrorKeepsSides(a);
    MirrorKeepsKings(a);
    StepCheckArrived(b, m, t);
    FlipBack(m.to);
    if t in CheckingPawns(Mirror(a)) { PawnsInMirror(a, t); } else { KnightsInMirror(a, t); }
    forall d | WeCheckOn(a, d)
      ensures OnLine(b.theirKing, d, m.from)
    {
      ArrivalOrLeaving(b, m, d);
      if m.special.EnPassant? { PassedSquareIsOff(b, m, d, t); }
    }
    LinesToTwo(a, m.from, m.from);
    NotBothSteps(b, m);
  }

  lemma NotBothSteps(b: Board, m: Move)
    requires Plain(b, m) && !Attacked(Pieces(b), true, b.theirKing)
    ensures var c := Mirror(Applied(b, m)); CheckingPawns(c) == {} || CheckingKnights(c) == {}
  {
    var a := Applied(b, m);
    PlainKeepsSides(b, m);
    var c := Mirror(a);
    MirrorKeepsSides(a);
    MirrorKeepsKings(a);
    if CheckingPawns(c) != {} && CheckingKnights(c) != {} {
      var s, t :| s in CheckingPawns(c) && t in CheckingKnights(c);
      StepCheckArrived(b, m, s);
      StepCheckArrived(b, m, t);
      PawnIsNoKnight(c, s);
    }
  }

  /** A pawn that checks after taking en passant stands a knight's step in front of the taken one. */
  lemma PassedSquareIsOff(b: Board, m: Move, d: Dir, t: Square)
    requires Plain(b, m) && m.special.EnPassant?
    requires t == FlipRank(m.to)
    requires t in CheckingPawns(Mirror(Applied(b, m))) || t in CheckingKnights(Mirror(Applied(b, m)))
    ensures !OnLine(b.theirKing, d, TakenEnPassant(m))
  {
    var a := Applied(b, m);
    PlainKeepsSides(b, m);
    FlipBack(m.to);
    MovedSquare(b, m);
    if t in CheckingPawns(Mirror(a)) { PawnsInMirror(a, t); } else { KnightsInMirror(a, t); }
  }

  lemma PlainKeepsChecksLimited(b: Board, m: Move)
    requires Plain(b, m) && !Attacked(Pieces(b), true, b.theirKing)
    ensures ChecksLimited(Mirror(Applied(b, m)))
  {
    var c := Mirror(Applied(b, m));
    StepChecksFew(b, m);
    if t :| t in CheckingPawns(c) || t in CheckingKnights(c) {
      ArrivedAsStepper(b, m, t);
    } else {
      LineChecksFew(b, m);
    }
  }

  lemma LineChecksFew(b: Board, m: Move)
    requires Plain(b, m) && !Attacked(Pieces(b), true, b.theirKing)
    ensures LineChecks(Mirror(Applied(b, m))) <= 2
  {
    var a := Applied(b, m);
    var other := if m.special.EnPassant? then TakenEnPassant(m) else m.to;
    forall d | WeCheckOn(a, d)
      ensures OnLine(a.theirKing, d, m.from) || OnLine(a.theirKing, d, other)
    {
      ArrivalOrLeaving(b, m, d);
      if m.special.EnPassant? { MovedSquare(b, m); PlainKeepsSides(b, m); }
    }
    LinesToTwo(a, m.from, other);
  }

  // ---------- castling ----------

  lemma CastledSquares(b: Board, m: Move, d: Dir)
    requires Castles(b, m)
    ensures var a := Castled(b, m);
            && a.theirKing == b.theirKing
            && (forall s | s in Occupied(b) && s !in Occupied(a) :: s == m.from || s == m.to)
            && (forall s | OurSlider(a, d, s) && !OurSlider(b, d, s) :: s == RookAfterCastling(m))
  {
  }

  /** Castling opens no line but the first rank, and only the rook arrives. */
  lemma CastlingLine(b: Board, m: Move, d: Dir)
    requires Castles(b, m) && !Attacked(Pieces(b), true, b.theirKing) && WeCheckOn(Castled(b, m), d)
    ensures OnLine(b.theirKing, d, RookAfterCastling(m)) || (b.theirKing.rank == 0 && (d == East || d == West))
  {
    NoLineCheck(b, d);
    CastledSquares(b, m, d);
    NewLineCheck(b, Castled(b, m), d, {m.from, m.to}, RookAfterCastling(m));
    if Opened(b.theirKing, d, {m.from, m.to}) { OpenedFirstRank(b.theirKing, d, {m.from, m.to}); }
  }

  lemma OpenedFirstRank(king: Square, d: Dir, left: set<Square>)
    requires OnBoard(king) && Opened(king, d, left) && forall s | s in left :: s.rank == 0
    ensures king.rank == 0 && (d == East || d == West)
  {
    var j: nat, n: nat :| 1 <= j < n && At(king, d, j) in left && OnBoard(At(king, d, n));
    BeyondFirstRank(king, d, j, n);
  }

  lemma BeyondFirstRank(king: Square, d: Dir, j: nat, n: nat)
    requires OnBoard(king) && 1 <= j < n && At(king, d, j).rank == 0 && OnBoard(At(king, d, n))
    ensures king.rank == 0 && (d == East || d == West)
  {
  }

  lemma CastlingLinesFew(b: Board, m: Move)
    requires Castles(b, m) && !Attacked(Pieces(b), true, b.theirKing)
    ensures LineChecks(Mirror(Castled(b, m))) <= 2
  {
    var a, rook := Castled(b, m), RookAfterCastling(m);
    if b.theirKing.rank == 0 {
      var c := Mirror(a);
      forall d | LineOf(c, d).Checked?
        ensures d == East || d == West
      {
        CheckIsOurs(a, d);
        CastlingLine(b, m, FlipDir(d));
        RookOnFirstRank(b.theirKing, FlipDir(d), rook);
      }
      CountWithin(c, East, West);
    } else {
      forall d | WeCheckOn(a, d)
        ensures OnLine(a.theirKing, d, rook)
      {
        CastlingLine(b, m, d);
      }
      LinesToTwo(a, rook, rook);
    }
  }

  lemma RookOnFirstRank(king: Square, d: Dir, rook: Square)
    requires king.rank == 0 && rook.rank == 0
    ensures OnLine(king, d, rook) ==> d == East || d == West
  {
  }

  /** Castling leaves pawns and knights where they were. */
  lemma CastlingKeepsSteppers(b: Board, m: Move, t: Square)
    requires Castles(b, m) && t in Castled(b, m).ours
    ensures KindAt(Castled(b, m), t) == Pawn || KindAt(Castled(b, m), t) == Knight ==>
              t in b.ours && KindAt(b, t) == KindAt(Castled(b, m), t)
  {
  }

  lemma CastlingNoStepCheck(b: Board, m: Move, t': Square)
    requires Castles(b, m) && !Attacked(Pieces(b), true, b.theirKing)
    ensures t' !in CheckingPawns(Mirror(Castled(b, m))) && t' !in CheckingKnights(Mirror(Castled(b, m)))
  {
    var a := Castled(b, m);
    CastledKeepsSides(b, m);
    var t := FlipRank(t');
    if t' in CheckingPawns(Mirror(a)) || t' in CheckingKnights(Mirror(a)) {
      if t' in CheckingPawns(Mirror(a)) { PawnsInMirror(a, t'); } else { KnightsInMirror(a, t'); }
      CastlingKeepsSteppers(b, m, t);
      NoStepCheck(b, t);
    }
  }

  lemma NoStepChecks(b: Board)
    requires forall t :: t !in CheckingPawns(b) && t !in CheckingKnights(b)
    requires LineChecks(b) <= 2
    ensures ChecksLimited(b)
  {
    var pawns, knights := CheckingPawns(b), CheckingKnights(b);
    assert pawns == {} && knights == {};
  }

  lemma CastlingKeepsChecksLimited(b: Board, m: Move)
    requires Castles(b, m) && !Attacked(Pieces(b), true, b.theirKing)
    ensures ChecksLimited(Mirror(Castled(b, m)))
  {
    CastlingLinesFew(b, m);
    forall t
      ensures t !in CheckingPawns(Mirror(Castled(b, m))) && t !in CheckingKnights(Mirror(Castled(b, m)))
    {
      CastlingNoStepCheck(b, m, t);
    }
    NoStepChecks(Mirror(Castled(b, m)));
  }

  // ---------- games ----------

  /** No listed move, legal or not, brings more than one checking pawn, one checking knight, or two
      attackers: what the filter takes for granted. */
  lemma PlyKeepsChecksLimited(b: Board, m: Move)
    requires Playable(b) && PseudoLegal(b, m)
    ensures ChecksLimited(Mirror(Applied(b, m)))
  {
    TheirKingIsSpared(b, m);
    if m.special.Castle? {
      ListedCastles(b, m);
      CastlingKeepsChecksLimited(b, m);
    } else {
      ListedIsPlain(b, m);
      PlainKeepsChecksLimited(b, m);
    }
  }

  /** A game: a board to start from, and moves. */
  datatype Game = Start(board: Board) | Ply(before: Game, m: Move)

  function Now(g: Game): Board {
    match g
    case Start(board) => board
    case Ply(before, m) => Mirror(Applied(Now(before), m))
  }

  /** Every move is listed, and by the rules leaves the mover's king safe. */
  ghost predicate LegalGame(g: Game) {
    match g
    case Start(board) => Playable(board) && ChecksLimited(board)
    case Ply(before, m) =>
      LegalGame(before) && PseudoLegal(Now(before), m) && KingSafe(MakeMove(Pieces(Now(before)), m))
  }

  /** Throughout every legal game the board is well formed and the filter decides legality exactly. */
  lemma {:induction false} FilterExactThroughout(g: Game)
    requires LegalGame(g)
    ensures Playable(Now(g)) && ChecksLimited(Now(g))
    ensures forall m | PseudoLegal(Now(g), m) ::
              IsLegal(Now(g), m, AttackInfo(Now(g))) <==> KingSafe(MakeMove(Pieces(Now(g)), m))
  {
    if g.Ply? {
      FilterExactThroughout(g.before);
      LegalPlyKeepsPlayable(Now(g.before), g.m);
      PlyKeepsChecksLimited(Now(g.before), g.m);
    }
    forall m | PseudoLegal(Now(g), m)
      ensures IsLegal(Now(g), m, AttackInfo(Now(g))) <==> KingSafe(MakeMove(Pieces(Now(g)), m))
    {
      LegalIffKingSafe(Now(g), m);
    }
  }
}
