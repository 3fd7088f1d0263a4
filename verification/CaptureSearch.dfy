/** Probing an endgame table: a search over captures repairs the values the table leaves open. */
module CaptureSearch {
  import opened Wrappers
  import opened Squares
  import opened ChessRules
  import opened Boards
  import opened Pseudolegal
  import opened Plies
  import opened SafeMoves
  import opened Games
  import opened Potential
  import opened ChessBoards
  import opened ChessLaws
  import opened LawfulMoves

  datatype ProbeState = Fail | Ok | ZeroingBestMove

  const LOSS := -2
  const DRAW := 0
  const WIN := 2

  // ---------- true values ----------

  /** The highest value among some moves. */
  ghost predicate Highest(v: int, among: Move -> bool, worth: Move -> int) {
    (forall m | among(m) :: worth(m) <= v) && exists m :: among(m) && worth(m) == v
  }

  /** The highest value among some moves, or a loss when there are none. */
  ghost predicate HighestOrLoss(v: int, among: Move -> bool, worth: Move -> int) {
    LOSS <= v && (forall m | among(m) :: worth(m) <= v) && (v == LOSS || exists m :: among(m) && worth(m) == v)
  }

  /** The value of a position with these legal moves, or the given one when there are none. */
  ghost predicate ValueIs(v: int, legal: Move -> bool, worth: Move -> int, ended: int) {
    Highest(v, legal, worth) || ((forall m :: !legal(m)) && v == ended)
  }

  ghost predicate InRange(worth: Move -> int) {
    forall m :: LOSS <= worth(m) <= WIN
  }

  /** What the generator of a table promises: the stored value and the best capture together give the
      value of the position, with en passant left aside. */
  ghost predicate TableContract(raw: int, legal: Move -> bool, capture: Move -> bool, passing: Move -> bool,
                                worth: Move -> int, ended: int) {
    exists c: int ::
      && HighestOrLoss(c, Both(Without(legal, passing), capture), worth)
      && ValueIs(Max(raw, c), Without(legal, passing), worth, ended)
  }

  function Both(p: Move -> bool, q: Move -> bool): Move -> bool { m => p(m) && q(m) }

  function Without(p: Move -> bool, q: Move -> bool): Move -> bool { m => p(m) && !q(m) }

  /** When every legal move was searched, the best of them is the value. */
  lemma AllSearched(v: int, best: int, legal: Move -> bool, searched: Move -> bool, worth: Move -> int, ended: int,
                    some: Move)
    requires ValueIs(v, legal, worth, ended) && InRange(worth) && legal(some)
    requires HighestOrLoss(best, Both(legal, searched), worth) && forall m | legal(m) :: searched(m)
    ensures v == best && Highest(best, Both(legal, searched), worth)
  {
    var top :| legal(top) && worth(top) == v;
    assert Both(legal, searched)(top) && Both(legal, searched)(some);
  }

  /** Otherwise the table's value and the best searched move give it together. */
  lemma TableRepaired(v: int, best: int, raw: int, legal: Move -> bool, searched: Move -> bool, capture: Move -> bool,
                      passing: Move -> bool, worth: Move -> int, ended: int)
    requires ValueIs(v, legal, worth, ended) && InRange(worth)
    requires TableContract(raw, legal, capture, passing, worth, ended)
    requires HighestOrLoss(best, Both(legal, searched), worth)
    requires forall m | capture(m) :: searched(m)
    requires forall m | passing(m) :: capture(m)
    requires (forall m :: !legal(m)) || exists m :: legal(m) && !searched(m)
    requires LOSS <= ended
    ensures v == Max(best, raw)
  {
    var plain, found := Without(legal, passing), Both(legal, searched);
    var taking := Both(plain, capture);
    var c: int :| HighestOrLoss(c, taking, worth) && ValueIs(Max(raw, c), plain, worth, ended);
    var w := Max(raw, c);
    if other :| legal(other) && !searched(other) {
      assert plain(other);
      var low :| plain(low) && worth(low) == w;
      assert w <= v;
      var top :| legal(top) && worth(top) == v;
      if passing(top) {
        assert found(top);
      } else {
        assert plain(top) && v <= w;
        if c != LOSS {
          var m :| taking(m) && worth(m) == c;
          assert found(m);
        }
      }
      if best != LOSS {
        var m :| found(m) && worth(m) == best;
        assert legal(m);
      }
    } else {
      assert forall m :: !plain(m) && !taking(m) && !found(m);
    }
  }

  // ---------- positions ----------

  /** The true values of boards, of moves that do not restart the fifty-move count, and of finished
      games. */
  datatype Truth = Truth(value: Board -> int, quiet: (Board, Move) -> int, ended: Board -> int)

  predicate IsCapture(b: Board, m: Move) {
    m.to in b.theirs || (m.from in Masked(b.pawns) && m.from.file != m.to.file)
  }

  /** The moves the search looks at: captures, and pawn moves too when asked. */
  predicate IsSearched(checkZeroing: bool, b: Board, m: Move) {
    IsCapture(b, m) || (checkZeroing && m.from in Masked(b.pawns))
  }

  /** The legal moves of a playable board. */
  ghost function Legal(b: Board): Move -> bool {
    m => Playable(b) && PseudoLegal(b, m) && KingSafe(MakeMove(Pieces(b), m))
  }

  function Capture(b: Board): Move -> bool { m => IsCapture(b, m) }

  function Searched(checkZeroing: bool, b: Board): Move -> bool { m => IsSearched(checkZeroing, b, m) }

  /** The moves en passant; they are captures. */
  function Passing(b: Board): Move -> bool { (m: Move) => m.special.EnPassant? && IsCapture(b, m) }

  function Child(b: Board, m: Move): Board { Mirror(Applied(b, m)) }

  /** What a move is worth: a move that restarts the count, what it leaves the other side with. */
  function Worth(truth: Truth, b: Board): Move -> int {
    m => if Zeroing(b, m) then -truth.value(Child(b, m)) else truth.quiet(b, m)
  }

  ghost predicate TrueAt(truth: Truth, b: Board) {
    && ValueIs(truth.value(b), Legal(b), Worth(truth, b), truth.ended(b))
    && InRange(Worth(truth, b)) && LOSS <= truth.ended(b)
  }

  ghost predicate AllTrue(truth: Truth) {
    forall b {:trigger TrueAt(truth, b)} | Playable(b) :: TrueAt(truth, b)
  }

  /** What the tables yield for a board, if anything. */
  type Tables = Board -> Option<int>

  ghost predicate SoundAt(tables: Tables, truth: Truth, b: Board) {
    tables(b).Some? ==>
      TableContract(tables(b).value, Legal(b), Capture(b), Passing(b), Worth(truth, b), truth.ended(b))
  }

  ghost predicate AllSound(tables: Tables, truth: Truth) {
    forall b {:trigger SoundAt(tables, truth, b)} | Playable(b) :: SoundAt(tables, truth, b)
  }

  lemma SearchedIsZeroing(b: Board, m: Move, checkZeroing: bool)
    requires Consistent(b) && Legal(b)(m) && IsSearched(checkZeroing, b, m)
    ensures Zeroing(b, m)
  {
    ListedMove(b, m);
  }

  /** Among listed moves, captures are those that take a man of theirs, on their square or in passing. */
  lemma CapturesTake(b: Board, m: Move)
    requires Consistent(b) && PseudoLegal(b, m)
    ensures IsCapture(b, m) <==> HasTheirs(Pieces(b), m.to) || m.special == EnPassant
  {
    ListedMove(b, m);
    if m.from in Masked(b.pawns) { PawnCapturesOblique(b, m); }
  }

  /** The search looks at these moves: captures, and, when asked, the moves of our pawns. */
  lemma SearchedAre(checkZeroing: bool, b: Board, m: Move)
    requires Consistent(b) && PseudoLegal(b, m)
    ensures IsSearched(checkZeroing, b, m) <==>
            || HasTheirs(Pieces(b), m.to) || m.special == EnPassant
            || (checkZeroing && Has(Pieces(b), m.from, Piece(true, Pawn)))
  {
    CapturesTake(b, m);
    ListedMove(b, m);
    PawnStands(b, m.from);
  }

  lemma PawnCapturesOblique(b: Board, m: Move)
    requires Consistent(b) && PseudoLegal(b, m) && m.from in Masked(b.pawns)
    ensures m.from.file != m.to.file <==> m.to in b.theirs || m.special == EnPassant
  {
  }

  /** Asked for all of them, the search looks at exactly the moves that restart the fifty-move count. */
  lemma SearchedRestart(b: Board, m: Move)
    requires Consistent(b) && PseudoLegal(b, m)
    ensures IsSearched(true, b, m) <==> Zeroing(b, m)
  {
    ListedMove(b, m);
  }

  /** Searched moves lead to boards the search may be asked about, with less left to play. */
  lemma ChildIsSmaller(b: Board, m: Move, checkZeroing: bool)
    requires Playable(b) && Legal(b)(m) && IsSearched(checkZeroing, b, m)
    ensures Playable(Child(b, m)) && ChecksLimited(Child(b, m))
    ensures Zeroing(b, m) && 0 <= PotentialOf(Child(b, m)) < PotentialOf(b)
  {
    SearchedIsZeroing(b, m, checkZeroing);
    TheirKingIsSpared(b, m);
    LegalPlyKeepsPlayable(b, m);
    PlyKeepsChecksLimited(b, m);
    ZeroingDrops(b, m);
    PotentialNotNegative(Child(b, m));
  }

  lemma PotentialNotNegative(b: Board)
    requires Consistent(b)
    ensures PotentialOf(b) >= 0
  {
    TotalNotNegative(Pieces(b), 8);
  }

  lemma {:induction false} TotalNotNegative(pos: Position, n: nat)
    requires n <= 8 && forall s | s in pos :: OnBoard(s)
    ensures Total(pos, n) >= 0
  {
    if n > 0 {
      TotalNotNegative(pos, n - 1);
      RankNotNegative(pos, n - 1, 8);
    }
  }

  lemma {:induction false} RankNotNegative(pos: Position, rank: int, n: nat)
    requires forall s | s in pos :: OnBoard(s)
    ensures RankWeight(pos, rank, n) >= 0
  {
    if n > 0 { RankNotNegative(pos, rank, n - 1); }
  }

  // ---------- the search ----------

  /** What each move is worth. */
  ghost function Worths(moves: seq<Move>, worth: Move -> int): (worths: seq<int>)
    ensures |worths| == |moves|
  {
    if moves == [] then [] else Worths(moves[..|moves| - 1], worth) + [worth(moves[|moves| - 1])]
  }

  lemma {:induction false} WorthAt(moves: seq<Move>, worth: Move -> int, k: nat)
    requires k < |moves|
    ensures Worths(moves, worth)[k] == worth(moves[k])
  {
    if k < |moves| - 1 { WorthAt(moves[..|moves| - 1], worth, k); }
  }

  /** Which moves are searched. */
  function Flags(moves: seq<Move>, searched: Move -> bool): (flags: seq<bool>)
    ensures |flags| == |moves|
  {
    if moves == [] then [] else Flags(moves[..|moves| - 1], searched) + [searched(moves[|moves| - 1])]
  }

  lemma {:induction false} FlagAt(moves: seq<Move>, searched: Move -> bool, k: nat)
    requires k < |moves|
    ensures Flags(moves, searched)[k] == searched(moves[k])
  {
    if k < |moves| - 1 { FlagAt(moves[..|moves| - 1], searched, k); }
  }

  /** The best value found among the first k moves. */
  ghost predicate BestSoFar(best: int, k: nat, flags: seq<bool>, worths: seq<int>)
    requires k <= |flags| == |worths|
  {
    && LOSS <= best
    && (forall j | 0 <= j < k && flags[j] :: worths[j] <= best)
    && (best == LOSS || exists j :: 0 <= j < k && flags[j] && worths[j] == best)
  }

  ghost predicate Lists(moves: seq<Move>, legal: Move -> bool) {
    forall m :: m in moves <==> legal(m)
  }

  lemma BestOfAll(best: int, moves: seq<Move>, legal: Move -> bool, searched: Move -> bool, worth: Move -> int)
    requires Lists(moves, legal) && BestSoFar(best, |moves|, Flags(moves, searched), Worths(moves, worth))
    ensures HighestOrLoss(best, Both(legal, searched), worth)
  {
    forall m | Both(legal, searched)(m)
      ensures worth(m) <= best
    {
      var j :| 0 <= j < |moves| && moves[j] == m;
      WorthAt(moves, worth, j);
      FlagAt(moves, searched, j);
    }
    if best != LOSS {
      var j :| 0 <= j < |moves| && Flags(moves, searched)[j] && Worths(moves, worth)[j] == best;
      WorthAt(moves, worth, j);
      FlagAt(moves, searched, j);
      assert moves[j] in moves;
      assert Both(legal, searched)(moves[j]);
    }
  }

  /** How many of the first k moves are searched. */
  function CountSearched(flags: seq<bool>, k: nat): nat
    requires k <= |flags|
  {
    if k == 0 then 0 else CountSearched(flags, k - 1) + if flags[k - 1] then 1 else 0
  }

  lemma OneMoreCounted(flags: seq<bool>, k: nat)
    requires k < |flags|
    ensures CountSearched(flags, k + 1) == CountSearched(flags, k) + if flags[k] then 1 else 0
  {
  }

  lemma {:induction false} AllCounted(flags: seq<bool>, k: nat)
    requires k <= |flags|
    ensures CountSearched(flags, k) <= k
    ensures CountSearched(flags, k) == k <==> forall j | 0 <= j < k :: flags[j]
  {
    if k > 0 { AllCounted(flags, k - 1); }
  }

  /** What the search concludes from all its moves and the table. */
  lemma Concluded(truth: Truth, tables: Tables, b: Board, checkZeroing: bool, moves: seq<Move>, best: int, count: nat)
    requires TrueAt(truth, b) && SoundAt(tables, truth, b) && Lists(moves, Legal(b))
    requires BestSoFar(best, |moves|, Flags(moves, Searched(checkZeroing, b)), Worths(moves, Worth(truth, b)))
    requires count == CountSearched(Flags(moves, Searched(checkZeroing, b)), |moves|)
    ensures 0 < count == |moves| ==> truth.value(b) == best && SearchedMoveWorth(truth, b, checkZeroing, best)
    ensures !(0 < count == |moves|) && tables(b).Some? ==> truth.value(b) == Max(best, tables(b).value)
    ensures best > LOSS ==> SearchedMoveWorth(truth, b, checkZeroing, best)
  {
    var legal, searched, worth := Legal(b), Searched(checkZeroing, b), Worth(truth, b);
    var flags := Flags(moves, searched);
    AllCounted(flags, |moves|);
    forall j | 0 <= j < |moves|
      ensures flags[j] == searched(moves[j])
    {
      FlagAt(moves, searched, j);
    }
    BestOfAll(best, moves, legal, searched, worth);
    if 0 < count == |moves| {
      assert moves[0] in moves;
      AllSearched(truth.value(b), best, legal, searched, worth, truth.ended(b), moves[0]);
    } else if tables(b).Some? {
      if moves != [] {
        var j :| 0 <= j < |moves| && !flags[j];
        assert moves[j] in moves;
      }
      assert forall m | Capture(b)(m) :: searched(m);
      TableRepaired(truth.value(b), best, tables(b).value, legal, searched, Capture(b), Passing(b), worth,
                    truth.ended(b));
    }
    if best > LOSS {
      var m :| Both(legal, searched)(m) && worth(m) == best;
    }
  }

  /** What was counted and compared says whether every move was looked at, and bounds what they are worth. */
  lemma AllLookedAt(truth: Truth, b: Board, checkZeroing: bool, moves: seq<Move>, best: int, count: nat)
    requires Lists(moves, Legal(b))
    requires BestSoFar(best, |moves|, Flags(moves, Searched(checkZeroing, b)), Worths(moves, Worth(truth, b)))
    requires count == CountSearched(Flags(moves, Searched(checkZeroing, b)), |moves|)
    ensures 0 < count == |moves| <==> AllLegalSearched(b, checkZeroing)
    ensures forall v | SearchedMoveWorth(truth, b, checkZeroing, v) :: v <= best
  {
    BestOfAll(best, moves, Legal(b), Searched(checkZeroing, b), Worth(truth, b));
    CountedAll(Legal(b), Searched(checkZeroing, b), moves, count);
  }

  lemma CountedAll(legal: Move -> bool, searched: Move -> bool, moves: seq<Move>, count: nat)
    requires Lists(moves, legal) && count == CountSearched(Flags(moves, searched), |moves|)
    ensures 0 < count == |moves| <==> (exists m :: legal(m)) && forall m | legal(m) :: searched(m)
  {
    var flags := Flags(moves, searched);
    AllCounted(flags, |moves|);
    forall j | 0 <= j < |moves|
      ensures flags[j] == searched(moves[j]) && legal(moves[j])
    {
      FlagAt(moves, searched, j);
      assert moves[j] in moves;
    }
  }

  /** Some legal move among those searched is worth this much. */
  ghost predicate SearchedMoveWorth(truth: Truth, b: Board, checkZeroing: bool, v: int) {
    exists m :: Both(Legal(b), Searched(checkZeroing, b))(m) && Worth(truth, b)(m) == v
  }

  /** There are legal moves, and all of them are searched. */
  ghost predicate AllLegalSearched(b: Board, checkZeroing: bool) {
    (exists m :: Legal(b)(m)) && forall m | Legal(b)(m) :: IsSearched(checkZeroing, b, m)
  }

  /** The boards a search may be asked about. */
  ghost function Searchable(): Board -> bool { (b: Board) => Playable(b) && ChecksLimited(b) }

  /** Boards, and whether all pawn moves are searched there. */
  type Coverage = (bool, Board) -> bool

  /** The search need not fail here: it finds a value in the table or does without, and goes on to boards
      of the coverage only. */
  ghost predicate CoveredAt(cover: Coverage, tables: Tables, checkZeroing: bool, b: Board) {
    && (tables(b).Some? || AllLegalSearched(b, checkZeroing))
    && forall m | Legal(b)(m) && IsSearched(checkZeroing, b, m) :: cover(false, Child(b, m))
  }

  ghost predicate Closed(cover: Coverage, tables: Tables) {
    forall checkZeroing, b {:trigger CoveredAt(cover, tables, checkZeroing, b)}
      | Playable(b) && cover(checkZeroing, b) :: CoveredAt(cover, tables, checkZeroing, b)
  }

  /** The playable boards with no more than this left to play. */
  ghost function UpTo(n: int): Coverage { (_, b) => Playable(b) && PotentialOf(b) <= n }

  ghost predicate FullUpTo(tables: Tables, n: int) {
    forall b | Playable(b) && PotentialOf(b) <= n :: tables(b).Some?
  }

  /** Tables that yield a value for all of them suffice. */
  lemma FullTablesClose(tables: Tables, n: int)
    requires FullUpTo(tables, n)
    ensures Closed(UpTo(n), tables)
  {
    forall checkZeroing, b {:trigger CoveredAt(UpTo(n), tables, checkZeroing, b)}
      | Playable(b) && UpTo(n)(checkZeroing, b)
      ensures CoveredAt(UpTo(n), tables, checkZeroing, b)
    {
      forall m | Legal(b)(m) && IsSearched(checkZeroing, b, m)
        ensures UpTo(n)(false, Child(b, m))
      {
        ChildIsSmaller(b, m, checkZeroing);
      }
    }
  }

  /** One more move looked at. */
  lemma BestExtends(best: int, k: nat, flags: seq<bool>, worths: seq<int>)
    requires k < |flags| == |worths| && BestSoFar(best, k, flags, worths)
    ensures !flags[k] || worths[k] <= best ==> BestSoFar(best, k + 1, flags, worths)
    ensures flags[k] && worths[k] > best ==> BestSoFar(worths[k], k + 1, flags, worths)
  {
  }

  /** A move that wins outright settles the position. */
  lemma WinningMove(truth: Truth, b: Board, checkZeroing: bool, moves: seq<Move>, k: nat)
    requires TrueAt(truth, b) && Lists(moves, Legal(b)) && k < |moves| && IsSearched(checkZeroing, b, moves[k])
    requires Worths(moves, Worth(truth, b))[k] >= WIN
    ensures truth.value(b) == Worths(moves, Worth(truth, b))[k]
            && SearchedMoveWorth(truth, b, checkZeroing, truth.value(b))
  {
    WorthAt(moves, Worth(truth, b), k);
    assert moves[k] in moves;
    assert Both(Legal(b), Searched(checkZeroing, b))(moves[k]);
    var top :| Legal(b)(top) && Worth(truth, b)(top) == truth.value(b);
  }

  /** How searching the moves can end: all looked at, one of them wins, or a probe failed. */
  datatype Outcome = Looked(best: int, count: nat) | Won | Failed

  /** What an outcome says about the moves. */
  ghost predicate Finds(o: Outcome, flags: seq<bool>, worths: seq<int>)
    requires |flags| == |worths|
  {
    match o
    case Looked(best, count) => BestSoFar(best, |flags|, flags, worths) && count == CountSearched(flags, |flags|)
    case Won => exists k :: 0 <= k < |flags| && flags[k] && worths[k] == WIN
    case Failed => true
  }

  /** What an outcome says about the position's value; noMore says that every move was looked at. */
  ghost predicate Settles(o: Outcome, noMore: bool, truth: Truth, raw: Option<int>, b: Board, checkZeroing: bool) {
    && (o.Won? ==> truth.value(b) == WIN && SearchedMoveWorth(truth, b, checkZeroing, WIN))
    && (o.Looked? && noMore ==> truth.value(b) == o.best)
    && (o.Looked? && !noMore && raw.Some? ==> truth.value(b) == Max(o.best, raw.value))
    && (o.Looked? && (noMore || o.best > LOSS) ==> SearchedMoveWorth(truth, b, checkZeroing, o.best))
    && (o.Looked? ==> (noMore <==> AllLegalSearched(b, checkZeroing)))
    && (o.Looked? ==> forall v | SearchedMoveWorth(truth, b, checkZeroing, v) :: v <= o.best)
  }

  lemma OutcomeMeans(truth: Truth, tables: Tables, b: Board, checkZeroing: bool, moves: seq<Move>, o: Outcome,
                     noMore: bool)
    requires Playable(b) && AllTrue(truth) && AllSound(tables, truth) && Lists(moves, Legal(b))
    requires Finds(o, Flags(moves, Searched(checkZeroing, b)), Worths(moves, Worth(truth, b)))
    requires noMore <==> o.Looked? && 0 < o.count == |moves|
    ensures Settles(o, noMore, truth, tables(b), b, checkZeroing)
  {
    assert TrueAt(truth, b) && SoundAt(tables, truth, b);
    if o.Looked? {
      Concluded(truth, tables, b, checkZeroing, moves, o.best, o.count);
      AllLookedAt(truth, b, checkZeroing, moves, o.best, o.count);
    } else if o.Won? {
      var k :| 0 <= k < |moves| && Flags(moves, Searched(checkZeroing, b))[k]
        && Worths(moves, Worth(truth, b))[k] == WIN;
      FlagAt(moves, Searched(checkZeroing, b), k);
      WinningMove(truth, b, checkZeroing, moves, k);
    }
  }

  /** Searches the captures, and the pawn moves too if asked, then the table. */
  method Search(checkZeroing: bool, b: Board, tables: Tables, ghost truth: Truth, ghost cover: Coverage)
    returns (value: int, result: ProbeState)
    requires Playable(b) && ChecksLimited(b) && AllTrue(truth) && AllSound(tables, truth) && Closed(cover, tables)
    ensures result != Fail ==> value == truth.value(b)
    ensures result == ZeroingBestMove ==> SearchedMoveWorth(truth, b, checkZeroing, value)
    ensures result != Fail ==> (result == ZeroingBestMove <==>
              AllLegalSearched(b, checkZeroing) || (value > DRAW && SearchedMoveWorth(truth, b, checkZeroing, value)))
    ensures cover(checkZeroing, b) ==> result != Fail
    ensures result != Fail ==>
              tables(b).Some? || AllLegalSearched(b, checkZeroing) || SearchedMoveWorth(truth, b, checkZeroing, WIN)
    decreases PotentialOf(b), 3
  {
    var o, noMore := SearchLegal(checkZeroing, b, tables, truth, cover);
    match o
    case Failed => value, result := DRAW, Fail;
    case Won => value, result := WIN, ZeroingBestMove;
    case Looked(best, _) => value, result := Conclude(best, noMore, tables(b));
  }

  /** The value of a position from the tables. With a value in the tables for every playable board that has
      no more left to play, it is found. */
  method ProbeWdl(b: Board, tables: Tables, ghost truth: Truth) returns (value: int, result: ProbeState)
    requires Playable(b) && ChecksLimited(b) && AllTrue(truth) && AllSound(tables, truth)
    ensures result != Fail ==> value == truth.value(b)
    ensures FullUpTo(tables, PotentialOf(b)) ==> result != Fail
  {
    ghost var full := FullUpTo(tables, PotentialOf(b));
    ghost var cover: Coverage := if full then UpTo(PotentialOf(b)) else Nowhere();
    if full { FullTablesClose(tables, PotentialOf(b)); }
    value, result := Search(false, b, tables, truth, cover);
  }

  ghost function Nowhere(): Coverage { (_, _) => false }

  method SearchLegal(checkZeroing: bool, b: Board, tables: Tables, ghost truth: Truth, ghost cover: Coverage)
    returns (o: Outcome, noMore: bool)
    requires Playable(b) && ChecksLimited(b) && AllTrue(truth) && AllSound(tables, truth) && Closed(cover, tables)
    ensures Settles(o, noMore, truth, tables(b), b, checkZeroing)
    ensures cover(checkZeroing, b) ==> !o.Failed? && (tables(b).Some? || AllLegalSearched(b, checkZeroing))
    decreases PotentialOf(b), 2
  {
    var moves := LegalMoves(b);
    o := SearchMoves(checkZeroing, b, moves, tables, truth, cover);
    noMore := o.Looked? && 0 < o.count == |moves|;
    OutcomeMeans(truth, tables, b, checkZeroing, moves, o, noMore);
    assert cover(checkZeroing, b) ==> CoveredAt(cover, tables, checkZeroing, b);
  }

  method SearchMoves(checkZeroing: bool, b: Board, moves: seq<Move>, tables: Tables, ghost truth: Truth,
                     ghost cover: Coverage)
    returns (o: Outcome)
    requires AllTrue(truth) && AllSound(tables, truth) && Closed(cover, tables) && Lists(moves, Legal(b))
    ensures Finds(o, Flags(moves, Searched(checkZeroing, b)), Worths(moves, Worth(truth, b)))
    ensures cover(checkZeroing, b) ==> !o.Failed?
    decreases PotentialOf(b), 1
  {
    ghost var flags, worths := Flags(moves, Searched(checkZeroing, b)), Worths(moves, Worth(truth, b));
    var best, count := LOSS, 0;
    for k := 0 to |moves|
      invariant BestSoFar(best, k, flags, worths)
      invariant count == CountSearched(flags, k)
    {
      BestExtends(best, k, flags, worths);
      OneMoreCounted(flags, k);
      var looked := LooksAt(checkZeroing, b, moves, k);
      if looked {
        count := count + 1;
        var child := Descend(checkZeroing, b, moves, k, tables, truth, cover);
        var v, r := SearchChild(child, tables, truth, cover, PotentialOf(b));
        if r == Fail { return Failed; }
        if v > best {
          best := v;
          if v >= WIN { return Won; }
        }
      }
    }
    o := Looked(best, count);
  }

  /** Puts the best move and the table together. */
  method Conclude(best: int, noMore: bool, raw: Option<int>) returns (value: int, result: ProbeState)
    ensures noMore ==> value == best && result == ZeroingBestMove
    ensures !noMore ==> (result == Fail <==> raw.None?)
    ensures !noMore && raw.Some? ==> value == Max(best, raw.value)
                                     && (result == ZeroingBestMove <==> best >= raw.value && best > DRAW)
  {
    if noMore {
      value := best;
    } else {
      if raw.None? { return DRAW, Fail; }
      value := raw.value;
    }
    if best >= value {
      return best, if best > DRAW || noMore then ZeroingBestMove else Ok;
    }
    return value, Ok;
  }

  method LegalMoves(b: Board) returns (moves: seq<Move>)
    requires Playable(b) && ChecksLimited(b)
    ensures Lists(moves, Legal(b))
  {
    var board := new ChessBoard(b);
    moves := board.GenerateLegalMoves();
  }

  method LooksAt(checkZeroing: bool, b: Board, moves: seq<Move>, k: nat) returns (looked: bool)
    requires k < |moves|
    ensures looked == Flags(moves, Searched(checkZeroing, b))[k]
  {
    FlagAt(moves, Searched(checkZeroing, b), k);
    looked := IsSearched(checkZeroing, b, moves[k]);
  }

  /** The search from the other side, its value turned round. */
  method SearchChild(child: Board, tables: Tables, ghost truth: Truth, ghost cover: Coverage, ghost above: int)
    returns (value: int, result: ProbeState)
    requires AllTrue(truth) && AllSound(tables, truth) && Closed(cover, tables)
    requires Searchable()(child) && 0 <= PotentialOf(child) < above
    ensures result != Fail ==> value == -truth.value(child)
    ensures cover(false, child) ==> result != Fail
    decreases above, 0
  {
    value, result := Search(false, child, tables, truth, cover);
    value := -value;
  }

  lemma WorthInRange(truth: Truth, b: Board, moves: seq<Move>, k: nat)
    requires AllTrue(truth) && k < |moves| && Lists(moves, Legal(b))
    ensures Worths(moves, Worth(truth, b))[k] <= WIN
  {
    assert moves[k] in moves;
    assert TrueAt(truth, b);
    WorthAt(moves, Worth(truth, b), k);
  }

  method Descend(checkZeroing: bool, b: Board, moves: seq<Move>, k: nat, ghost tables: Tables, ghost truth: Truth,
                 ghost cover: Coverage)
    returns (child: Board)
    requires AllTrue(truth) && Closed(cover, tables)
    requires Lists(moves, Legal(b)) && k < |moves| && Flags(moves, Searched(checkZeroing, b))[k]
    ensures Worths(moves, Worth(truth, b))[k] == -truth.value(child) <= WIN
    ensures cover(checkZeroing, b) ==> cover(false, child)
    ensures Searchable()(child) && 0 <= PotentialOf(child) < PotentialOf(b)
  {
    assert moves[k] in moves;
    FlagAt(moves, Searched(checkZeroing, b), k);
    WorthInRange(truth, b, moves, k);
    assert Legal(b)(moves[k]);
    assert cover(checkZeroing, b) ==> CoveredAt(cover, tables, checkZeroing, b);
    ChildIsSmaller(b, moves[k], checkZeroing);
    WorthAt(moves, Worth(truth, b), k);
    child := Child(b, moves[k]);
  }
}
