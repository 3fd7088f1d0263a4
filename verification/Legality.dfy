/** The legality filter: pins and lines of attack on our king, found once per position, decide for
    every listed move whether it leaves our king in check. */
module Legality {
  import opened Squares
  import opened ChessRules
  import opened Boards
  import opened Pseudolegal

  // ---------- lines through our king ----------

  /** What a line from our king runs into: a checking slider, or a man of ours with a slider behind
      it, at these distances. */
  datatype Line = Quiet | Checked(far: nat) | Pinned(man: nat, far: nat)

  function Sliders(b: Board, d: Dir): set<Square> { if Straight(d) then b.rooks else b.bishops }

  predicate EnemySlider(b: Board, d: Dir, s: Square) { s in b.theirs && s in Sliders(b, d) }

  function LineOf(b: Board, d: Dir): Line {
    var i := First(Occupied(b), b.ourKing, d, 1);
    if i == 0 then Quiet
    else if At(b.ourKing, d, i) in b.theirs then
      if EnemySlider(b, d, At(b.ourKing, d, i)) then Checked(i) else Quiet
    else
      var n := First(Occupied(b), b.ourKing, d, i + 1);
      if n > 0 && EnemySlider(b, d, At(b.ourKing, d, n)) then Pinned(i, n) else Quiet
  }

  /** The squares at distances 1 to n. */
  function Segment(s: Square, d: Dir, n: nat): set<Square> {
    if n == 0 then {} else Segment(s, d, n - 1) + {At(s, d, n)}
  }

  lemma {:induction false} InSegment(s: Square, d: Dir, n: nat, i: nat)
    requires 1 <= i <= n
    ensures At(s, d, i) in Segment(s, d, n)
  {
    if i < n { InSegment(s, d, n - 1, i); }
  }

  lemma {:induction false} FindInSegment(s: Square, d: Dir, n: nat, t: Square) returns (i: nat)
    requires t in Segment(s, d, n)
    ensures 1 <= i <= n && t == At(s, d, i)
  {
    if t == At(s, d, n) { i := n; } else { i := FindInSegment(s, d, n - 1, t); }
  }

  function PinnedOn(b: Board, d: Dir): set<Square> {
    var line := LineOf(b, d);
    if line.Pinned? then {At(b.ourKing, d, line.man)} else {}
  }

  function CheckedOn(b: Board, d: Dir): set<Square> {
    var line := LineOf(b, d);
    if line.Checked? then Segment(b.ourKing, d, line.far) else {}
  }

  function One(c: bool): nat { if c then 1 else 0 }

  function Checks(b: Board, d: Dir): nat { One(LineOf(b, d).Checked?) }

  // ---------- what is found out about our king ----------

  datatype KingAttackInfo = KingAttackInfo(doubleCheck: bool, pinned: set<Square>, attackLines: set<Square>)

  function CheckingPawns(b: Board): set<Square> { PawnAttackers(b.ourKing) * b.theirs * b.pawns }

  function CheckingKnights(b: Board): set<Square> { KnightAttacks(b.ourKing) * TheirKnights(b) }

  function LineChecks(b: Board): nat {
    Checks(b, North) + Checks(b, South) + Checks(b, East) + Checks(b, West)
    + Checks(b, NorthEast) + Checks(b, NorthWest) + Checks(b, SouthEast) + Checks(b, SouthWest)
  }

  /** How many attackers are counted; several pawns, or several knights, count once. */
  function CountedChecks(b: Board): nat {
    LineChecks(b) + One(CheckingPawns(b) != {}) + One(CheckingKnights(b) != {})
  }

  function PinnedMen(b: Board): set<Square> {
    PinnedOn(b, North) + PinnedOn(b, South) + PinnedOn(b, East) + PinnedOn(b, West)
    + PinnedOn(b, NorthEast) + PinnedOn(b, NorthWest) + PinnedOn(b, SouthEast) + PinnedOn(b, SouthWest)
  }

  function CheckLines(b: Board): set<Square> {
    CheckedOn(b, North) + CheckedOn(b, South) + CheckedOn(b, East) + CheckedOn(b, West)
    + CheckedOn(b, NorthEast) + CheckedOn(b, NorthWest) + CheckedOn(b, SouthEast) + CheckedOn(b, SouthWest)
  }

  function AttackInfo(b: Board): KingAttackInfo {
    KingAttackInfo(CountedChecks(b) == 2, PinnedMen(b), CheckLines(b) + CheckingPawns(b) + CheckingKnights(b))
  }

  lemma PinnedSomewhere(b: Board, s: Square)
    ensures s in PinnedMen(b) <==> exists d :: s in PinnedOn(b, d)
  {
    if d :| s in PinnedOn(b, d) {
      match d
      case North => case South => case East => case West =>
      case NorthEast => case NorthWest => case SouthEast => case SouthWest =>
    }
  }

  lemma CheckedSomewhere(b: Board, s: Square)
    ensures s in CheckLines(b) <==> exists d :: s in CheckedOn(b, d)
  {
    if d :| s in CheckedOn(b, d) {
      match d
      case North => case South => case East => case West =>
      case NorthEast => case NorthWest => case SouthEast => case SouthWest =>
    }
  }

  // ---------- the filter ----------

  /** Two steps from the king, from and to, lie on one line through it. */
  predicate Collinear(king: Square, from: Square, to: Square) {
    var dx, dy, ex, ey := from.file - king.file, from.rank - king.rank, to.file - king.file, to.rank - king.rank;
    if dx == 0 || ex == 0 then dx == ex else dx * ey == ex * dy
  }

  predicate IsLegal(b: Board, m: Move, info: KingAttackInfo) {
    if m.special.EnPassant? then !IsUnderCheck(Applied(b, m))
    else if info.attackLines != {} then
      if m.from == b.ourKing then !IsUnderCheck(Applied(b, m))
      else m.from !in info.pinned && !info.doubleCheck && m.to in info.attackLines
    else if m.from == b.ourKing then
      !m.special.Castle? || !IsUnderCheck(Applied(b, m))
    else
      m.from !in info.pinned || Collinear(b.ourKing, m.from, m.to)
  }

  // ---------- sliders that check ----------

  predicate SliderChecks(b: Board, d: Dir) {
    var i := First(Occupied(b), b.ourKing, d, 1);
    i > 0 && EnemySlider(b, d, At(b.ourKing, d, i))
  }

  /** A king is in check if and only if a line, a pawn or a knight checks it. */
  lemma CheckBySomething(b: Board)
    requires Sides(b) && Kings(b) && !KingStep(b.ourKing, b.theirKing)
    ensures IsUnderCheck(b) <==> (exists d :: SliderChecks(b, d)) || CheckingPawns(b) != {} || CheckingKnights(b) != {}
  {
    forall d | SliderChecks(b, d)
      ensures IsUnderCheck(b)
    {
      SliderSeen(b, d);
    }
    if RookAttacks(b.ourKing, Occupied(b)) * b.theirs * b.rooks != {} {
      var d := SeenSlider(b, true);
    }
    if BishopAttacks(b.ourKing, Occupied(b)) * b.theirs * b.bishops != {} {
      var d := SeenSlider(b, false);
    }
    assert b.ourKing != b.theirKing;
  }

  lemma SliderSeen(b: Board, d: Dir)
    requires Sides(b) && Kings(b) && SliderChecks(b, d)
    ensures if Straight(d) then RookAttacks(b.ourKing, Occupied(b)) * b.theirs * b.rooks != {}
            else BishopAttacks(b.ourKing, Occupied(b)) * b.theirs * b.bishops != {}
  {
    var occ, king := Occupied(b), b.ourKing;
    var i := First(occ, king, d, 1);
    FirstFound(occ, king, d, 1);
    var t := At(king, d, i);
    assert Reaches(occ, king, d, t);
    if Straight(d) {
      RookAttacksAre(king, occ, t);
      assert t in RookAttacks(king, occ) * b.theirs * b.rooks;
    } else {
      BishopAttacksAre(king, occ, t);
      assert t in BishopAttacks(king, occ) * b.theirs * b.bishops;
    }
  }

  lemma SeenSlider(b: Board, straight: bool) returns (d: Dir)
    requires Sides(b) && Kings(b)
    requires if straight then RookAttacks(b.ourKing, Occupied(b)) * b.theirs * b.rooks != {}
             else BishopAttacks(b.ourKing, Occupied(b)) * b.theirs * b.bishops != {}
    ensures SliderChecks(b, d)
  {
    var occ, king := Occupied(b), b.ourKing;
    var t;
    if straight {
      t :| t in RookAttacks(king, occ) * b.theirs * b.rooks;
      RookAttacksAre(king, occ, t);
      d :| Straight(d) && Reaches(occ, king, d, t);
    } else {
      t :| t in BishopAttacks(king, occ) * b.theirs * b.bishops;
      BishopAttacksAre(king, occ, t);
      d :| !Straight(d) && Reaches(occ, king, d, t);
    }
    var k: nat :| 1 <= k && t == At(king, d, k) && Clear(occ, king, d, 1, k);
    FirstIs(occ, king, d, 1, k);
  }

  lemma LineChecksAre(b: Board, d: Dir)
    ensures SliderChecks(b, d) <==> LineOf(b, d).Checked?
  {
  }

  // ---------- a line after a move ----------

  /** The occupied squares, and the squares where an enemy slider of this line stands, before and
      after one of our men goes from one square to another. */
  ghost predicate Step(b: Board, d: Dir, m: Move, a: Board) {
    && a.ourKing == b.ourKing && a.theirKing == b.theirKing && b.ours !! b.theirs
    && m.from in b.ours && m.to !in b.ours && m.from != b.ourKing
    && (forall s :: s in Occupied(a) <==> (s in Occupied(b) && s != m.from) || s == m.to)
    && (forall s :: EnemySlider(a, d, s) <==> EnemySlider(b, d, s) && s != m.to)
  }

  lemma ClearOfMore(occ: set<Square>, other: set<Square>, s: Square, d: Dir, lo: int, hi: int)
    requires Clear(occ, s, d, lo, hi)
    requires forall i | lo <= i < hi :: At(s, d, i) in other ==> At(s, d, i) in occ
    ensures Clear(other, s, d, lo, hi)
  {
    forall i | lo <= i < hi
      ensures At(s, d, i) !in other
    {
      ClearAt(occ, s, d, lo, hi, i);
    }
    ClearFrom(other, s, d, lo, hi);
  }

  /** A move to a square in front of the slider blocks the line. */
  lemma Blocked(b: Board, d: Dir, m: Move, a: Board, j: nat)
    requires OnBoard(b.ourKing) && Step(b, d, m, a) && 1 <= j && OnBoard(m.to) && m.to == At(b.ourKing, d, j)
    requires forall i: nat | 1 <= i < j :: At(b.ourKing, d, i) !in Occupied(b) || At(b.ourKing, d, i) == m.from
    ensures !SliderChecks(a, d)
  {
    forall i | 1 <= i < j
      ensures At(b.ourKing, d, i) !in Occupied(a)
    {
      if At(b.ourKing, d, i) == m.to { OneLine(b.ourKing, d, i, d, j); }
    }
    ClearFrom(Occupied(a), b.ourKing, d, 1, j);
    FirstIs(Occupied(a), b.ourKing, d, 1, j);
  }

  lemma CheckedLineAfter(b: Board, d: Dir, m: Move, a: Board)
    requires OnBoard(b.ourKing) && OnBoard(m.to) && Step(b, d, m, a) && LineOf(b, d).Checked?
    ensures SliderChecks(a, d) <==> m.to !in CheckedOn(b, d)
  {
    var king, n := b.ourKing, LineOf(b, d).far;
    FirstFound(Occupied(b), king, d, 1);
    if m.to in CheckedOn(b, d) {
      var j := FindInSegment(king, d, n, m.to);
      forall i: nat | 1 <= i < j
        ensures At(king, d, i) !in Occupied(b)
      {
        ClearAt(Occupied(b), king, d, 1, n, i);
      }
      Blocked(b, d, m, a, j);
    } else {
      forall i: nat | 1 <= i <= n
        ensures At(king, d, i) != m.to
      {
        InSegment(king, d, n, i);
      }
      ClearOfMore(Occupied(b), Occupied(a), king, d, 1, n);
      FirstIs(Occupied(a), king, d, 1, n);
    }
  }

  lemma PinnedLine(b: Board, d: Dir)
    requires LineOf(b, d).Pinned? && b.ours !! b.theirs
    ensures var (i, n) := (LineOf(b, d).man, LineOf(b, d).far);
            && 1 <= i < n && OnBoard(At(b.ourKing, d, n))
            && At(b.ourKing, d, i) in b.ours && EnemySlider(b, d, At(b.ourKing, d, n))
            && forall j | 1 <= j < n && j != i :: At(b.ourKing, d, j) !in Occupied(b)
  {
    var king, i, n := b.ourKing, LineOf(b, d).man, LineOf(b, d).far;
    FirstFound(Occupied(b), king, d, 1);
    FirstFound(Occupied(b), king, d, i + 1);
    forall j | 1 <= j < n && j != i
      ensures At(king, d, j) !in Occupied(b)
    {
      if j < i { ClearAt(Occupied(b), king, d, 1, i, j); } else { ClearAt(Occupied(b), king, d, i + 1, n, j); }
    }
  }

  lemma PinnedLineAfter(b: Board, d: Dir, m: Move, a: Board)
    requires OnBoard(b.ourKing) && OnBoard(m.to) && Step(b, d, m, a) && LineOf(b, d).Pinned?
    ensures SliderChecks(a, d) <==>
            m.from == At(b.ourKing, d, LineOf(b, d).man) && m.to !in Segment(b.ourKing, d, LineOf(b, d).far)
  {
    var king, i, n := b.ourKing, LineOf(b, d).man, LineOf(b, d).far;
    PinnedLine(b, d);
    if m.to in Segment(king, d, n) {
      var j := FindInSegment(king, d, n, m.to);
      if j < i || m.from == At(king, d, i) {
        Blocked(b, d, m, a, j);
      } else {
        ManStays(b, d, m, a, i);
      }
    } else {
      forall j: nat | 1 <= j <= n
        ensures At(king, d, j) != m.to
      {
        InSegment(king, d, n, j);
      }
      if m.from == At(king, d, i) {
        ClearFrom(Occupied(a), king, d, 1, n);
        OnlyOnce(king, d, i, n);
        FirstIs(Occupied(a), king, d, 1, n);
      } else {
        ManStays(b, d, m, a, i);
      }
    }
  }

  lemma OnlyOnce(s: Square, d: Dir, i: nat, n: nat)
    requires 1 <= i < n
    ensures At(s, d, i) != At(s, d, n)
  {
  }

  /** The first man on the line is ours and stays there. */
  lemma ManStays(b: Board, d: Dir, m: Move, a: Board, i: nat)
    requires OnBoard(b.ourKing) && OnBoard(At(b.ourKing, d, i)) && Step(b, d, m, a)
    requires 1 <= i && At(b.ourKing, d, i) in b.ours && m.from != At(b.ourKing, d, i)
    requires forall j | 1 <= j < i :: At(b.ourKing, d, j) !in Occupied(b)
    ensures !SliderChecks(a, d)
  {
    var king := b.ourKing;
    if SliderChecks(a, d) {
      var k := First(Occupied(a), king, d, 1);
      FirstFound(Occupied(a), king, d, 1);
      if i < k { ClearAt(Occupied(a), king, d, 1, k, i); }
    }
  }

  lemma QuietLineAfter(b: Board, d: Dir, m: Move, a: Board)
    requires OnBoard(b.ourKing) && OnBoard(m.to) && Step(b, d, m, a) && LineOf(b, d).Quiet?
    ensures !SliderChecks(a, d)
  {
    var occ, king := Occupied(b), b.ourKing;
    if SliderChecks(a, d) {
      var k, i := First(Occupied(a), king, d, 1), First(occ, king, d, 1);
      FirstFound(Occupied(a), king, d, 1);
      if i == 0 {
        FirstNone(occ, king, d, 1, k);
      } else {
        FirstFound(occ, king, d, 1);
        if k < i {
          ClearAt(occ, king, d, 1, i, k);
        } else if i < k {
          ClearAt(Occupied(a), king, d, 1, k, i);
          QuietBehind(b, d, m, a, i, k);
        }
      }
    }
  }

  lemma QuietBehind(b: Board, d: Dir, m: Move, a: Board, i: nat, k: nat)
    requires OnBoard(b.ourKing) && Step(b, d, m, a) && LineOf(b, d).Quiet?
    requires 1 <= i == First(Occupied(b), b.ourKing, d, 1) < k
    requires At(b.ourKing, d, i) in b.ours && m.from == At(b.ourKing, d, i)
    requires IsFirst(Occupied(a), b.ourKing, d, 1, k)
    ensures !EnemySlider(a, d, At(b.ourKing, d, k))
  {
    if EnemySlider(a, d, At(b.ourKing, d, k)) {
      NextMan(Occupied(b), Occupied(a), b.ourKing, d, i, k);
    }
  }

  /** With the man at distance i gone, the first one left is the one behind it. */
  lemma NextMan(occ: set<Square>, other: set<Square>, s: Square, d: Dir, i: nat, k: nat)
    requires OnBoard(s) && 1 <= i < k && IsFirst(other, s, d, 1, k) && At(s, d, k) in occ
    requires forall x | x in occ && x != At(s, d, i) :: x in other
    ensures First(occ, s, d, i + 1) == k
  {
    forall j | i + 1 <= j < k
      ensures At(s, d, j) !in occ
    {
      OnlyOnce(s, d, i, j);
      ClearAt(other, s, d, 1, k, j);
    }
    ClearFrom(occ, s, d, i + 1, k);
    FirstIs(occ, s, d, i + 1, k);
  }
}
