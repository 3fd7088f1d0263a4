/** The legality filter is right: it passes exactly the listed moves that leave our king unattacked. */
module SafeMoves {
  import opened Wrappers
  import opened Squares
  import opened ChessRules
  import opened Boards
  import opened Pseudolegal
  import opened Plies
  import opened Legality

  // ---------- boards the filter is meant for ----------

  /** A well-formed board on which their king cannot be taken. */
  ghost predicate Playable(b: Board) {
    Consistent(b) && !KingStep(b.ourKing, b.theirKing) && !Attacked(Pieces(b), true, b.theirKing)
  }

  /** The limits the filter asserts: one checking pawn, one checking knight, two attackers in all. */
  predicate ChecksLimited(b: Board) {
    |CheckingPawns(b)| <= 1 && |CheckingKnights(b)| <= 1 && CountedChecks(b) <= 2
  }

  // ---------- moves of men other than the king ----------

  /** A listed move to an occupied square is an attack on it. */
  lemma CapturesAttack(b: Board, m: Move)
    requires Consistent(b) && PseudoLegal(b, m) && m.from != b.ourKing && m.to in b.theirs
    ensures Attacked(Pieces(b), true, m.to)
  {
    var pos := Pieces(b);
    ListedMove(b, m);
    if RookMove(b, m) {
      RookAttacksAre(m.from, Occupied(b), m.to);
      assert Hits(pos.Keys, pos[m.from], m.from, m.to);
    } else if BishopMove(b, m) {
      BishopAttacksAre(m.from, Occupied(b), m.to);
      assert Hits(pos.Keys, pos[m.from], m.from, m.to);
    } else if PawnMove(b, m) {
      assert Hits(pos.Keys, pos[m.from], m.from, m.to);
    } else {
      assert Hits(pos.Keys, pos[m.from], m.from, m.to);
    }
  }

  lemma TheirKingIsSpared(b: Board, m: Move)
    requires Playable(b) && PseudoLegal(b, m)
    ensures StaysOffTheirKing(b, m)
  {
    if m.to == b.theirKing && m.from != b.ourKing { CapturesAttack(b, m); }
  }

  predicate ManMove(b: Board, m: Move) {
    m.from != b.ourKing && !m.special.EnPassant?
  }

  lemma MoveIsStep(b: Board, m: Move, d: Dir)
    requires Plain(b, m) && ManMove(b, m)
    ensures Step(b, d, m, Applied(b, m))
  {
  }

  lemma StepsAfter(b: Board, m: Move)
    requires Plain(b, m) && ManMove(b, m)
    ensures CheckingPawns(Applied(b, m)) == CheckingPawns(b) - {m.to}
    ensures CheckingKnights(Applied(b, m)) == CheckingKnights(b) - {m.to}
  {
    forall s
      ensures s in CheckingPawns(Applied(b, m)) <==> s in CheckingPawns(b) - {m.to}
      ensures s in CheckingKnights(Applied(b, m)) <==> s in CheckingKnights(b) - {m.to}
    {
      TheirStepperAfter(b, m, s);
    }
  }

  /** Their men stay as they are, but for the one that is taken. */
  lemma TheirStepperAfter(b: Board, m: Move, s: Square)
    requires Plain(b, m) && ManMove(b, m)
    ensures var a := Applied(b, m);
            && a.ourKing == b.ourKing
            && (OnPawnRank(s) ==> (s in a.theirs && s in a.pawns <==> s in b.theirs && s in b.pawns && s != m.to))
            && (s in TheirKnights(a) <==> s in TheirKnights(b) && s != m.to)
  {
  }

  /** The move deals with whatever threatens along this line. */
  predicate Answers(b: Board, m: Move, d: Dir) {
    match LineOf(b, d)
    case Quiet => true
    case Checked(_) => m.to in CheckedOn(b, d)
    case Pinned(i, n) => m.from == At(b.ourKing, d, i) ==> m.to in Segment(b.ourKing, d, n)
  }

  lemma AnsweredLine(b: Board, m: Move, d: Dir)
    requires Plain(b, m) && ManMove(b, m)
    ensures SliderChecks(Applied(b, m), d) <==> !Answers(b, m, d)
  {
    MoveIsStep(b, m, d);
    match LineOf(b, d)
    case Quiet => QuietLineAfter(b, d, m, Applied(b, m));
    case Checked(_) => CheckedLineAfter(b, d, m, Applied(b, m));
    case Pinned(_, _) => PinnedLineAfter(b, d, m, Applied(b, m));
  }

  ghost predicate AnswersAll(b: Board, m: Move) {
    (forall d :: Answers(b, m, d)) && CheckingPawns(b) <= {m.to} && CheckingKnights(b) <= {m.to}
  }

  /** Our king is safe after the move if and only if the move answers every threat. */
  lemma SafeIfAnswered(b: Board, m: Move)
    requires Plain(b, m) && ManMove(b, m) && !KingStep(b.ourKing, b.theirKing)
    ensures !IsUnderCheck(Applied(b, m)) <==> AnswersAll(b, m)
  {
    var a := Applied(b, m);
    PlainKeepsSides(b, m);
    CheckBySomething(a);
    StepsAfter(b, m);
    forall d
      ensures SliderChecks(a, d) <==> !Answers(b, m, d)
    {
      AnsweredLine(b, m, d);
    }
  }

  // ---------- counting attackers ----------

  lemma TwoLines(b: Board, d: Dir, e: Dir)
    requires LineOf(b, d).Checked? && LineOf(b, e).Checked? && d != e
    ensures LineChecks(b) >= 2
  {
  }

  lemma SomeLine(b: Board, d: Dir)
    requires LineOf(b, d).Checked?
    ensures LineChecks(b) >= 1
  {
  }

  lemma OneLineAtMost(b: Board)
    requires forall d, e | LineOf(b, d).Checked? && LineOf(b, e).Checked? :: d == e
    ensures LineChecks(b) <= 1
    ensures (forall d :: !LineOf(b, d).Checked?) ==> LineChecks(b) == 0
  {
    assert forall d, e | d != e :: Checks(b, d) + Checks(b, e) <= 1;
  }

  lemma SquareOfCheck(b: Board, d: Dir, s: Square)
    requires Sides(b) && s in CheckedOn(b, d)
    ensures s !in Occupied(b) || EnemySlider(b, d, s)
    ensures exists j: nat :: 1 <= j && s == At(b.ourKing, d, j)
  {
    var n := LineOf(b, d).far;
    var j := FindInSegment(b.ourKing, d, n, s);
    FirstFound(Occupied(b), b.ourKing, d, 1);
    if j < n { ClearAt(Occupied(b), b.ourKing, d, 1, n, j); }
  }

  lemma SquareOfPin(b: Board, d: Dir, s: Square)
    requires Sides(b) && LineOf(b, d).Pinned? && s in Segment(b.ourKing, d, LineOf(b, d).far)
    ensures s !in b.theirs || EnemySlider(b, d, s)
    ensures exists j: nat :: 1 <= j && s == At(b.ourKing, d, j)
  {
    var n := LineOf(b, d).far;
    var j := FindInSegment(b.ourKing, d, n, s);
    PinnedLine(b, d);
  }

  lemma LinesApart(king: Square, d: Dir, e: Dir, s: Square)
    requires exists j: nat :: 1 <= j && s == At(king, d, j)
    requires exists j: nat :: 1 <= j && s == At(king, e, j)
    ensures d == e
  {
    var j: nat :| 1 <= j && s == At(king, d, j);
    var k: nat :| 1 <= k && s == At(king, e, k);
    OneLine(king, d, j, e, k);
  }

  /** A checking pawn or knight is no slider. */
  lemma SteppersAreNoSliders(b: Board, s: Square, d: Dir)
    requires Sides(b) && Kings(b) && (s in CheckingPawns(b) || s in CheckingKnights(b))
    ensures s in b.theirs && !EnemySlider(b, d, s)
  {
    assert s in CheckingPawns(b) ==> s in Masked(b.pawns);
  }

  lemma PawnIsNoKnight(b: Board, s: Square)
    requires Sides(b) && Kings(b) && s in CheckingPawns(b)
    ensures s !in CheckingKnights(b)
  {
    assert s in Masked(b.pawns);
  }

  // ---------- in check ----------

  ghost predicate AnsweredChecks(b: Board, m: Move) {
    && (forall d | LineOf(b, d).Checked? :: m.to in CheckedOn(b, d))
    && CheckingPawns(b) <= {m.to} && CheckingKnights(b) <= {m.to}
  }

  /** A move cannot answer two checks. */
  lemma OneCheckAnswered(b: Board, m: Move)
    requires Sides(b) && Kings(b) && AnsweredChecks(b, m)
    ensures CountedChecks(b) <= 1
  {
    forall d, e | LineOf(b, d).Checked? && LineOf(b, e).Checked?
      ensures d == e
    {
      SquareOfCheck(b, d, m.to);
      SquareOfCheck(b, e, m.to);
      LinesApart(b.ourKing, d, e, m.to);
    }
    OneLineAtMost(b);
    if CheckingPawns(b) != {} || CheckingKnights(b) != {} {
      assert m.to in CheckingPawns(b) || m.to in CheckingKnights(b);
      forall d
        ensures !LineOf(b, d).Checked?
      {
        SteppersAreNoSliders(b, m.to, d);
        if LineOf(b, d).Checked? { SquareOfCheck(b, d, m.to); }
      }
      if CheckingPawns(b) != {} { PawnIsNoKnight(b, m.to); }
    }
  }

  /** A pinned man cannot answer a check. */
  lemma PinnedCannotAnswer(b: Board, m: Move)
    requires Sides(b) && Kings(b) && AnswersAll(b, m) && AttackInfo(b).attackLines != {}
    ensures m.from !in PinnedMen(b)
  {
    PinnedSomewhere(b, m.from);
    if m.from in PinnedMen(b) {
      var d :| m.from in PinnedOn(b, d);
      assert Answers(b, m, d);
      SquareOfPin(b, d, m.to);
      if CheckingPawns(b) != {} || CheckingKnights(b) != {} {
        assert m.to in CheckingPawns(b) || m.to in CheckingKnights(b);
        SteppersAreNoSliders(b, m.to, d);
      } else {
        var s :| s in CheckLines(b);
        CheckedSomewhere(b, s);
        var e :| s in CheckedOn(b, e);
        assert Answers(b, m, e);
        SquareOfCheck(b, e, m.to);
        LinesApart(b.ourKing, d, e, m.to);
      }
    }
  }

  lemma AnswerIsOnLine(b: Board, m: Move)
    requires Sides(b) && AnswersAll(b, m) && AttackInfo(b).attackLines != {}
    ensures m.to in AttackInfo(b).attackLines
  {
    if CheckingPawns(b) == {} && CheckingKnights(b) == {} {
      var s :| s in CheckLines(b);
      CheckedSomewhere(b, s);
      var e :| s in CheckedOn(b, e);
      assert Answers(b, m, e);
      CheckedSomewhere(b, m.to);
    }
  }

  lemma OnlyMember(squares: set<Square>, s: Square)
    requires |squares| <= 1 && s in squares
    ensures squares <= {s}
  {
    if t :| t in squares && t != s { assert {s, t} <= squares; NoLarger({s, t}, squares); }
  }

  lemma PinAnswered(b: Board, m: Move, d: Dir)
    requires m.from !in PinnedMen(b)
    ensures LineOf(b, d).Pinned? ==> m.from != At(b.ourKing, d, LineOf(b, d).man)
  {
    PinnedSomewhere(b, m.from);
    if LineOf(b, d).Pinned? { assert At(b.ourKing, d, LineOf(b, d).man) in PinnedOn(b, d); }
  }

  lemma LineCheckAnswered(b: Board, m: Move, c: Dir, d: Dir)
    requires CountedChecks(b) <= 1 && m.to in CheckedOn(b, c) && m.from !in PinnedMen(b)
    ensures Answers(b, m, d)
  {
    PinAnswered(b, m, d);
    if LineOf(b, d).Checked? && d != c { TwoLines(b, d, c); }
  }

  lemma StepCheckAnswered(b: Board, m: Move, d: Dir)
    requires CountedChecks(b) <= 1 && m.from !in PinnedMen(b)
    requires m.to in CheckingPawns(b) || m.to in CheckingKnights(b)
    ensures Answers(b, m, d)
  {
    PinAnswered(b, m, d);
    if LineOf(b, d).Checked? { SomeLine(b, d); }
  }

  lemma StepChecksLeft(b: Board, m: Move)
    requires ChecksLimited(b) && CountedChecks(b) <= 1 && m.to in AttackInfo(b).attackLines
    ensures CheckingPawns(b) <= {m.to} && CheckingKnights(b) <= {m.to}
  {
    CheckedSomewhere(b, m.to);
    if c :| m.to in CheckedOn(b, c) {
      SomeLine(b, c);
    } else {
      if m.to in CheckingPawns(b) { OnlyMember(CheckingPawns(b), m.to); }
      if m.to in CheckingKnights(b) { OnlyMember(CheckingKnights(b), m.to); }
    }
  }

  /** With a single check, a move onto the line of attack answers it. */
  lemma OnLineAnswers(b: Board, m: Move)
    requires ChecksLimited(b) && CountedChecks(b) <= 1
    requires m.to in AttackInfo(b).attackLines && m.from !in PinnedMen(b)
    ensures AnswersAll(b, m)
  {
    CheckedSomewhere(b, m.to);
    StepChecksLeft(b, m);
    forall d
      ensures Answers(b, m, d)
    {
      if c :| m.to in CheckedOn(b, c) {
        LineCheckAnswered(b, m, c, d);
      } else {
        StepCheckAnswered(b, m, d);
      }
    }
  }

  lemma ManMoveInCheck(b: Board, m: Move)
    requires Plain(b, m) && ManMove(b, m) && !KingStep(b.ourKing, b.theirKing) && ChecksLimited(b)
    requires AttackInfo(b).attackLines != {}
    ensures IsLegal(b, m, AttackInfo(b)) <==> !IsUnderCheck(Applied(b, m))
  {
    SafeIfAnswered(b, m);
    if AnswersAll(b, m) {
      AnsweredAll(b, m);
      OneCheckAnswered(b, m);
      PinnedCannotAnswer(b, m);
      AnswerIsOnLine(b, m);
    }
    if IsLegal(b, m, AttackInfo(b)) { OnLineAnswers(b, m); }
  }

  lemma AnsweredAll(b: Board, m: Move)
    requires AnswersAll(b, m)
    ensures AnsweredChecks(b, m)
  {
    forall d | LineOf(b, d).Checked?
      ensures m.to in CheckedOn(b, d)
    {
      assert Answers(b, m, d);
    }
  }

  // ---------- not in check ----------

  /** The man at distance i from the king goes to a square it reaches along a line. */
  ghost predicate Glides(b: Board, m: Move) {
    exists e :: Reaches(Occupied(b), m.from, e, m.to)
  }

  lemma MovesGlideOrJump(b: Board, m: Move)
    requires Consistent(b) && PseudoLegal(b, m) && ManMove(b, m)
    ensures Glides(b, m) || KnightStep(m.from, m.to)
  {
    ListedMove(b, m);
    if RookMove(b, m) {
      RookAttacksAre(m.from, Occupied(b), m.to);
    } else if BishopMove(b, m) {
      BishopAttacksAre(m.from, Occupied(b), m.to);
    } else if PawnMove(b, m) {
      PawnsGlide(b, m);
    }
  }

  lemma PawnsGlide(b: Board, m: Move)
    requires PawnMove(b, m) && !m.special.EnPassant?
    ensures Glides(b, m)
  {
    var occ := Occupied(b);
    if PawnStep(b, m) {
      assert m.to == At(m.from, North, 1) && Clear(occ, m.from, North, 1, 1);
      assert Reaches(occ, m.from, North, m.to);
    } else if PawnJump(b, m) {
      assert m.to == At(m.from, North, 2) && At(m.from, North, 1) == Square(m.from.file, 2);
      assert Clear(occ, m.from, North, 2, 2);
      assert Clear(occ, m.from, North, 1, 2);
      assert Reaches(occ, m.from, North, m.to);
    } else {
      var d := if m.to.file > m.from.file then NorthEast else NorthWest;
      assert m.to == At(m.from, d, 1) && Clear(occ, m.from, d, 1, 1);
      assert Reaches(occ, m.from, d, m.to);
    }
  }

  /** A square collinear with the king and the man is on the man's line, on one side or the other. */
  lemma CollinearIsOnLine(king: Square, d: Dir, i: nat, to: Square) returns (j: int)
    requires 1 <= i <= 7 && Collinear(king, At(king, d, i), to)
    ensures to == At(king, d, j)
  {
    var ex, ey := to.file - king.file, to.rank - king.rank;
    j := if Files(d) != 0 then Files(d) * ex else Ranks(d) * ey;
    CrossProduct(Files(d), Ranks(d), ex, ey, i);
  }

  lemma CrossProduct(fx: int, fy: int, ex: int, ey: int, i: int)
    requires i >= 1 && -1 <= fx <= 1 && -1 <= fy <= 1
    ensures Times(fx, i) * ey == ex * Times(fy, i) ==> fx * ey == ex * fy
  {
    assert Times(fx, i) == fx * i && Times(fy, i) == fy * i;
    if Times(fx, i) * ey == ex * Times(fy, i) {
      assert (fx * ey - ex * fy) * i == 0;
    }
  }

  lemma OnLineIsCollinear(king: Square, d: Dir, i: nat, j: nat)
    requires 1 <= i && 1 <= j
    ensures Collinear(king, At(king, d, i), At(king, d, j))
  {
  }

  /** A pinned man stays on its line through the king only by staying between king and slider, or by
      taking the slider. */
  lemma PinnedStaysOnLine(b: Board, m: Move, d: Dir)
    requires Consistent(b) && PseudoLegal(b, m) && ManMove(b, m)
    requires LineOf(b, d).Pinned? && m.from == At(b.ourKing, d, LineOf(b, d).man)
    ensures Collinear(b.ourKing, m.from, m.to) <==> m.to in Segment(b.ourKing, d, LineOf(b, d).far)
  {
    var king, i, n := b.ourKing, LineOf(b, d).man, LineOf(b, d).far;
    PinnedLine(b, d);
    OnBoardBetween(king, d, i, n);
    if m.to in Segment(king, d, n) {
      var j := FindInSegment(king, d, n, m.to);
      OnLineIsCollinear(king, d, i, j);
    }
    if Collinear(king, m.from, m.to) {
      var j := CollinearIsOnLine(king, d, i, m.to);
      ListedMove(b, m);
      MovesGlideOrJump(b, m);
      LineIsNoKnightStep(king, d, i, j);
      StaysInFront(b, m, d, j);
      InSegment(king, d, n, j);
    }
  }

  lemma LineIsNoKnightStep(s: Square, d: Dir, i: int, j: int)
    ensures !KnightStep(At(s, d, i), At(s, d, j))
  {
  }

  lemma StaysInFront(b: Board, m: Move, d: Dir, j: int)
    requires Sides(b) && Kings(b) && m.to !in b.ours && m.from != m.to && Glides(b, m)
    requires LineOf(b, d).Pinned? && m.from == At(b.ourKing, d, LineOf(b, d).man) && m.to == At(b.ourKing, d, j)
    ensures 1 <= j <= LineOf(b, d).far
  {
    var e :| Reaches(Occupied(b), m.from, e, m.to);
    PinnedLine(b, d);
    assert At(b.ourKing, d, 0) == b.ourKing;
    if j > LineOf(b, d).man {
      GlideOut(Occupied(b), b.ourKing, d, LineOf(b, d).man, LineOf(b, d).far, e, j);
    } else {
      GlideIn(Occupied(b), b.ourKing, d, LineOf(b, d).man, e, j);
    }
  }

  /** Away from the king nothing goes past the slider. */
  lemma GlideOut(occ: set<Square>, king: Square, d: Dir, i: nat, n: nat, e: Dir, j: int)
    requires i < n && i < j && At(king, d, n) in occ && Reaches(occ, At(king, d, i), e, At(king, d, j))
    ensures j <= n
  {
    var from := At(king, d, i);
    var k: nat :| 1 <= k && At(king, d, j) == At(from, e, k) && Clear(occ, from, e, 1, k);
    TwoWays(king, d, i, j - i);
    OneLine(from, e, k, d, j - i);
    if n < j {
      ClearAt(occ, from, e, 1, k, n - i);
      TwoWays(king, d, i, n - i);
    }
  }

  /** Towards the king nothing goes past the king. */
  lemma GlideIn(occ: set<Square>, king: Square, d: Dir, i: nat, e: Dir, j: int)
    requires 1 <= i && j < i && king in occ && Reaches(occ, At(king, d, i), e, At(king, d, j))
    ensures 0 <= j
  {
    var from := At(king, d, i);
    var k: nat :| 1 <= k && At(king, d, j) == At(from, e, k) && Clear(occ, from, e, 1, k);
    TwoWays(king, d, i, i - j);
    OneLine(from, e, k, Opposite(d), i - j);
    if j < 0 {
      ClearAt(occ, from, e, 1, k, i);
      TwoWays(king, d, i, i);
    }
  }

  lemma CheckedLineSeen(b: Board, d: Dir)
    requires LineOf(b, d).Checked?
    ensures CheckLines(b) != {}
  {
    FirstFound(Occupied(b), b.ourKing, d, 1);
    InSegment(b.ourKing, d, LineOf(b, d).far, 1);
    CheckedSomewhere(b, At(b.ourKing, d, 1));
  }

  lemma NoCheckFound(b: Board)
    requires AttackInfo(b).attackLines == {}
    ensures (forall d :: !LineOf(b, d).Checked?) && CheckingPawns(b) == {} && CheckingKnights(b) == {}
  {
    var lines, pawns, knights := CheckLines(b), CheckingPawns(b), CheckingKnights(b);
    assert lines + pawns + knights == {};
    assert lines == {} && pawns == {} && knights == {};
    forall d
      ensures !LineOf(b, d).Checked?
    {
      if LineOf(b, d).Checked? { CheckedLineSeen(b, d); }
    }
  }

  lemma ManMoveNotInCheck(b: Board, m: Move)
    requires Consistent(b) && PseudoLegal(b, m) && Plain(b, m) && ManMove(b, m) && !KingStep(b.ourKing, b.theirKing)
    requires AttackInfo(b).attackLines == {}
    ensures IsLegal(b, m, AttackInfo(b)) <==> !IsUnderCheck(Applied(b, m))
  {
    SafeIfAnswered(b, m);
    NoCheckFound(b);
    PinnedSomewhere(b, m.from);
    if d :| m.from in PinnedOn(b, d) {
      PinnedStaysOnLine(b, m, d);
      forall e | e != d
        ensures Answers(b, m, e)
      {
        OtherPin(b, m, d, e);
      }
      assert Answers(b, m, d) <==> m.to in Segment(b.ourKing, d, LineOf(b, d).far);
    } else {
      forall e
        ensures Answers(b, m, e)
      {
        PinAnswered(b, m, e);
      }
    }
  }

  /** A man is pinned on one line only. */
  lemma OtherPin(b: Board, m: Move, d: Dir, e: Dir)
    requires Sides(b) && d != e && m.from in PinnedOn(b, d) && !LineOf(b, e).Checked?
    ensures Answers(b, m, e)
  {
    if LineOf(b, e).Pinned? {
      PinnedLine(b, d);
      PinnedLine(b, e);
      if m.from == At(b.ourKing, e, LineOf(b, e).man) {
        OneLine(b.ourKing, d, LineOf(b, d).man, e, LineOf(b, e).man);
      }
    }
  }

  // ---------- king moves ----------

  /** A slider that would see the king on its new square was seen there before, or checked the king. */
  lemma SliderSeenBefore(b: Board, m: Move, d: Dir)
    requires Plain(b, m) && m.from == b.ourKing && !m.special.EnPassant? && SliderChecks(Applied(b, m), d)
    requires forall e :: !SliderChecks(b, e)
    ensures var i := First(Occupied(b), m.to, d, 1); i > 0 && EnemySlider(b, d, At(m.to, d, i))
  {
    var a, king := Applied(b, m), b.ourKing;
    var k := First(Occupied(a), m.to, d, 1);
    FirstFound(Occupied(a), m.to, d, 1);
    forall i | 1 <= i < k && At(m.to, d, i) != king
      ensures At(m.to, d, i) !in Occupied(b)
    {
      ClearAt(Occupied(a), m.to, d, 1, k, i);
    }
    if i: nat :| 1 <= i < k && At(m.to, d, i) == king {
      SliderBehindKing(b, m, d, i, k);
    } else {
      ClearFrom(Occupied(b), m.to, d, 1, k);
      FirstIs(Occupied(b), m.to, d, 1, k);
    }
  }

  lemma SliderBehindKing(b: Board, m: Move, d: Dir, i: nat, k: nat)
    requires Sides(b) && Kings(b) && 1 <= i < k && At(m.to, d, i) == b.ourKing && OnBoard(At(m.to, d, k))
    requires EnemySlider(b, d, At(m.to, d, k))
    requires forall j | 1 <= j < k && At(m.to, d, j) != b.ourKing :: At(m.to, d, j) !in Occupied(b)
    ensures SliderChecks(b, d)
  {
    var king := b.ourKing;
    TwoWays(m.to, d, i, k - i);
    ClearBehind(Occupied(b), m.to, d, i, k);
    FirstIs(Occupied(b), king, d, 1, k - i);
  }

  lemma ClearBehind(occ: set<Square>, s: Square, d: Dir, i: nat, k: nat)
    requires 1 <= i < k
    requires forall j | 1 <= j < k && At(s, d, j) != At(s, d, i) :: At(s, d, j) !in occ
    ensures Clear(occ, At(s, d, i), d, 1, k - i)
  {
    forall j | 1 <= j < k - i
      ensures At(At(s, d, i), d, j) !in occ
    {
      TwoWays(s, d, i, j);
      OnlyOnce(s, d, i, i + j);
    }
    ClearFrom(occ, At(s, d, i), d, 1, k - i);
  }

  lemma SliderAttacks(b: Board, s: Square, d: Dir)
    requires Sides(b) && OnBoard(s)
    requires var i := First(Occupied(b), s, d, 1); i > 0 && EnemySlider(b, d, At(s, d, i))
    ensures IsUnderAttack(b, s)
  {
    var occ := Occupied(b);
    var i := First(occ, s, d, 1);
    FirstFound(occ, s, d, 1);
    var t := At(s, d, i);
    assert Reaches(occ, s, d, t);
    if Straight(d) {
      RookAttacksAre(s, occ, t);
      assert t in RookAttacks(s, occ) * b.theirs * b.rooks;
    } else {
      BishopAttacksAre(s, occ, t);
      assert t in BishopAttacks(s, occ) * b.theirs * b.bishops;
    }
  }

  lemma SteppersSeenBefore(b: Board, m: Move)
    requires Plain(b, m) && m.from == b.ourKing && !m.special.EnPassant? && !IsUnderAttack(b, m.to)
    ensures CheckingPawns(Applied(b, m)) == {} && CheckingKnights(Applied(b, m)) == {}
    ensures !KingStep(m.to, b.theirKing)
  {
    var a := Applied(b, m);
    assert CheckingPawns(a) <= PawnAttackers(m.to) * b.theirs * b.pawns;
    assert CheckingKnights(a) <= KnightAttacks(m.to) * TheirKnights(b);
  }

  /** Out of check, a king steps safely to a square not attacked while it still stood on its own. */
  lemma KingStepSafe(b: Board, m: Move)
    requires Plain(b, m) && !KingStep(b.ourKing, b.theirKing) && !IsUnderCheck(b)
    requires m.from == b.ourKing && !m.special.EnPassant? && !IsUnderAttack(b, m.to)
    ensures !IsUnderCheck(Applied(b, m))
  {
    var a := Applied(b, m);
    PlainKeepsSides(b, m);
    SteppersSeenBefore(b, m);
    CheckBySomething(b);
    CheckBySomething(a);
    forall d
      ensures !SliderChecks(a, d)
    {
      if SliderChecks(a, d) {
        SliderSeenBefore(b, m, d);
        SliderAttacks(b, m.to, d);
      }
    }
  }

  // ---------- the theorem ----------

  lemma InCheckShows(b: Board)
    requires Sides(b) && Kings(b) && !KingStep(b.ourKing, b.theirKing) && AttackInfo(b).attackLines == {}
    ensures !IsUnderCheck(b)
  {
    NoCheckFound(b);
    CheckBySomething(b);
    forall d
      ensures !SliderChecks(b, d)
    {
      LineChecksAre(b, d);
    }
  }

  /** The filter passes a listed move exactly when applying it leaves our king out of check. */
  lemma FilterIsExact(b: Board, m: Move)
    requires Playable(b) && ChecksLimited(b) && PseudoLegal(b, m)
    ensures IsLegal(b, m, AttackInfo(b)) <==> !IsUnderCheck(Applied(b, m))
  {
    TheirKingIsSpared(b, m);
    if !m.special.EnPassant? && !m.special.Castle? {
      ListedIsPlain(b, m);
      if m.from != b.ourKing {
        if AttackInfo(b).attackLines != {} { ManMoveInCheck(b, m); } else { ManMoveNotInCheck(b, m); }
      } else if AttackInfo(b).attackLines == {} {
        InCheckShows(b);
        KingStepSafe(b, m);
      }
    } else {
      ListedMove(b, m);
    }
  }

  lemma OurKingIs(b: Board, s: Square)
    requires Sides(b) && Kings(b)
    ensures s in Pieces(b) && Pieces(b)[s] == Piece(true, King) <==> s == b.ourKing
  {
  }

  /** In the rules' terms: the filter passes a listed move exactly when, with the move made, no man
      of theirs attacks our king. */
  lemma LegalIffKingSafe(b: Board, m: Move)
    requires Playable(b) && ChecksLimited(b) && PseudoLegal(b, m)
    ensures IsLegal(b, m, AttackInfo(b)) <==> KingSafe(MakeMove(Pieces(b), m))
  {
    FilterIsExact(b, m);
    SafeAfter(b, m);
  }

  lemma SafeAfter(b: Board, m: Move)
    requires Playable(b) && PseudoLegal(b, m)
    ensures KingSafe(MakeMove(Pieces(b), m)) <==> !IsUnderCheck(Applied(b, m))
  {
    TheirKingIsSpared(b, m);
    AppliedMakesMove(b, m);
    PlyKeepsConsistent(b, m);
    var a := Applied(b, m);
    UnderAttackIsAttacked(a, a.ourKing);
    OurKingIs(a, a.ourKing);
    forall s | s in Pieces(a) && Pieces(a)[s] == Piece(true, King)
      ensures s == a.ourKing
    {
      OurKingIs(a, s);
    }
  }
}
