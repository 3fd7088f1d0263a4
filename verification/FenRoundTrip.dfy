/** Reading back a printed position: which parts of it the text restores. */
module FenRoundTrip {
  import opened Wrappers
  import opened Squares
  import opened ChessRules
  import opened Boards
  import opened Plies
  import opened FenText
  import opened FenParser
  import opened FenBoard

  // ---------- side to move ----------

  function UsualCastlings(): Castlings { EmptyBoard().castlings }

  /** The men and the side to move. */
  function Bare(b: Board): Board { b.(pawns := Masked(b.pawns), castlings := UsualCastlings()) }

  lemma MaskedMirrored(pawns: set<Square>)
    ensures Mirrored(Masked(Mirrored(pawns))) == Masked(pawns)
  {
    forall s
      ensures FlipRank(FlipRank(s)) == s && OnPawnRank(FlipRank(s)) == OnPawnRank(s)
    {
    }
  }

  lemma SideRead(b: Board)
    ensures (if b.flipped then Mirror(MenOnly(WhitesView(b))) else MenOnly(WhitesView(b))) == Bare(b)
  {
    if b.flipped {
      MirrorTwice(b);
      MaskedMirrored(b.pawns);
    }
  }

  // ---------- castling ----------

  function Held(c: Castlings, theirs: bool, kingside: bool): bool {
    if kingside then if theirs then c.they00 else c.we00 else if theirs then c.they000 else c.we000
  }

  function RookFile(c: Castlings, theirs: bool, kingside: bool): int {
    if kingside then if theirs then c.theirKingside else c.ourKingside
    else if theirs then c.theirQueenside else c.ourQueenside
  }

  function Corner(kingside: bool): int { if kingside then 7 else 0 }

  /** One right added, if it is held. */
  function WithHeld(from: Castlings, c: Castlings, theirs: bool, kingside: bool): Castlings {
    if Held(c, theirs, kingside) then WithRight(from, theirs, kingside, RookFile(c, theirs, kingside)) else from
  }

  /** The rights that are held, the files of the others back in the corners. */
  function HeldOnly(c: Castlings): Castlings {
    Castlings(if c.we000 then c.ourQueenside else 0, if c.they000 then c.theirQueenside else 0,
              if c.we00 then c.ourKingside else 7, if c.they00 then c.theirKingside else 7,
              c.we00, c.we000, c.they00, c.they000)
  }

  lemma RightsInOrder(c: Castlings, first: bool)
    ensures var firsts := WithHeld(WithHeld(UsualCastlings(), c, first, true), c, first, false);
            WithHeld(WithHeld(firsts, c, !first, true), c, !first, false) == HeldOnly(c)
  {
  }

  /** The text of one right; white says whose. */
  function OneRight(b: Board, theirs: bool, kingside: bool): string
    requires Rights(b)
  {
    RightText(Held(b.castlings, theirs, kingside), UsualRooks(b.castlings), if kingside then 'K' else 'Q',
              RookFile(b.castlings, theirs, kingside), theirs == b.flipped)
  }

  lemma RookOfRight(b: Board, theirs: bool, kingside: bool)
    requires Rights(b) && Held(b.castlings, theirs, kingside)
    ensures RookFor(b, if theirs then b.theirs else b.ours, if theirs then b.theirKing else b.ourKing,
                    RookFile(b.castlings, theirs, kingside), if theirs then 7 else 0, kingside)
  {
  }

  lemma LetterRead(file: int, white: bool)
    requires 0 <= file < 8
    ensures var c := FileLetter(file, white);
            && FileOf(c) == Some(file) && IsUpper(c) == white && c != ' ' && c != '-'
            && c != 'K' && c != 'Q' && c != 'k' && c != 'q'
  {
  }

  lemma CornerLetterRead(kingside: bool, white: bool)
    ensures var letter := if kingside then 'K' else 'Q';
            var c := if white then letter else Lower(letter);
            && IsUpper(c) == white && (Lower(c) == 'k') == kingside && c != ' ' && c != '-'
            && (c == 'K' || c == 'Q' || c == 'k' || c == 'q')
  {
  }

  /** The board while the castling field is read. */
  function Castling(b: Board, so: Castlings): Board { Bare(b).(castlings := so) }

  lemma {:induction false} RightReads(b: Board, so: Castlings, theirs: bool, kingside: bool)
    requires Rights(b) && Held(b.castlings, theirs, kingside)
    ensures |OneRight(b, theirs, kingside)| == 1
    ensures var c := OneRight(b, theirs, kingside)[0];
            c != ' ' && c != '-'
              && ReadRight(c, Castling(b, so)) == Ok(Castling(b, WithHeld(so, b.castlings, theirs, kingside)))
  {
    RookOfRight(b, theirs, kingside);
    var file := RookFile(b.castlings, theirs, kingside);
    if UsualRooks(b.castlings) {
      CornerLetterRead(kingside, theirs == b.flipped);
      assert file == Corner(kingside);
      assert FindRook(Castling(b, so), theirs, kingside, Corner(kingside)) == Some(file);
    } else {
      LetterRead(file, theirs == b.flipped);
    }
  }

  lemma {:induction false} RightRead(b: Board, so: Castlings, theirs: bool, kingside: bool, rest: string)
    requires Rights(b)
    ensures ReadRights(OneRight(b, theirs, kingside) + rest, Castling(b, so))
         == ReadRights(rest, Castling(b, WithHeld(so, b.castlings, theirs, kingside)))
  {
    if Held(b.castlings, theirs, kingside) {
      RightReads(b, so, theirs, kingside);
      assert (OneRight(b, theirs, kingside) + rest)[1..] == rest;
    } else {
      assert OneRight(b, theirs, kingside) + rest == rest;
    }
  }

  /** The letters of the rights, White's first. */
  function RightLetters(b: Board): string
    requires Rights(b)
  {
    var w := b.flipped;
    OneRight(b, w, true) + OneRight(b, w, false) + OneRight(b, !w, true) + OneRight(b, !w, false)
  }

  lemma CastlingTextIs(b: Board)
    requires Rights(b)
    ensures HeldFiles(WhitesView(b).castlings)
    ensures CastlingText(WhitesView(b).castlings) == if NoRights(b.castlings) then "-" else RightLetters(b)
  {
  }

  lemma LettersRegrouped(a: string, b: string, c: string, d: string, rest: string)
    ensures a + b + c + d + rest == a + (b + (c + (d + rest)))
  {
  }

  lemma {:induction false} RightsRead(b: Board, rest: string)
    requires Rights(b) && FieldEnds(rest)
    ensures ReadRights(RightLetters(b) + rest, Bare(b)) == Ok(Reading(Castling(b, HeldOnly(b.castlings)), rest))
  {
    var w, c := b.flipped, b.castlings;
    var r1, r2, r3, r4 := OneRight(b, w, true), OneRight(b, w, false), OneRight(b, !w, true), OneRight(b, !w, false);
    var c1 := WithHeld(UsualCastlings(), c, w, true);
    var c2 := WithHeld(c1, c, w, false);
    var c3 := WithHeld(c2, c, !w, true);
    LettersRegrouped(r1, r2, r3, r4, rest);
    RightRead(b, UsualCastlings(), w, true, r2 + (r3 + (r4 + rest)));
    RightRead(b, c1, w, false, r3 + (r4 + rest));
    RightRead(b, c2, !w, true, r4 + rest);
    RightRead(b, c3, !w, false, rest);
    RightsInOrder(c, w);
  }

  lemma FirstLetter(b: Board, theirs: bool, kingside: bool)
    requires Rights(b)
    ensures OneRight(b, theirs, kingside) == [] <==> !Held(b.castlings, theirs, kingside)
    ensures Held(b.castlings, theirs, kingside) ==> OneRight(b, theirs, kingside)[0] != '-'
  {
    if Held(b.castlings, theirs, kingside) { RightReads(b, UsualCastlings(), theirs, kingside); }
  }

  lemma LettersStart(b: Board)
    requires Rights(b) && !NoRights(b.castlings)
    ensures RightLetters(b) != "" && RightLetters(b)[0] != '-'
  {
    var w := b.flipped;
    FirstLetter(b, w, true);
    FirstLetter(b, w, false);
    FirstLetter(b, !w, true);
    FirstLetter(b, !w, false);
    FirstOfFour(OneRight(b, w, true), OneRight(b, w, false), OneRight(b, !w, true), OneRight(b, !w, false));
  }

  lemma FirstOfFour(a: string, b: string, c: string, d: string)
    requires a != "" || b != "" || c != "" || d != ""
    requires (a != "" ==> a[0] != '-') && (b != "" ==> b[0] != '-') && (c != "" ==> c[0] != '-')
             && (d != "" ==> d[0] != '-')
    ensures a + b + c + d != "" && (a + b + c + d)[0] != '-'
  {
  }

  /** Reading the castling field gives back the rights that are held, with the files of their rooks. */
  lemma {:induction false} CastlingRead(b: Board, rest: string)
    requires Rights(b) && FieldEnds(rest)
    ensures HeldFiles(WhitesView(b).castlings)
    ensures var t := CastlingText(WhitesView(b).castlings) + rest;
            t != "" && t[0] != ' ' && ReadCastling(t, Bare(b)) == Ok(Reading(Castling(b, HeldOnly(b.castlings)), rest))
  {
    CastlingTextIs(b);
    var t := CastlingText(WhitesView(b).castlings) + rest;
    if NoRights(b.castlings) {
      assert t[1..] == rest;
    } else {
      LettersStart(b);
      RightsRead(b, rest);
      assert t[0] == RightLetters(b)[0];
      LettersNoSpace(b);
    }
  }

  lemma LettersNoSpace(b: Board)
    requires Rights(b) && !NoRights(b.castlings)
    ensures RightLetters(b) != "" && RightLetters(b)[0] != ' '
  {
    LettersStart(b);
    var w := b.flipped;
    if Held(b.castlings, w, true) { RightReads(b, UsualCastlings(), w, true); }
    if Held(b.castlings, w, false) { RightReads(b, UsualCastlings(), w, false); }
    if Held(b.castlings, !w, true) { RightReads(b, UsualCastlings(), !w, true); }
    if Held(b.castlings, !w, false) { RightReads(b, UsualCastlings(), !w, false); }
    FirstLetter(b, w, true); FirstLetter(b, w, false); FirstLetter(b, !w, true); FirstLetter(b, !w, false);
  }

  // ---------- en passant ----------

  lemma {:induction false} LowestFound(squares: set<Square>, i: nat)
    ensures Lowest(squares, i).Some? ==> Lowest(squares, i).value in squares
    ensures Lowest(squares, i).None? ==> forall j: nat | i <= j < 64 :: IndexSquare(j) !in squares
    decreases 64 - i
  {
    if i < 64 && IndexSquare(i) !in squares { LowestFound(squares, i + 1); }
  }

  lemma {:induction false} LowestSome(squares: set<Square>, t: Square)
    requires t in squares && OnBoard(t)
    ensures Lowest(squares, 0).Some?
  {
    LowestFound(squares, 0);
    IndexOf(t);
    var i: nat := Index(t);
    assert IndexSquare(i) in squares;
  }

  /** White's view shows the same markers, maybe on the other edge. */
  lemma MarkersSeen(b: Board, s: Square)
    ensures s in MarkersOf(WhitesView(b)) <==> (if b.flipped then FlipRank(s) else s) in MarkersOf(b)
  {
  }

  /** What the en passant field is read on. */
  function BeforePassing(b: Board): Board { Castling(b, HeldOnly(b.castlings)) }

  function AfterPassing(b: Board): Board { b.(castlings := HeldOnly(b.castlings)) }

  lemma NoMarker(b: Board)
    requires MarkersOf(b) == {}
    ensures BeforePassing(b) == AfterPassing(b)
  {
    forall s | s in b.pawns
      ensures s in Masked(b.pawns)
    {
      assert s !in MarkersOf(b);
    }
    assert Masked(b.pawns) == b.pawns;
  }

  lemma OneMarker(b: Board, s: Square)
    requires Markers(b) && s in MarkersOf(b)
    ensures TheirMarker(b, s) && b.pawns == Masked(b.pawns) + {s}
  {
    AtMostOne(MarkersOf(b));
    forall t | t in b.pawns
      ensures t in Masked(b.pawns) + {s}
    {
      assert t in MarkersOf(b) || t in Masked(b.pawns);
    }
  }

  lemma {:induction false} MarkerRead(b: Board, s: Square, rest: string)
    requires Markers(b) && s in MarkersOf(b) && rest != ""
    ensures OnBoard(s)
    ensures ReadPassing([FileLetter(s.file, false), if b.flipped then '3' else '6'] + rest, BeforePassing(b))
         == Ok(Reading(AfterPassing(b), rest))
  {
    OneMarker(b, s);
    LetterRead(s.file, false);
    var t := [FileLetter(s.file, false), if b.flipped then '3' else '6'] + rest;
    assert t[2..] == rest;
    assert Square(s.file, 7) == s;
    assert Square(s.file, 4) in Masked(b.pawns);
  }

  lemma MarkerText(b: Board)
    requires Markers(b)
    ensures MarkersOf(b) == {} ==> PassingText(WhitesView(b), b.flipped) == "-"
    ensures forall s | s in MarkersOf(b) ::
              OnBoard(s) && PassingText(WhitesView(b), b.flipped)
                == [FileLetter(s.file, false), if b.flipped then '3' else '6']
  {
    var seen := MarkersOf(WhitesView(b));
    LowestFound(seen, 0);
    forall s | s in seen
      ensures (if b.flipped then FlipRank(s) else s) in MarkersOf(b)
    {
      MarkersSeen(b, s);
    }
    forall s | s in MarkersOf(b)
      ensures OnBoard(s) && PassingText(WhitesView(b), b.flipped)
              == [FileLetter(s.file, false), if b.flipped then '3' else '6']
    {
      OneMarker(b, s);
      MarkersSeen(b, if b.flipped then FlipRank(s) else s);
      AtMostOne(MarkersOf(b));
      MarkerSeenFirst(b, s);
    }
  }

  lemma MarkerSeenFirst(b: Board, s: Square)
    requires Markers(b) && s in MarkersOf(b)
    ensures Lowest(MarkersOf(WhitesView(b)), 0) == Some(if b.flipped then FlipRank(s) else s)
  {
    var seen, t := MarkersOf(WhitesView(b)), if b.flipped then FlipRank(s) else s;
    OneMarker(b, s);
    LowestFound(seen, 0);
    MarkersSeen(b, t);
    assert t in seen;
    LowestSome(seen, t);
    MarkersSeen(b, Lowest(seen, 0).value);
    AtMostOne(MarkersOf(b));
  }

  /** Reading the en passant field gives the marker back. */
  lemma {:induction false} PassingRead(b: Board, rest: string)
    requires Markers(b) && rest != ""
    ensures var t := PassingText(WhitesView(b), b.flipped) + rest;
            t[0] != ' ' && ReadPassing(t, BeforePassing(b)) == Ok(Reading(AfterPassing(b), rest))
  {
    MarkerText(b);
    if s :| s in MarkersOf(b) {
      MarkerRead(b, s, rest);
      LetterRead(s.file, false);
    } else {
      NoMarker(b);
      assert ("-" + rest)[1..] == rest;
    }
  }

  // ---------- numbers ----------

  lemma {:induction false} NumberIsDigits(n: nat)
    ensures NumberText(n) != "" && forall i | 0 <= i < |NumberText(n)| :: IsDigit(NumberText(n)[i])
    ensures Value(NumberText(n)) == n
  {
    if n >= 10 { NumberIsDigits(n / 10); }
    var front := if n < 10 then "" else NumberText(n / 10);
    assert NumberText(n)[..|front|] == front;
    assert DigitValue(Digit(n % 10)) == n % 10;
  }

  lemma {:induction false} DigitsLead(t: string)
    requires forall i | 0 <= i < |t| :: IsDigit(t[i])
    ensures LeadingDigits(t) == t
  {
    if t != "" { DigitsLead(t[1..]); }
  }

  lemma {:induction false} WordIs(t: string, rest: string)
    requires FieldEnds(rest) && forall i | 0 <= i < |t| :: t[i] != ' '
    ensures Word(t + rest) == t
  {
    if t != "" {
      WordIs(t[1..], rest);
      assert (t + rest)[1..] == t[1..] + rest;
    } else {
      assert t + rest == rest;
    }
  }

  lemma {:induction false} NumberRead(n: nat, rest: string)
    requires FieldEnds(rest) && n < INT_LIMIT
    ensures var t := NumberText(n) + rest;
            t != "" && t[0] != ' ' && Word(t) == NumberText(n) && ParseInt(Word(t)) == Some(n) && t[|Word(t)|..] == rest
  {
    NumberIsDigits(n);
    DigitsLead(NumberText(n));
    WordIs(NumberText(n), rest);
  }

  // ---------- the whole text ----------

  lemma {:induction false} OneSpace(t: string)
    requires t != "" && t[0] != ' '
    ensures AfterField(" " + t) == Ok(t) && SkipSpaces(t) == t && SkipSpaces(" " + t) == t
  {
    var spaced := " " + t;
    assert spaced != "" && spaced[0] == ' ' && spaced[1..] == t;
    assert SkipSpaces(t) == t;
  }

  lemma {:induction false} NumbersRead(b: Board, rule50: nat, moves: nat)
    requires rule50 < INT_LIMIT && moves < INT_LIMIT
    ensures var t := NumberText(rule50) + (" " + NumberText(moves));
            t != "" && t[0] != ' ' && ReadRule50(t, b) == Ok(Parsed(b, rule50, moves))
  {
    NumberRead(rule50, " " + NumberText(moves));
    NumberRead(moves, "");
    assert NumberText(moves) + "" == NumberText(moves);
    OneSpace(NumberText(moves));
  }

  lemma {:induction false} GoesOn(f: Field, b: Board, t: string)
    requires f != Rule50 && t != "" && t[0] != ' '
    ensures ReadOn(f, Reading(b, " " + t)) ==
            ReadField(match f case Side => CastlingRights case CastlingRights => Passing case Passing => Rule50, t, b)
  {
    OneSpace(t);
  }

  /** The text from the en passant field on. */
  function PassingTail(b: Board, rule50: nat, moves: nat): string {
    PassingText(WhitesView(b), b.flipped) + (" " + (NumberText(rule50) + (" " + NumberText(moves))))
  }

  lemma {:induction false} PassingTailRead(b: Board, rule50: nat, moves: nat)
    requires Markers(b) && rule50 < INT_LIMIT && moves < INT_LIMIT
    ensures var t := PassingTail(b, rule50, moves);
            t != "" && t[0] != ' '
              && ReadField(Passing, t, BeforePassing(b)) == Ok(Parsed(AfterPassing(b), rule50, moves))
  {
    var numbers := NumberText(rule50) + (" " + NumberText(moves));
    PassingRead(b, " " + numbers);
    NumbersRead(AfterPassing(b), rule50, moves);
    GoesOn(Passing, AfterPassing(b), numbers);
  }

  /** The text from the castling field on. */
  function CastlingTail(b: Board, rule50: nat, moves: nat): string
    requires HeldFiles(WhitesView(b).castlings)
  {
    CastlingText(WhitesView(b).castlings) + (" " + PassingTail(b, rule50, moves))
  }

  lemma {:induction false} CastlingTailRead(b: Board, rule50: nat, moves: nat)
    requires Markers(b) && Rights(b) && rule50 < INT_LIMIT && moves < INT_LIMIT
    ensures HeldFiles(WhitesView(b).castlings)
    ensures var t := CastlingTail(b, rule50, moves);
            t != "" && t[0] != ' '
              && ReadField(CastlingRights, t, Bare(b)) == Ok(Parsed(AfterPassing(b), rule50, moves))
  {
    PassingTailRead(b, rule50, moves);
    CastlingRead(b, " " + PassingTail(b, rule50, moves));
    GoesOn(CastlingRights, BeforePassing(b), PassingTail(b, rule50, moves));
  }

  /** The text from the side to move on. */
  function SideTail(b: Board, rule50: nat, moves: nat): string
    requires HeldFiles(WhitesView(b).castlings)
  {
    SideText(b.flipped) + (" " + CastlingTail(b, rule50, moves))
  }

  lemma {:induction false} SideTailRead(b: Board, rule50: nat, moves: nat)
    requires Markers(b) && Rights(b) && rule50 < INT_LIMIT && moves < INT_LIMIT
    ensures HeldFiles(WhitesView(b).castlings)
    ensures var t := SideTail(b, rule50, moves);
            t != "" && t[0] != ' '
            && ReadField(Side, t, MenOnly(WhitesView(b))) == Ok(Parsed(AfterPassing(b), rule50, moves))
  {
    CastlingTailRead(b, rule50, moves);
    assert SideTail(b, rule50, moves)[1..] == " " + CastlingTail(b, rule50, moves);
    SideRead(b);
    GoesOn(Side, Bare(b), CastlingTail(b, rule50, moves));
  }

  lemma {:induction false} RankStarts(b: Board, rank: int, file: nat, empty: nat)
    requires Sides(b) && Kings(b) && empty <= file <= 8 && (file < 8 || empty > 0)
    ensures RankText(b, rank, file, empty) != "" && RankText(b, rank, file, empty)[0] != ' '
    decreases 8 - file
  {
    if file < 8 {
      var s := Square(file, rank);
      if s in Occupied(b) {
        LetterIs(b, s);
        LettersRead(KindAt(b, s), s in b.theirs);
      } else {
        RankStarts(b, rank, file + 1, empty + 1);
      }
    }
  }

  lemma {:induction false} BoardStarts(b: Board, rest: string)
    requires Sides(b) && Kings(b)
    ensures SkipSpaces(BoardText(b, 7) + rest) == BoardText(b, 7) + rest
  {
    RankStarts(b, 7, 0, 0);
    assert BoardText(b, 7)[0] == RankText(b, 7, 0, 0)[0];
  }

  /** Reading a printed board gives everything back but the rook files of rights that were lost. */
  lemma {:induction false} FenRead(b: Board, rule50: nat, ply: nat)
    requires Consistent(b) && rule50 < INT_LIMIT && MoveNumber(ply, b.flipped) < INT_LIMIT
    ensures HeldFiles(b.castlings)
    ensures ParseFen(FenOf(b, rule50, ply))
            == Ok(Parsed(b.(castlings := HeldOnly(b.castlings)), rule50, MoveNumber(ply, b.flipped)))
  {
    var v, tail := WhitesView(b), SideTail(b, rule50, MoveNumber(ply, b.flipped));
    SideTailRead(b, rule50, MoveNumber(ply, b.flipped));
    assert FenOf(b, rule50, ply) == BoardText(v, 7) + (" " + tail);
    if b.flipped {
      MirrorKeepsSides(b);
      MirrorKeepsKings(b);
    }
    BoardStarts(v, " " + tail);
    BoardRead(v, " " + tail);
    OneSpace(tail);
  }

  /** The board comes back unchanged if and only if every right that was lost had its rook in the
      corner. */
  lemma {:induction false} BoardRestoredIff(b: Board, rule50: nat, ply: nat)
    requires Consistent(b) && rule50 < INT_LIMIT && MoveNumber(ply, b.flipped) < INT_LIMIT
    ensures HeldFiles(b.castlings)
    ensures var r, c := ParseFen(FenOf(b, rule50, ply)), b.castlings;
            && r.Ok? && r.value.rule50 == rule50
            && (r.value.board == b <==>
                  && (c.we00 || c.ourKingside == 7) && (c.we000 || c.ourQueenside == 0)
                  && (c.they00 || c.theirKingside == 7) && (c.they000 || c.theirQueenside == 0))
  {
    FenRead(b, rule50, ply);
  }

  lemma MoveNumbers(ply: nat, black: bool)
    ensures MoveNumber(ply, black) == ply <==> if black then ply <= 1 else 1 <= ply <= 2
    ensures 2 * MoveNumber(ply, black) - (if black then 1 else 2) == ply <==> (ply % 2 == 1) == black
  {
  }

  /** Taking the move number as plies restores the number of plies if and only if it is one or two with
      White to move, none or one with Black to move; counting two plies for a move restores it if and
      only if its parity fits the side to move. */
  lemma {:induction false} PliesRestoredIff(b: Board, rule50: nat, ply: nat)
    requires Consistent(b) && rule50 < INT_LIMIT && MoveNumber(ply, b.flipped) < INT_LIMIT
    ensures HeldFiles(b.castlings)
    ensures var r := ParseFen(FenOf(b, rule50, ply));
            && r.Ok?
            && (r.value.moves == ply <==> if b.flipped then ply <= 1 else 1 <= ply <= 2)
            && (2 * r.value.moves - (if b.flipped then 1 else 2) == ply <==> (ply % 2 == 1) == b.flipped)
  {
    FenRead(b, rule50, ply);
    MoveNumbers(ply, b.flipped);
  }
}
