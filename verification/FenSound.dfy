/** What every text that is read yields, what the letters of the castling field mean on the men, and
    where a text may stop. */
module FenSound {
  import opened Wrappers
  import opened Squares
  import opened ChessRules
  import opened ChessLaws
  import opened Boards
  import opened Plies
  import opened LawfulMoves
  import opened FenText
  import opened FenParser
  import opened FenBoard
  import opened FenRoundTrip

  // ---------- the men of any text ----------

  /** While the first field is read, the men stand on squares already passed, pawns off the outer ranks. */
  ghost predicate Filling(p: Spot) {
    && Sides(p.board) && 0 <= p.file <= 8 && 0 <= p.rank < 8
    && (forall s | s in Occupied(p.board) :: Before(s, p.rank, p.file))
    && (forall s | s in p.board.pawns :: OnPawnRank(s))
    && p.board.castlings == UsualCastlings() && !p.board.flipped && OnBoardKings(p.board)
  }

  /** A king that was not put anywhere is taken to be on the first square. */
  predicate OnBoardKings(b: Board) { OnBoard(b.ourKing) && OnBoard(b.theirKing) }

  lemma PutFills(p: Spot, kind: Kind, theirs: bool)
    requires Filling(p) && p.file < 8 && (kind.Pawn? ==> 0 < p.rank < 7)
    ensures Filling(Spot(PutPiece(p.board, Square(p.file, p.rank), kind, theirs), p.file + 1, p.rank))
  {
    var s := Square(p.file, p.rank);
    assert s !in Occupied(p.board);
    assert forall x | x in p.board.pawns :: x in Masked(p.board.pawns);
  }

  lemma PieceFills(c: char, p: Spot)
    requires Filling(p) && ReadPiece(c, p).Ok?
    ensures Filling(ReadPiece(c, p).value)
  {
    var kind := ParseKind(c);
    if c != '/' && !('1' <= c <= '8') {
      PutFills(p, kind.value, IsLower(c));
    }
  }

  lemma {:induction false} PiecesFill(t: string, p: Spot)
    requires Filling(p) && ReadPieces(t, p).Ok?
    ensures var b := ReadPieces(t, p).value.board;
            && Sides(b) && (forall s | s in b.pawns :: OnPawnRank(s)) && b.castlings == UsualCastlings() && !b.flipped
            && OnBoardKings(b)
    decreases |t|
  {
    if !FieldEnds(t) {
      PieceFills(t[0], p);
      PiecesFill(t[1..], ReadPiece(t[0], p).value);
    }
  }

  // ---------- the other fields of any text ----------

  /** Rights name files of the board on their own side of the king. */
  predicate SidedRights(b: Board) {
    var c := b.castlings;
    && (c.we00 ==> b.ourKing.file < c.ourKingside < 8) && (c.we000 ==> 0 <= c.ourQueenside <= b.ourKing.file)
    && (c.they00 ==> b.theirKing.file < c.theirKingside < 8)
    && (c.they000 ==> 0 <= c.theirQueenside <= b.theirKing.file)
  }

  /** A marker that was read stands for a pawn of theirs with nothing behind it; the square the pawn came
      from is not looked at. */
  predicate MarkerSeen(b: Board, s: Square) {
    && OnBoard(s) && s.rank == 7 && Square(s.file, 5) !in Occupied(b)
    && Square(s.file, 4) in b.theirs && Square(s.file, 4) in b.pawns
  }

  predicate MarkersSeenOnce(b: Board) {
    (forall s | s in MarkersOf(b) :: MarkerSeen(b, s)) && |MarkersOf(b)| <= 1
  }

  /** What can be relied on after any text. */
  ghost predicate Sound(b: Board) { Sides(b) && MarkersSeenOnce(b) && SidedRights(b) && OnBoardKings(b) }

  /** The rook is the first of its side met on the way from the corner to the king. */
  lemma {:induction false} RookIsFirst(b: Board, theirs: bool, kingside: bool, file: int)
    requires if kingside then file <= 7 else file >= 0
    ensures var king, side := if theirs then b.theirKing else b.ourKing, if theirs then b.theirs else b.ours;
            var rank, r := if theirs then 7 else 0, FindRook(b, theirs, kingside, file);
            && (r.Some? ==>
                  && Square(r.value, rank) in b.rooks - b.bishops && Square(r.value, rank) in side
                  && (if kingside then king.file < r.value <= file else file <= r.value < king.file)
                  && forall f | (if kingside then r.value < f <= file else file <= f < r.value) ::
                       !(Square(f, rank) in b.rooks - b.bishops && Square(f, rank) in side))
            && (r.None? ==> forall f | (if kingside then king.file < f <= file else file <= f < king.file) ::
                  !(Square(f, rank) in b.rooks - b.bishops && Square(f, rank) in side))
    decreases if kingside then file - (if theirs then b.theirKing else b.ourKing).file
              else (if theirs then b.theirKing else b.ourKing).file - file
  {
    var king := if theirs then b.theirKing else b.ourKing;
    if if kingside then file > king.file else file < king.file {
      if kingside {
        if file > king.file { RookIsFirst(b, theirs, kingside, file - 1); }
      } else {
        RookIsFirst(b, theirs, kingside, file + 1);
      }
    }
  }

  lemma RightKeepsSound(c: char, b: Board)
    requires Sound(b) && ReadRight(c, b).Ok?
    ensures Sound(ReadRight(c, b).value)
  {
    var theirs := IsUpper(c) == b.flipped;
    if c == 'K' || c == 'Q' || c == 'k' || c == 'q' {
      RookIsFirst(b, theirs, Lower(c) == 'k', if Lower(c) == 'k' then 7 else 0);
    }
  }

  lemma {:induction false} RightsKeepSound(t: string, b: Board)
    requires Sound(b) && ReadRights(t, b).Ok?
    ensures Sound(ReadRights(t, b).value.board)
    decreases |t|
  {
    if !FieldEnds(t) {
      RightKeepsSound(t[0], b);
      RightsKeepSound(t[1..], ReadRight(t[0], b).value);
    }
  }

  lemma {:induction false} RightsKeepPawns(t: string, b: Board)
    requires ReadRights(t, b).Ok?
    ensures ReadRights(t, b).value.board.pawns == b.pawns
    decreases |t|
  {
    if !FieldEnds(t) { RightsKeepPawns(t[1..], ReadRight(t[0], b).value); }
  }

  lemma PassingKeepsSound(t: string, b: Board)
    requires Sound(b) && MarkersOf(b) == {} && t != "" && ReadPassing(t, b).Ok?
    ensures Sound(ReadPassing(t, b).value.board)
  {
    var after := ReadPassing(t, b).value.board;
    if t[0] != '-' {
      var s := Square(FileOf(t[0]).value, 7);
      assert Masked(after.pawns) == Masked(b.pawns);
      assert MarkersOf(after) == {s};
    }
  }

  lemma NoMarkersYet(b: Board)
    requires Sides(b) && (forall s | s in b.pawns :: OnPawnRank(s))
    requires b.castlings == UsualCastlings() && OnBoardKings(b)
    ensures Sound(b) && MarkersOf(b) == {}
  {
    assert MarkersOf(b) == {};
  }

  lemma TurnedIsSound(b: Board)
    requires Sides(b) && (forall s | s in b.pawns :: OnPawnRank(s))
    requires b.castlings == UsualCastlings() && OnBoardKings(b)
    ensures Sound(Mirror(b)) && MarkersOf(Mirror(b)) == {}
  {
    MirrorKeepsSides(b);
    forall s | s in Mirror(b).pawns
      ensures OnPawnRank(s)
    {
      assert FlipRank(s) in b.pawns;
    }
    NoMarkersYet(Mirror(b));
  }

  // ---------- all fields ----------

  lemma Rule50Sound(t: string, b: Board)
    requires ReadRule50(t, b).Ok?
    ensures var p := ReadRule50(t, b).value;
            p.board == b && -INT_LIMIT <= p.rule50 < INT_LIMIT && -INT_LIMIT <= p.moves < INT_LIMIT
  {
  }

  lemma PassingSound(t: string, b: Board)
    requires t != "" && Sound(b) && MarkersOf(b) == {} && ReadField(Passing, t, b).Ok?
    ensures ParsedSound(ReadField(Passing, t, b).value)
  {
    PassingKeepsSound(t, b);
    var r := ReadPassing(t, b).value;
    if SkipSpaces(r.rest) != "" { Rule50Sound(SkipSpaces(r.rest), r.board); }
  }

  lemma CastlingSound(t: string, b: Board)
    requires t != "" && Sound(b) && MarkersOf(b) == {} && ReadField(CastlingRights, t, b).Ok?
    ensures ParsedSound(ReadField(CastlingRights, t, b).value)
  {
    if t[0] != '-' {
      RightsKeepSound(t, b);
      RightsKeepPawns(t, b);
    }
    var r := ReadCastling(t, b).value;
    assert MarkersOf(r.board) == {};
    if SkipSpaces(r.rest) != "" { PassingSound(SkipSpaces(r.rest), r.board); }
  }

  ghost predicate ParsedSound(p: Parsed) {
    Sound(p.board) && -INT_LIMIT <= p.rule50 < INT_LIMIT && -INT_LIMIT <= p.moves < INT_LIMIT
  }

  lemma SideSound(t: string, b: Board)
    requires t != "" && Sides(b) && (forall s | s in b.pawns :: OnPawnRank(s))
    requires b.castlings == UsualCastlings() && OnBoardKings(b) && ReadField(Side, t, b).Ok?
    ensures ParsedSound(ReadField(Side, t, b).value)
  {
    NoMarkersYet(b);
    TurnedIsSound(b);
    var c, rest := if Lower(t[0]) == 'b' then Mirror(b) else b, SkipSpaces(t[1..]);
    if rest != "" { CastlingSound(rest, c); }
  }

  /** Whatever the text, a board that is read has its men on different squares, pawns on inner ranks, at
      most one marker, before a pawn of theirs, rights on the right side of the kings, and counters that fit 32 bits. */
  lemma EveryTextSound(fen: string)
    requires ParseFen(fen).Ok?
    ensures ParsedSound(ParseFen(fen).value)
  {
    var start := Spot(EmptyBoard(), 0, 7);
    PiecesFill(SkipSpaces(fen), start);
    var r := ReadPieces(SkipSpaces(fen), start).value;
    NoMarkersYet(r.board);
    if SkipSpaces(r.rest) != "" { SideSound(SkipSpaces(r.rest), r.board); }
  }

  // ---------- the letters of the castling field ----------

  /** The rook of that side that stands nearest to the corner, between the corner and its king. */
  ghost predicate Outermost(b: Board, theirs: bool, kingside: bool, file: int) {
    var king, rank := if theirs then b.theirKing else b.ourKing, if theirs then 7 else 0;
    && (if kingside then king.file < file <= 7 else 0 <= file < king.file)
    && Has(Pieces(b), Square(file, rank), Piece(!theirs, Rook))
    && forall f | (if kingside then file < f <= 7 else 0 <= f < file) ::
         !Has(Pieces(b), Square(f, rank), Piece(!theirs, Rook))
  }

  lemma RookStands(b: Board, s: Square, theirs: bool)
    requires Sides(b) && Kings(b)
    ensures Has(Pieces(b), s, Piece(!theirs, Rook)) <==>
            s in b.rooks - b.bishops && s in if theirs then b.theirs else b.ours
  {
  }

  /** K, Q, k and q name the outermost rook, and are refused when there is none. */
  lemma OutermostFound(b: Board, theirs: bool, kingside: bool)
    requires Sides(b) && Kings(b)
    ensures var r := FindRook(b, theirs, kingside, Corner(kingside));
            && (r.Some? ==> Outermost(b, theirs, kingside, r.value))
            && (forall f | Outermost(b, theirs, kingside, f) :: r == Some(f))
  {
    FoundIsOutermost(b, theirs, kingside);
    forall f | Outermost(b, theirs, kingside, f)
      ensures FindRook(b, theirs, kingside, Corner(kingside)) == Some(f)
    {
      OneOutermost(b, theirs, kingside, f);
    }
  }

  lemma FoundIsOutermost(b: Board, theirs: bool, kingside: bool)
    requires Sides(b) && Kings(b)
    ensures var r := FindRook(b, theirs, kingside, Corner(kingside));
            r.Some? ==> Outermost(b, theirs, kingside, r.value)
  {
    var rank, r := if theirs then 7 else 0, FindRook(b, theirs, kingside, Corner(kingside));
    RookIsFirst(b, theirs, kingside, Corner(kingside));
    if r.Some? {
      RookStands(b, Square(r.value, rank), theirs);
      forall f | (if kingside then r.value < f <= 7 else 0 <= f < r.value)
        ensures !Has(Pieces(b), Square(f, rank), Piece(!theirs, Rook))
      {
        RookStands(b, Square(f, rank), theirs);
      }
    }
  }

  lemma OneOutermost(b: Board, theirs: bool, kingside: bool, f: int)
    requires Sides(b) && Kings(b) && Outermost(b, theirs, kingside, f)
    ensures FindRook(b, theirs, kingside, Corner(kingside)) == Some(f)
  {
    var rank := if theirs then 7 else 0;
    RookIsFirst(b, theirs, kingside, Corner(kingside));
    RookStands(b, Square(f, rank), theirs);
    var r := FindRook(b, theirs, kingside, Corner(kingside));
    if r.Some? { RookStands(b, Square(r.value, rank), theirs); }
  }

  /** What the four letters do, White to move. */
  lemma WhiteLetters(b: Board, file: int)
    requires Sides(b) && Kings(b) && !b.flipped
    ensures Outermost(b, false, true, file) ==>
              ReadRight('K', b) == Ok(b.(castlings := b.castlings.(we00 := true, ourKingside := file)))
    ensures Outermost(b, false, false, file) ==>
              ReadRight('Q', b) == Ok(b.(castlings := b.castlings.(we000 := true, ourQueenside := file)))
    ensures Outermost(b, true, true, file) ==>
              ReadRight('k', b) == Ok(b.(castlings := b.castlings.(they00 := true, theirKingside := file)))
    ensures Outermost(b, true, false, file) ==>
              ReadRight('q', b) == Ok(b.(castlings := b.castlings.(they000 := true, theirQueenside := file)))
  {
    OutermostFound(b, false, true);
    OutermostFound(b, false, false);
    OutermostFound(b, true, true);
    OutermostFound(b, true, false);
  }

  /** Black to move, capital letters are the other side's. */
  lemma BlackLetters(b: Board, file: int)
    requires Sides(b) && Kings(b) && b.flipped
    ensures Outermost(b, true, true, file) ==>
              ReadRight('K', b) == Ok(b.(castlings := b.castlings.(they00 := true, theirKingside := file)))
    ensures Outermost(b, true, false, file) ==>
              ReadRight('Q', b) == Ok(b.(castlings := b.castlings.(they000 := true, theirQueenside := file)))
    ensures Outermost(b, false, true, file) ==>
              ReadRight('k', b) == Ok(b.(castlings := b.castlings.(we00 := true, ourKingside := file)))
    ensures Outermost(b, false, false, file) ==>
              ReadRight('q', b) == Ok(b.(castlings := b.castlings.(we000 := true, ourQueenside := file)))
  {
    OutermostFound(b, true, true);
    OutermostFound(b, true, false);
    OutermostFound(b, false, true);
    OutermostFound(b, false, false);
  }

  /** No letter is accepted without its rook. */
  lemma MissingRooks(b: Board, theirs: bool, kingside: bool)
    requires Sides(b) && Kings(b) && forall f :: !Outermost(b, theirs, kingside, f)
    ensures var letter := if kingside then 'K' else 'Q';
            ReadRight(if theirs == b.flipped then letter else Lower(letter), b) == Err(MissingRook)
  {
    OutermostFound(b, theirs, kingside);
    CornerLetterRead(kingside, theirs == b.flipped);
  }

  // ---------- texts that stop early ----------

  lemma AtTheEnd()
    ensures AfterField("") == Ok("") && SkipSpaces("") == ""
  {
  }

  lemma WithNothing(t: string)
    ensures t + "" == t
  {
  }

  /** The men alone: White to move, no rights, the counters at their starts. */
  lemma BoardAlone(b: Board)
    requires Sides(b) && Kings(b)
    ensures ParseFen(BoardText(b, 7)) == Ok(Parsed(MenOnly(b), 0, 1))
  {
    WithNothing(BoardText(b, 7));
    BoardStarts(b, "");
    BoardRead(b, "");
    AtTheEnd();
  }

  lemma BoardAndMore(b: Board, t: string)
    requires Sides(b) && Kings(b) && t != "" && t[0] != ' '
    ensures ParseFen(BoardText(b, 7) + (" " + t)) == ReadField(Side, t, MenOnly(b))
  {
    BoardStarts(b, " " + t);
    BoardRead(b, " " + t);
    OneSpace(t);
  }

  /** Men and side to move. */
  lemma StopsAfterSide(b: Board)
    requires Sides(b) && Kings(b)
    ensures ParseFen(BoardText(WhitesView(b), 7) + (" " + SideText(b.flipped))) == Ok(Parsed(Bare(b), 0, 1))
  {
    if b.flipped {
      MirrorKeepsSides(b);
      MirrorKeepsKings(b);
    }
    BoardAndMore(WhitesView(b), SideText(b.flipped));
    SideRead(b);
    AtTheEnd();
  }

  /** Also the castling rights. */
  lemma StopsAfterCastling(b: Board)
    requires Consistent(b)
    ensures HeldFiles(WhitesView(b).castlings)
    ensures ReadField(CastlingRights, CastlingText(WhitesView(b).castlings) + "", Bare(b))
         == Ok(Parsed(BeforePassing(b), 0, 1))
  {
    CastlingRead(b, "");
    AtTheEnd();
  }

  /** After the en passant field a text may only stop if there is no square in it: the square must be
      followed by something. */
  lemma StopsAfterPassing(b: Board)
    requires Markers(b)
    ensures ReadField(Passing, PassingText(WhitesView(b), b.flipped), BeforePassing(b))
         == if MarkersOf(b) == {} then Ok(Parsed(AfterPassing(b), 0, 1)) else Err(PassingSquareExpected)
  {
    MarkerText(b);
    AtTheEnd();
    if MarkersOf(b) == {} {
      NoMarker(b);
      assert "-"[1..] == "";
    } else {
      var s :| s in MarkersOf(b);
      LetterRead(s.file, false);
    }
  }

  /** Without a move number, it is one. */
  lemma StopsAfterRule50(b: Board, rule50: nat)
    requires rule50 < INT_LIMIT
    ensures ReadField(Rule50, NumberText(rule50) + "", b) == Ok(Parsed(b, rule50, 1))
  {
    NumberRead(rule50, "");
    AtTheEnd();
  }

  // ---------- numbers in words ----------

  lemma {:induction false} LeadingDigitsOf(digits: string, rest: string)
    requires (forall i | 0 <= i < |digits| :: IsDigit(digits[i])) && (rest == "" || !IsDigit(rest[0]))
    ensures LeadingDigits(digits + rest) == digits
    decreases |digits|
  {
    if digits == "" {
      assert digits + rest == rest;
    } else {
      assert (digits + rest)[1..] == digits[1..] + rest;
      LeadingDigitsOf(digits[1..], rest);
    }
  }

  /** A number may carry a minus sign, must fit 32 bits, and may be followed by anything but a digit. */
  lemma IntRead(n: nat, rest: string)
    requires rest == "" || !IsDigit(rest[0])
    ensures ParseInt(NumberText(n) + rest) == if n < INT_LIMIT then Some(n) else None
    ensures ParseInt("-" + (NumberText(n) + rest)) == if n <= INT_LIMIT then Some(0 - n) else None
  {
    NumberIsDigits(n);
    LeadingDigitsOf(NumberText(n), rest);
    assert (NumberText(n) + rest)[0] != '-';
    assert ("-" + (NumberText(n) + rest))[1..] == NumberText(n) + rest;
  }

  lemma NoNumber(word: string)
    requires word == "" || !(IsDigit(word[0]) || word[0] == '-')
    ensures ParseInt(word) == None
  {
  }
}
