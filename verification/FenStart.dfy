/** The text of the starting position, and the names of squares. */
module FenStart {
  import opened Wrappers
  import opened Squares
  import opened ChessRules
  import opened Boards
  import opened Plies
  import opened LawfulMoves
  import opened StartingBoard
  import opened FenText
  import opened FenParser
  import opened FenBoard
  import opened FenRoundTrip

  // ---------- names of squares ----------

  function SquareName(s: Square): string
    requires OnBoard(s)
  {
    ["abcdefgh"[s.file], "12345678"[s.rank]]
  }

  lemma FileNames(file: int)
    requires 0 <= file < 8
    ensures FileLetter(file, false) == "abcdefgh"[file] && FileLetter(file, true) == "ABCDEFGH"[file]
  {
  }

  lemma MarkerNamed(b: Board, t: Square)
    requires Consistent(b) && t in MarkersOf(b)
    ensures var s := PassedBy(t);
            OnBoard(s) && PassingText(WhitesView(b), b.flipped) == SquareName(if b.flipped then FlipRank(s) else s)
  {
    assert TheirMarker(b, t);
    MarkerText(b);
    FileNames(t.file);
  }

  lemma NoMarkers(b: Board)
    requires PassedSquares(b) == {}
    ensures MarkersOf(b) == {}
  {
    assert forall t | t in MarkersOf(b) :: PassedBy(t) in PassedSquares(b);
  }

  /** The en passant field names the square passed, as White sees it, or is a dash. */
  lemma PassingIsNamed(b: Board)
    requires Consistent(b)
    ensures PassedSquares(b) == {} ==> PassingText(WhitesView(b), b.flipped) == "-"
    ensures forall s | s in PassedSquares(b) ::
              OnBoard(s) && PassingText(WhitesView(b), b.flipped) == SquareName(if b.flipped then FlipRank(s) else s)
  {
    if PassedSquares(b) == {} {
      NoMarkers(b);
      MarkerText(b);
    }
    forall s | s in PassedSquares(b)
      ensures OnBoard(s) && PassingText(WhitesView(b), b.flipped) == SquareName(if b.flipped then FlipRank(s) else s)
    {
      var t :| t in MarkersOf(b) && s == PassedBy(t);
      MarkerNamed(b, t);
    }
  }

  // ---------- the starting position ----------

  function StartLetter(s: Square): Option<char>
    requires OnBoard(s)
  {
    if s.rank == 0 then Some("RNBQKBNR"[s.file])
    else if s.rank == 1 then Some('P')
    else if s.rank == 6 then Some('p')
    else if s.rank == 7 then Some("rnbqkbnr"[s.file])
    else None
  }

  lemma StartLetters(s: Square)
    requires OnBoard(s)
    ensures LetterAt(StartBoard(), s) == StartLetter(s)
  {
    StartSides();
  }

  /** What the text of the starting position shows. */
  ghost predicate ShowsStart(b: Board) {
    && (forall f, r | 0 <= f < 8 && 0 <= r < 8 :: LetterAt(b, Square(f, r)) == StartLetter(Square(f, r)))
    && UsualRooks(b.castlings) && b.castlings.we00 && b.castlings.we000 && b.castlings.they00 && b.castlings.they000
    && MarkersOf(b) == {}
  }

  lemma StartShows()
    ensures ShowsStart(StartBoard())
  {
    forall f, r | 0 <= f < 8 && 0 <= r < 8
      ensures LetterAt(StartBoard(), Square(f, r)) == StartLetter(Square(f, r))
    {
      StartLetters(Square(f, r));
    }
    StartSides();
  }

  lemma {:induction false} FullRank(b: Board, rank: int, file: nat, letters: string)
    requires file <= 8 && |letters| == 8
    requires forall f | file <= f < 8 :: LetterAt(b, Square(f, rank)) == Some(letters[f])
    ensures RankText(b, rank, file, 0) == letters[file..]
    decreases 8 - file
  {
    if file < 8 {
      FullRank(b, rank, file + 1, letters);
      assert letters[file..] == [letters[file]] + letters[file + 1..];
    }
  }

  lemma {:induction false} EmptyRank(b: Board, rank: int, file: nat)
    requires file <= 8 && forall f | file <= f < 8 :: LetterAt(b, Square(f, rank)) == None
    ensures RankText(b, rank, file, file) == "8"
    decreases 8 - file
  {
    if file < 8 { EmptyRank(b, rank, file + 1); }
  }

  lemma StartRank(b: Board, rank: int)
    requires ShowsStart(b) && 0 <= rank < 8
    ensures RankText(b, rank, 0, 0) ==
            if rank == 0 then "RNBQKBNR" else if rank == 1 then "PPPPPPPP"
            else if rank == 6 then "pppppppp" else if rank == 7 then "rnbqkbnr" else "8"
  {
    if 2 <= rank <= 5 {
      EmptyRank(b, rank, 0);
    } else {
      var letters := if rank == 0 then "RNBQKBNR" else if rank == 1 then "PPPPPPPP"
                     else if rank == 6 then "pppppppp" else "rnbqkbnr";
      FullRank(b, rank, 0, letters);
    }
  }

  /** rnbqkbnr/pppppppp/8/8/8/8/PPPPPPPP/RNBQKBNR */
  function StartRows(): string {
    "rnbqkbnr" + ("/" + ("pppppppp" + ("/" + EmptyRows())))
  }

  function EmptyRows(): string {
    "8" + ("/" + ("8" + ("/" + ("8" + ("/" + ("8" + ("/" + ("PPPPPPPP" + ("/" + "RNBQKBNR")))))))))
  }

  lemma NextRow(b: Board, rank: nat, row: string, below: string)
    requires rank > 0 && RankText(b, rank, 0, 0) == row && BoardText(b, rank - 1) == below
    ensures BoardText(b, rank) == row + ("/" + below)
  {
  }

  lemma LastRow(b: Board, row: string)
    requires RankText(b, 0, 0, 0) == row
    ensures BoardText(b, 0) == row
  {
  }

  lemma LowerRows(b: Board)
    requires ShowsStart(b)
    ensures BoardText(b, 5) == EmptyRows()
  {
    StartRank(b, 0); StartRank(b, 1); StartRank(b, 2); StartRank(b, 3); StartRank(b, 4); StartRank(b, 5);
    LastRow(b, "RNBQKBNR");
    NextRow(b, 1, "PPPPPPPP", BoardText(b, 0));
    NextRow(b, 2, "8", BoardText(b, 1));
    NextRow(b, 3, "8", BoardText(b, 2));
    NextRow(b, 4, "8", BoardText(b, 3));
    NextRow(b, 5, "8", BoardText(b, 4));
  }

  lemma UpperRows(b: Board, below: string)
    requires ShowsStart(b) && BoardText(b, 5) == below
    ensures BoardText(b, 7) == "rnbqkbnr" + ("/" + ("pppppppp" + ("/" + below)))
  {
    StartRank(b, 6);
    StartRank(b, 7);
    NextRow(b, 6, "pppppppp", below);
    NextRow(b, 7, "rnbqkbnr", BoardText(b, 6));
  }

  lemma AllRows(b: Board)
    requires ShowsStart(b)
    ensures BoardText(b, 7) == StartRows()
  {
    LowerRows(b);
    UpperRows(b, EmptyRows());
  }

  /** The fields behind the board, with spaces in between. */
  function Joined(side: string, castling: string, passing: string, count: string, moves: string): string {
    side + (" " + (castling + (" " + (passing + (" " + (count + (" " + moves)))))))
  }

  /** KQkq - 0 1, behind the side to move. */
  function StartFields(side: string): string { Joined(side, "KQkq", "-", "0", "1") }

  lemma AllRights(c: Castlings)
    requires UsualRooks(c) && c.we00 && c.we000 && c.they00 && c.they000
    ensures CastlingText(c) == "KQkq"
  {
    assert RightText(true, true, 'K', 7, true) == "K" && RightText(true, true, 'Q', 0, true) == "Q";
    assert RightText(true, true, 'K', 7, false) == "k" && RightText(true, true, 'Q', 0, false) == "q";
  }

  lemma OneDigit(n: nat)
    requires n < 10
    ensures NumberText(n) == [Digit(n)]
  {
  }

  lemma NothingPassed(b: Board, black: bool)
    requires MarkersOf(b) == {}
    ensures PassingText(b, black) == "-"
  {
    LowestFound({}, 0);
  }

  lemma FirstMove(black: bool)
    ensures NumberText(0) == "0" && NumberText(MoveNumber(if black then 1 else 0, black)) == "1"
  {
    OneDigit(0);
    OneDigit(1);
  }

  lemma TextParts(b: Board, rule50: nat, ply: nat, rows: string, castling: string, passing: string,
                  count: string, moves: string)
    requires HeldFiles(b.castlings) && HeldFiles(WhitesView(b).castlings) && BoardText(WhitesView(b), 7) == rows
    requires CastlingText(WhitesView(b).castlings) == castling && PassingText(WhitesView(b), b.flipped) == passing
    requires NumberText(rule50) == count && NumberText(MoveNumber(ply, b.flipped)) == moves
    ensures FenOf(b, rule50, ply) == rows + (" " + Joined(SideText(b.flipped), castling, passing, count, moves))
  {
  }

  /** The text of a board that White sees as the starting position. */
  lemma StartTextOf(b: Board)
    requires HeldFiles(b.castlings) && ShowsStart(WhitesView(b))
    ensures FenOf(b, 0, if b.flipped then 1 else 0) == StartRows() + (" " + StartFields(if b.flipped then "b" else "w"))
  {
    AllRows(WhitesView(b));
    AllRights(WhitesView(b).castlings);
    NothingPassed(WhitesView(b), b.flipped);
    FirstMove(b.flipped);
    TextParts(b, 0, if b.flipped then 1 else 0, StartRows(), "KQkq", "-", "0", "1");
  }

  function StartFor(black: bool): Board { if black then Mirror(StartBoard()) else StartBoard() }

  lemma TurnedStart()
    ensures Consistent(Mirror(StartBoard())) && Mirror(StartBoard()).flipped
    ensures ShowsStart(WhitesView(Mirror(StartBoard())))
  {
    StartIsConsistent();
    StartMarkers();
    StartSides();
    MirrorHandsOver(StartBoard());
    MirrorTwice(StartBoard());
    StartShows();
  }

  lemma StartSeen(black: bool)
    ensures var b := StartFor(black);
            Consistent(b) && HeldFiles(b.castlings) && ShowsStart(WhitesView(b)) && b.flipped == black
  {
    if black {
      TurnedStart();
    } else {
      StartIsConsistent();
      StartShows();
    }
  }

  /** The texts of the starting position, with White or with Black to move, are the usual ones. */
  lemma StartText(black: bool)
    ensures HeldFiles(StartFor(black).castlings)
    ensures FenOf(StartFor(black), 0, if black then 1 else 0)
         == StartRows() + (" " + StartFields(if black then "b" else "w"))
  {
    StartSeen(black);
    StartTextOf(StartFor(black));
  }

  lemma UsualFiles(b: Board)
    requires ShowsStart(WhitesView(b))
    ensures b.(castlings := HeldOnly(b.castlings)) == b
  {
  }

  lemma StartReadOf(b: Board, t: string)
    requires Consistent(b) && HeldFiles(b.castlings) && ShowsStart(WhitesView(b))
    requires t == FenOf(b, 0, if b.flipped then 1 else 0)
    ensures ParseFen(t) == Ok(Parsed(b, 0, 1))
  {
    var ply := if b.flipped then 1 else 0;
    FirstNumber(b.flipped);
    FenRead(b, 0, ply);
    UsualFiles(b);
    SameParsed(b.(castlings := HeldOnly(b.castlings)), b, MoveNumber(ply, b.flipped));
  }

  lemma FirstNumber(black: bool)
    ensures MoveNumber(if black then 1 else 0, black) == 1
  {
  }

  lemma SameParsed(c: Board, b: Board, n: int)
    requires c == b && n == 1
    ensures Parsed(c, 0, n) == Parsed(b, 0, 1)
  {
  }

  /** Reading them gives the starting position. */
  lemma StartRead(black: bool, t: string)
    requires t == StartRows() + (" " + StartFields(if black then "b" else "w"))
    ensures ParseFen(t) == Ok(Parsed(StartFor(black), 0, 1))
  {
    StartSeen(black);
    StartText(black);
    StartReadOf(StartFor(black), t);
  }
}
