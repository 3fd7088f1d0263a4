/** Which texts are read and which are refused, field by field, told by counting characters and by the
    men on the board. */
module FenAccepts {
  import opened Wrappers
  import opened Squares
  import opened ChessRules
  import opened ChessLaws
  import opened Boards
  import opened Plies
  import opened FenText
  import opened FenParser
  import opened LawfulMoves
  import opened FenRoundTrip
  import opened FenSound

  // ---------- the board ----------

  function Slashes(t: string): nat {
    if t == "" then 0 else Slashes(t[..|t| - 1]) + if t[|t| - 1] == '/' then 1 else 0
  }

  /** The squares that a character takes. */
  function Width(c: char): nat { if '1' <= c <= '8' then c as int - '0' as int else 1 }

  /** The squares taken behind the last slash. */
  function Filled(t: string): nat {
    if t == "" || t[|t| - 1] == '/' then 0 else Filled(t[..|t| - 1]) + Width(t[|t| - 1])
  }

  predicate IsMan(c: char) {
    || c == 'P' || c == 'N' || c == 'B' || c == 'R' || c == 'Q' || c == 'K'
    || c == 'p' || c == 'n' || c == 'b' || c == 'r' || c == 'q' || c == 'k'
  }

  /** A character may follow these: eight ranks of eight squares at most, pawns on inner ranks. */
  predicate MayFollow(before: string, c: char) {
    if c == '/' then Slashes(before) < 7
    else
      && (IsMan(c) || '1' <= c <= '8')
      && Filled(before) + Width(c) <= 8
      && (c == 'P' || c == 'p' ==> 0 < Slashes(before) < 7)
  }

  predicate At(before: string, p: Spot) { p.file == Filled(before) && p.rank == 7 - Slashes(before) >= 0 }

  lemma OnePieceAccepted(before: string, c: char, p: Spot)
    requires At(before, p)
    ensures ReadPiece(c, p).Ok? <==> MayFollow(before, c)
    ensures ReadPiece(c, p).Ok? ==> At(before + [c], ReadPiece(c, p).value)
  {
    assert (before + [c])[..|before|] == before;
  }

  /** From some place on, every character may follow those before it. */
  predicate AllFollow(before: string, t: string)
    decreases |t|
  {
    FieldEnds(t) || (MayFollow(before, t[0]) && AllFollow(before + [t[0]], t[1..]))
  }

  lemma {:induction false} PiecesAccepted(before: string, t: string, p: Spot)
    requires At(before, p)
    ensures ReadPieces(t, p).Ok? <==> AllFollow(before, t)
    decreases |t|
  {
    if !FieldEnds(t) {
      OnePieceAccepted(before, t[0], p);
      if ReadPiece(t[0], p).Ok? { PiecesAccepted(before + [t[0]], t[1..], ReadPiece(t[0], p).value); }
    }
  }

  lemma {:induction false} FollowAt(before: string, t: string, i: nat)
    requires AllFollow(before, t) && i < |Word(t)|
    ensures MayFollow(before + t[..i], t[i])
    decreases |t|
  {
    if i == 0 {
      assert before + t[..0] == before;
    } else {
      FollowAt(before + [t[0]], t[1..], i - 1);
      assert before + [t[0]] + t[1..][..i - 1] == before + t[..i];
    }
  }

  lemma {:induction false} FirstRefused(before: string, t: string) returns (i: nat)
    requires !AllFollow(before, t)
    ensures i < |Word(t)| && !MayFollow(before + t[..i], t[i])
    decreases |t|
  {
    if !MayFollow(before, t[0]) {
      i := 0;
      assert before + t[..0] == before;
    } else {
      var j := FirstRefused(before + [t[0]], t[1..]);
      i := j + 1;
      assert before + [t[0]] + t[1..][..j] == before + t[..i];
    }
  }

  /** The first field is accepted if and only if every character may stand where it stands. */
  lemma BoardAccepted(t: string)
    ensures ReadPieces(t, Spot(EmptyBoard(), 0, 7)).Ok?
       <==> forall i | 0 <= i < |Word(t)| :: MayFollow(t[..i], t[i])
  {
    PiecesAccepted("", t, Spot(EmptyBoard(), 0, 7));
    if AllFollow("", t) {
      forall i | 0 <= i < |Word(t)|
        ensures MayFollow(t[..i], t[i])
      {
        FollowAt("", t, i);
        assert "" + t[..i] == t[..i];
      }
    } else {
      var i := FirstRefused("", t);
      assert "" + t[..i] == t[..i];
    }
  }

  // ---------- castling and en passant ----------

  ghost predicate HasCastlingRook(b: Board, theirs: bool, kingside: bool) {
    exists f :: Outermost(b, theirs, kingside, f)
  }

  /** A letter of the castling field is accepted if and only if it names a file, or the side it speaks
      of has a rook between that corner and its king. */
  lemma RightAccepted(c: char, b: Board)
    requires Sides(b) && Kings(b)
    ensures ReadRight(c, b).Ok? <==>
            || 'a' <= c <= 'h' || 'A' <= c <= 'H'
            || ((c == 'K' || c == 'k') && HasCastlingRook(b, (c == 'K') == b.flipped, true))
            || ((c == 'Q' || c == 'q') && HasCastlingRook(b, (c == 'Q') == b.flipped, false))
  {
    OutermostFound(b, IsUpper(c) == b.flipped, c == 'K' || c == 'k');
  }

  /** The square that the en passant field names, seen by the side to move. */
  function Named(t: string): Square
    requires t != ""
  {
    Square((if IsUpper(t[0]) then t[0] as int - 'A' as int else t[0] as int - 'a' as int), 5)
  }

  /** An en passant square is accepted if and only if something follows it, its file is a letter from a
      to h, it is on the third rank of the side that just moved, nothing stands on it, and a pawn of
      theirs stands in front of it. */
  lemma PassingAccepted(t: string, b: Board)
    requires Sides(b) && Kings(b) && t != "" && t[0] != '-'
    ensures ReadPassing(t, b).Ok? <==>
            && |t| > 2 && ('a' <= t[0] <= 'h' || 'A' <= t[0] <= 'H') && t[1] == (if b.flipped then '3' else '6')
            && Named(t) !in Pieces(b) && Has(Pieces(b), Square(Named(t).file, 4), Piece(false, Pawn))
    ensures ReadPassing(t, b).Ok? ==>
              ReadPassing(t, b).value.rest == t[2..] && PassedSquares(ReadPassing(t, b).value.board)
              == PassedSquares(b) + {Named(t)}
  {
    if ReadPassing(t, b).Ok? {
      var after := ReadPassing(t, b).value.board;
      var marker := Square(Named(t).file, 7);
      assert Masked(after.pawns) == Masked(b.pawns);
      assert MarkersOf(after) == MarkersOf(b) + {marker};
      assert PassedBy(marker) == Named(t);
    }
  }
}
