/** Writing a position as text: the six fields of Forsyth-Edwards notation. */
module FenText {
  import opened Wrappers
  import opened Squares
  import opened ChessRules
  import opened Boards
  import opened Plies

  // ---------- letters and numbers ----------

  predicate IsUpper(c: char) { 'A' <= c <= 'Z' }
  predicate IsLower(c: char) { 'a' <= c <= 'z' }

  function Lower(c: char): char { if IsUpper(c) then (c as int + 32) as char else c }

  function KindLetter(kind: Kind): char {
    match kind
    case Knight => 'N' case Queen => 'Q' case Rook => 'R' case Bishop => 'B' case Pawn => 'P' case King => 'K'
  }

  function FileLetter(file: int, upper: bool): char
    requires 0 <= file < 8
  {
    ((if upper then 'A' else 'a') as int + file) as char
  }

  function Digit(n: nat): char
    requires n < 10
  {
    ('0' as int + n) as char
  }

  function NumberText(n: nat): string {
    (if n < 10 then "" else NumberText(n / 10)) + [Digit(n % 10)]
  }

  // ---------- the board ----------

  /** White's view of a board. */
  function WhitesView(b: Board): Board { if b.flipped then Mirror(b) else b }

  /** The letter of the man on a square; markers are no men. */
  function LetterAt(b: Board, s: Square): Option<char> {
    if s in Occupied(b) then
      var letter :=
        if s in Masked(b.pawns) then 'P'
        else if s == b.ourKing || s == b.theirKing then 'K'
        else if s in b.bishops - b.rooks then 'B'
        else if s in b.rooks * b.bishops then 'Q'
        else if s in b.rooks - b.bishops then 'R'
        else 'N';
      Some(if s in b.theirs then Lower(letter) else letter)
    else None
  }

  function EmptyText(empty: nat): string
    requires empty < 10
  {
    if empty > 0 then [Digit(empty)] else ""
  }

  /** The rest of a rank from a file on, after some empty squares. */
  function RankText(b: Board, rank: int, file: nat, empty: nat): string
    requires empty <= file <= 8
    decreases 8 - file, b
  {
    if file == 8 then EmptyText(empty)
    else
      var letter := LetterAt(b, Square(file, rank));
      if letter.None? then RankText(b, rank, file + 1, empty + 1)
      else EmptyText(empty) + [letter.value] + RankText(b, rank, file + 1, 0)
  }

  function BoardText(b: Board, rank: nat): string
    decreases rank, b
  {
    RankText(b, rank, 0, 0) + if rank > 0 then "/" + BoardText(b, rank - 1) else ""
  }

  // ---------- the other fields ----------

  predicate UsualRooks(c: Castlings) {
    c.ourQueenside == 0 && c.ourKingside == 7 && c.theirQueenside == 0 && c.theirKingside == 7
  }

  /** The rights that are held name a file. */
  predicate HeldFiles(c: Castlings) {
    && (c.we00 ==> 0 <= c.ourKingside < 8) && (c.we000 ==> 0 <= c.ourQueenside < 8)
    && (c.they00 ==> 0 <= c.theirKingside < 8) && (c.they000 ==> 0 <= c.theirQueenside < 8)
  }

  predicate NoRights(c: Castlings) { !c.we00 && !c.we000 && !c.they00 && !c.they000 }

  /** The letter of a right, if it is held: K or Q with the rooks in the corners, otherwise the file of
      the rook; a capital letter for White. */
  function RightText(held: bool, usual: bool, corner: char, file: int, white: bool): string
    requires held ==> 0 <= file < 8
  {
    if !held then ""
    else if usual then [if white then corner else Lower(corner)]
    else [FileLetter(file, white)]
  }

  function CastlingText(c: Castlings): string
    requires HeldFiles(c)
  {
    var usual := UsualRooks(c);
    if NoRights(c) then "-"
    else
      RightText(c.we00, usual, 'K', c.ourKingside, true) + RightText(c.we000, usual, 'Q', c.ourQueenside, true)
      + RightText(c.they00, usual, 'K', c.theirKingside, false)
        + RightText(c.they000, usual, 'Q', c.theirQueenside, false)
  }

  /** The member with the lowest number, from i on. */
  function Lowest(squares: set<Square>, i: nat): Option<Square>
    decreases 64 - i, squares
  {
    if i >= 64 then None
    else if IndexSquare(i) in squares then Some(IndexSquare(i))
    else Lowest(squares, i + 1)
  }

  /** The square behind the pawn that can be taken, seen by White. */
  function PassingText(b: Board, black: bool): string {
    var marker := Lowest(MarkersOf(b), 0);
    if marker.None? || !(0 <= marker.value.file < 8) then "-"
    else [FileLetter(marker.value.file, false), if black then '3' else '6']
  }

  function MoveNumber(ply: nat, black: bool): nat { (ply + if black then 1 else 2) / 2 }

  lemma MirrorKeepsFiles(b: Board)
    requires HeldFiles(b.castlings)
    ensures HeldFiles(WhitesView(b).castlings)
  {
  }

  function SideText(black: bool): string { if black then "b" else "w" }

  /** The whole text of a board, its fifty-move count and the number of plies played. */
  function FenOf(b: Board, rule50: nat, ply: nat): string
    requires HeldFiles(b.castlings)
  {
    var v := WhitesView(b);
    BoardText(v, 7)
    + (" " + (SideText(b.flipped)
    + (" " + (CastlingText(v.castlings)
    + (" " + (PassingText(v, b.flipped)
    + (" " + (NumberText(rule50)
    + (" " + NumberText(MoveNumber(ply, b.flipped)))))))))))
  }

  // ---------- the printer ----------

  /** Writes one rank, counting the empty squares in between. */
  method WriteRank(b: Board, rank: int, before: string) returns (result: string)
    ensures result == before + RankText(b, rank, 0, 0)
  {
    result := before;
    var empty := 0;
    for file := 0 to 8
      invariant empty <= file && result + RankText(b, rank, file, empty) == before + RankText(b, rank, 0, 0)
    {
      var piece := LetterAt(b, Square(file, rank));
      if piece.Some? { PieceAppended(result, EmptyText(empty), piece.value, RankText(b, rank, file + 1, 0)); }
      if empty > 0 && piece.Some? {
        result := result + [Digit(empty)];
        empty := 0;
      }
      if piece.Some? {
        result := result + [piece.value];
      } else {
        empty := empty + 1;
      }
    }
    if empty > 0 { result := result + [Digit(empty)]; }
  }

  lemma PieceAppended(before: string, empty: string, c: char, rest: string)
    ensures before + empty + [c] + rest == before + (empty + [c] + rest)
    ensures before + "" == before
  {
  }

  method WriteBoard(b: Board) returns (result: string)
    ensures result == BoardText(b, 7)
  {
    result := "";
    var row := 8;
    while row > 0
      invariant 0 <= row <= 8 && result + RowsText(b, row) == BoardText(b, 7)
    {
      row := row - 1;
      RankAppended(result, RankText(b, row, 0, 0), RowsText(b, row));
      result := WriteRank(b, row, result);
      if row > 0 { result := result + "/"; }
    }
  }

  /** The ranks below the first rows from the top, if there are any. */
  function RowsText(b: Board, row: nat): string { if row > 0 then BoardText(b, row - 1) else "" }

  lemma RankAppended(before: string, rank: string, rest: string)
    ensures before + rank + "/" + rest == before + (rank + ("/" + rest))
    ensures before + rank + "" == before + rank && rank + "" == rank
  {
  }

  /** Writes the six fields. */
  method GetFen(b: Board, rule50: nat, ply: nat) returns (result: string)
    requires HeldFiles(b.castlings)
    ensures result == FenOf(b, rule50, ply)
  {
    MirrorKeepsFiles(b);
    var v := WhitesView(b);
    result := WriteBoard(v);
    Fields(result, SideText(b.flipped), CastlingText(v.castlings), PassingText(v, b.flipped), NumberText(rule50),
           NumberText(MoveNumber(ply, b.flipped)));
    result := result + (" " + SideText(b.flipped));
    result := result + (" " + CastlingText(v.castlings));
    result := result + (" " + PassingText(v, b.flipped));
    result := result + (" " + NumberText(rule50));
    result := result + (" " + NumberText(MoveNumber(ply, b.flipped)));
  }

  /** The fields put one after the other. */
  lemma Fields(board: string, side: string, castling: string, passing: string, rule50: string, moves: string)
    ensures board + (" " + side) + (" " + castling) + (" " + passing) + (" " + rule50) + (" " + moves)
         == board + (" " + (side + (" " + (castling + (" " + (passing + (" " + (rule50 + (" " + moves)))))))))
  {
  }
}
