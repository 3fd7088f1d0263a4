/** Reading a position from text. */
module FenParser {
  import opened Wrappers
  import opened Squares
  import opened ChessRules
  import opened Boards
  import opened Plies
  import opened FenText

  datatype FenError = TooManyRanks | TooManyFiles | InvalidPiece | PieceOutOfBoard | PawnOnBackRank | SpaceExpected
                    | InvalidSide | MissingRook | InvalidCastling | PassingSquareExpected | BadPassingSquare
                    | BadPassingRank | PassingSquareOccupied | NoPawnToTake | BadRule50 | BadMoves | ExtraCharacters

  datatype Result<T> = Ok(value: T) | Err(error: FenError)

  /** What a text yields: a board, the fifty-move count, and the number of moves. */
  datatype Parsed = Parsed(board: Board, rule50: int, moves: int)

  /** A board read so far, and the text still to read. */
  datatype Reading = Reading(board: Board, rest: string)

  function EmptyBoard(): Board {
    Board({}, {}, {}, {}, {}, Square(0, 0), Square(0, 0), Castlings(0, 0, 7, 7, false, false, false, false), false)
  }

  // ---------- spaces ----------

  function SkipSpaces(t: string): (rest: string)
    ensures |rest| <= |t|
  {
    if t != "" && t[0] == ' ' then SkipSpaces(t[1..]) else t
  }

  predicate FieldEnds(t: string) { t == "" || t[0] == ' ' }

  /** The text behind the spaces that end a field. */
  function AfterField(t: string): Result<string> {
    if FieldEnds(t) then Ok(SkipSpaces(t)) else Err(SpaceExpected)
  }

  // ---------- the board ----------

  function ParseKind(c: char): Option<Kind> {
    match Lower(c)
    case 'n' => Some(Knight) case 'q' => Some(Queen) case 'r' => Some(Rook)
    case 'b' => Some(Bishop) case 'p' => Some(Pawn) case 'k' => Some(King)
    case _ => None
  }

  function PutPiece(b: Board, s: Square, kind: Kind, theirs: bool): Board {
    b.(ours := if theirs then b.ours else b.ours + {s},
       theirs := if theirs then b.theirs + {s} else b.theirs,
       ourKing := if kind.King? && !theirs then s else b.ourKing,
       theirKing := if kind.King? && theirs then s else b.theirKing,
       pawns := if kind.Pawn? then b.pawns + {s} else b.pawns,
       rooks := if kind.Rook? || kind.Queen? then b.rooks + {s} else b.rooks,
       bishops := if kind.Bishop? || kind.Queen? then b.bishops + {s} else b.bishops)
  }

  /** What one character of the first field does: where reading goes on, with the man put there. */
  datatype Spot = Spot(board: Board, file: int, rank: int)

  function ReadPiece(c: char, p: Spot): Result<Spot> {
    if c == '/' then
      if p.rank == 0 then Err(TooManyRanks) else Ok(p.(file := 0, rank := p.rank - 1))
    else if '1' <= c <= '8' then
      var file := p.file + (c as int - '0' as int);
      if file > 8 then Err(TooManyFiles) else Ok(p.(file := file))
    else
      var kind := ParseKind(c);
      if kind.None? then Err(InvalidPiece)
      else if !(p.file < 8) then Err(PieceOutOfBoard)
      else if kind.value.Pawn? && (p.rank == 0 || p.rank == 7) then Err(PawnOnBackRank)
      else Ok(Spot(PutPiece(p.board, Square(p.file, p.rank), kind.value, IsLower(c)), p.file + 1, p.rank))
  }

  function ReadPieces(t: string, p: Spot): Result<Reading> {
    if FieldEnds(t) then Ok(Reading(p.board, t))
    else
      var next := ReadPiece(t[0], p);
      if next.Err? then Err(next.error) else ReadPieces(t[1..], next.value)
  }

  // ---------- castling ----------

  /** The outermost rook of that side on its first rank, looking from the corner towards the king. */
  function FindRook(b: Board, theirs: bool, kingside: bool, file: int): Option<int>
    decreases if kingside then file - (if theirs then b.theirKing else b.ourKing).file
              else (if theirs then b.theirKing else b.ourKing).file - file
  {
    var king := if theirs then b.theirKing else b.ourKing;
    var s := Square(file, if theirs then 7 else 0);
    if if kingside then file <= king.file else file >= king.file then None
    else if s in b.rooks - b.bishops && s in (if theirs then b.theirs else b.ours) then Some(file)
    else FindRook(b, theirs, kingside, if kingside then file - 1 else file + 1)
  }

  function WithRight(c: Castlings, theirs: bool, kingside: bool, file: int): Castlings {
    if kingside && theirs then c.(they00 := true, theirKingside := file)
    else if kingside then c.(we00 := true, ourKingside := file)
    else if theirs then c.(they000 := true, theirQueenside := file)
    else c.(we000 := true, ourQueenside := file)
  }

  function FileOf(c: char): Option<int> {
    if 'a' <= Lower(c) <= 'h' then Some(Lower(c) as int - 'a' as int) else None
  }

  /** One letter of the castling field. */
  function ReadRight(c: char, b: Board): Result<Board> {
    var theirs := IsUpper(c) == b.flipped;
    if c == 'K' || c == 'Q' || c == 'k' || c == 'q' then
      var kingside := Lower(c) == 'k';
      var rook := FindRook(b, theirs, kingside, if kingside then 7 else 0);
      if rook.None? then Err(MissingRook)
      else Ok(b.(castlings := WithRight(b.castlings, theirs, kingside, rook.value)))
    else
      var file := FileOf(c);
      if file.None? then Err(InvalidCastling)
      else
        var kingside := file.value > (if theirs then b.theirKing else b.ourKing).file;
        Ok(b.(castlings := WithRight(b.castlings, theirs, kingside, file.value)))
  }

  function ReadRights(t: string, b: Board): Result<Reading> {
    if FieldEnds(t) then Ok(Reading(b, t))
    else
      var next := ReadRight(t[0], b);
      if next.Err? then Err(next.error) else ReadRights(t[1..], next.value)
  }

  function ReadCastling(t: string, b: Board): Result<Reading>
    requires t != ""
  {
    if t[0] == '-' then Ok(Reading(b, t[1..])) else ReadRights(t, b)
  }

  // ---------- en passant ----------

  function ReadPassing(t: string, b: Board): Result<Reading>
    requires t != ""
  {
    if t[0] == '-' then Ok(Reading(b, t[1..]))
    else if |t| <= 2 then Err(PassingSquareExpected)
    else
      var file := FileOf(t[0]);
      if file.None? || !('1' <= t[1] <= '8') then Err(BadPassingSquare)
      else if t[1] != (if b.flipped then '3' else '6') then Err(BadPassingRank)
      else if Square(file.value, 5) in Occupied(b) then Err(PassingSquareOccupied)
      else if Square(file.value, 4) !in b.theirs * Masked(b.pawns) then Err(NoPawnToTake)
      else Ok(Reading(b.(pawns := b.pawns + {Square(file.value, 7)}), t[2..]))
  }

  // ---------- numbers ----------

  /** The text up to the next space. */
  function Word(t: string): (word: string)
    ensures |word| <= |t|
  {
    if FieldEnds(t) then "" else [t[0]] + Word(t[1..])
  }

  predicate IsDigit(c: char) { '0' <= c <= '9' }

  function LeadingDigits(t: string): string {
    if t == "" || !IsDigit(t[0]) then "" else [t[0]] + LeadingDigits(t[1..])
  }

  function DigitValue(c: char): nat { if IsDigit(c) then c as int - '0' as int else 0 }

  function Value(digits: string): nat {
    if digits == "" then 0 else 10 * Value(digits[..|digits| - 1]) + DigitValue(digits[|digits| - 1])
  }

  const INT_LIMIT := 0x8000_0000

  /** A decimal number that fits in 32 bits, whatever follows it in the word. */
  function ParseInt(word: string): Option<int> {
    var negative := word != "" && word[0] == '-';
    var digits := LeadingDigits(if negative then word[1..] else word);
    var n := if negative then 0 - Value(digits) else Value(digits);
    if digits == "" || !(-INT_LIMIT <= n < INT_LIMIT) then None else Some(n)
  }

  // ---------- the fields in turn; the text may stop after any of them ----------

  function ReadMoves(t: string, b: Board, rule50: int): Result<Parsed> {
    var moves := ParseInt(Word(t));
    if moves.None? then Err(BadMoves)
    else if SkipSpaces(t[|Word(t)|..]) != "" then Err(ExtraCharacters)
    else Ok(Parsed(b, rule50, moves.value))
  }

  function ReadRule50(t: string, b: Board): Result<Parsed> {
    var rule50 := ParseInt(Word(t));
    if rule50.None? then Err(BadRule50)
    else
      var rest := SkipSpaces(t[|Word(t)|..]);
      if rest == "" then Ok(Parsed(b, rule50.value, 1)) else ReadMoves(rest, b, rule50.value)
  }

  /** Goes on to the next field behind what was read. */
  datatype Field = Side | CastlingRights | Passing | Rule50

  function ReadField(f: Field, t: string, b: Board): Result<Parsed>
    requires t != ""
    decreases match f case Side => 3 case CastlingRights => 2 case Passing => 1 case Rule50 => 0
  {
    match f
    case Side =>
      if Lower(t[0]) == 'b' then ReadOn(Side, Reading(Mirror(b), t[1..]))
      else if Lower(t[0]) == 'w' then ReadOn(Side, Reading(b, t[1..]))
      else Err(InvalidSide)
    case CastlingRights =>
      var r := ReadCastling(t, b);
      if r.Err? then Err(r.error) else ReadOn(CastlingRights, r.value)
    case Passing =>
      var r := ReadPassing(t, b);
      if r.Err? then Err(r.error) else ReadOn(Passing, r.value)
    case Rule50 => ReadRule50(t, b)
  }

  function ReadOn(f: Field, r: Reading): Result<Parsed>
    requires f != Rule50
    decreases match f case Side => 3 case CastlingRights => 2 case Passing => 1 case Rule50 => 0, -1
  {
    var rest := AfterField(r.rest);
    if rest.Err? then Err(rest.error)
    else if rest.value == "" then Ok(Parsed(r.board, 0, 1))
    else
      match f
      case Side => ReadField(CastlingRights, rest.value, r.board)
      case CastlingRights => ReadField(Passing, rest.value, r.board)
      case Passing => ReadField(Rule50, rest.value, r.board)
  }

  function ParseFen(fen: string): Result<Parsed> {
    var r := ReadPieces(SkipSpaces(fen), Spot(EmptyBoard(), 0, 7));
    if r.Err? then Err(r.error)
    else
      var rest := AfterField(r.value.rest);
      if rest.Err? then Err(rest.error)
      else if rest.value == "" then Ok(Parsed(r.value.board, 0, 1))
      else ReadField(Side, rest.value, r.value.board)
  }
}
