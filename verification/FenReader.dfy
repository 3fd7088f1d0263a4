/** Setting a board object from text, one character after the other. */
module FenReader {
  import opened Wrappers
  import opened Squares
  import opened ChessRules
  import opened Boards
  import opened Plies
  import opened FenText
  import opened FenParser
  import opened ChessBoards

  /** The counters a text yields besides the board. */
  datatype Clocks = Clocks(rule50: int, moves: int)

  method Clear(board: ChessBoard)
    modifies board
    ensures board.Value() == EmptyBoard()
  {
    board.ours, board.theirs, board.rooks, board.bishops, board.pawns := {}, {}, {}, {}, {};
    board.ourKing, board.theirKing := Square(0, 0), Square(0, 0);
    board.castlings := Castlings(0, 0, 7, 7, false, false, false, false);
    board.flipped := false;
  }

  method Put(board: ChessBoard, s: Square, kind: Kind, theirs: bool)
    modifies board
    ensures board.Value() == PutPiece(old(board.Value()), s, kind, theirs)
  {
    if theirs { board.theirs := board.theirs + {s}; } else { board.ours := board.ours + {s}; }
    if kind == King {
      if theirs { board.theirKing := s; } else { board.ourKing := s; }
    }
    if kind == Pawn { board.pawns := board.pawns + {s}; }
    if kind == Rook || kind == Queen { board.rooks := board.rooks + {s}; }
    if kind == Bishop || kind == Queen { board.bishops := board.bishops + {s}; }
  }

  /** Moves on to the next character that is no space. */
  method SkipWhitespace(fen: string, start: nat) returns (pos: nat)
    requires start <= |fen|
    ensures start <= pos <= |fen| && fen[pos..] == SkipSpaces(fen[start..])
  {
    pos := start;
    while pos < |fen| && fen[pos] == ' '
      invariant start <= pos <= |fen| && SkipSpaces(fen[pos..]) == SkipSpaces(fen[start..])
    {
      assert fen[pos..][1..] == fen[pos + 1..];
      pos := pos + 1;
    }
  }

  /** Reads the first field. */
  method PutPieces(board: ChessBoard, fen: string, start: nat) returns (pos: nat, error: Option<FenError>)
    requires start <= |fen|
    modifies board
    ensures start <= pos <= |fen|
    ensures ReadPieces(fen[start..], Spot(old(board.Value()), 0, 7))
         == if error.Some? then Err(error.value) else Ok(Reading(board.Value(), fen[pos..]))
  {
    var file, rank := 0, 7;
    pos := start;
    ghost var whole := ReadPieces(fen[start..], Spot(board.Value(), 0, 7));
    while pos < |fen| && fen[pos] != ' '
      invariant start <= pos <= |fen| && ReadPieces(fen[pos..], Spot(board.Value(), file, rank)) == whole
    {
      assert fen[pos..][1..] == fen[pos + 1..];
      file, rank, error := PutOne(board, fen[pos], file, rank);
      if error.Some? { return; }
      pos := pos + 1;
    }
    error := None;
  }

  /** One character of the first field. */
  method PutOne(board: ChessBoard, c: char, file: int, rank: int)
    returns (file': int, rank': int, error: Option<FenError>)
    modifies board
    ensures ReadPiece(c, Spot(old(board.Value()), file, rank))
         == if error.Some? then Err(error.value) else Ok(Spot(board.Value(), file', rank'))
  {
    file', rank', error := file, rank, None;
    if c == '/' {
      if rank == 0 {
        error := Some(TooManyRanks);
      } else {
        file', rank' := 0, rank - 1;
      }
      return;
    }
    if '1' <= c <= '8' {
      file' := file + (c as int - '0' as int);
      if file' > 8 { error := Some(TooManyFiles); }
      return;
    }
    var kind := ParseKind(c);
    if kind.None? {
      error := Some(InvalidPiece);
    } else if file >= 8 {
      error := Some(PieceOutOfBoard);
    } else if kind.value == Pawn && (rank == 0 || rank == 7) {
      error := Some(PawnOnBackRank);
    } else {
      Put(board, Square(file, rank), kind.value, IsLower(c));
      file' := file + 1;
    }
  }

  /** Looks from the corner towards the king for a rook of that side. */
  method LookForRook(board: ChessBoard, theirs: bool, kingside: bool) returns (file: Option<int>)
    ensures file == FindRook(board.Value(), theirs, kingside, if kingside then 7 else 0)
  {
    var king := if theirs then board.theirKing else board.ourKing;
    var rank := if theirs then 7 else 0;
    var f := if kingside then 7 else 0;
    while if kingside then f > king.file else f < king.file
      invariant FindRook(board.Value(), theirs, kingside, f)
                == FindRook(board.Value(), theirs, kingside, if kingside then 7 else 0)
      decreases if kingside then f - king.file else king.file - f
    {
      var s := Square(f, rank);
      if s in board.rooks - board.bishops && s in (if theirs then board.theirs else board.ours) { return Some(f); }
      f := if kingside then f - 1 else f + 1;
    }
    return None;
  }

  /** Reads one letter of the castling field. */
  method AddRight(board: ChessBoard, c: char) returns (error: Option<FenError>)
    modifies board
    ensures ReadRight(c, old(board.Value())) == if error.Some? then Err(error.value) else Ok(board.Value())
  {
    var theirs := IsUpper(c) == board.flipped;
    var kingside, file;
    if c == 'K' || c == 'Q' || c == 'k' || c == 'q' {
      kingside := Lower(c) == 'k';
      file := LookForRook(board, theirs, kingside);
      if file.None? { return Some(MissingRook); }
    } else {
      file := FileOf(c);
      if file.None? { return Some(InvalidCastling); }
      kingside := file.value > (if theirs then board.theirKing else board.ourKing).file;
    }
    board.castlings := WithRight(board.castlings, theirs, kingside, file.value);
    return None;
  }

  /** Reads the castling field. */
  method AddRights(board: ChessBoard, fen: string, start: nat) returns (pos: nat, error: Option<FenError>)
    requires start < |fen|
    modifies board
    ensures start <= pos <= |fen|
    ensures ReadCastling(fen[start..], old(board.Value()))
         == if error.Some? then Err(error.value) else Ok(Reading(board.Value(), fen[pos..]))
  {
    pos := start;
    if fen[pos] == '-' {
      assert fen[start..][1..] == fen[start + 1..];
      return pos + 1, None;
    }
    ghost var whole := ReadRights(fen[start..], board.Value());
    while pos < |fen| && fen[pos] != ' '
      invariant start <= pos <= |fen| && ReadRights(fen[pos..], board.Value()) == whole
    {
      assert fen[pos..][1..] == fen[pos + 1..];
      error := AddRight(board, fen[pos]);
      if error.Some? { return; }
      pos := pos + 1;
    }
    error := None;
  }

  /** Reads the en passant field. */
  method AddMarker(board: ChessBoard, fen: string, start: nat) returns (pos: nat, error: Option<FenError>)
    requires start < |fen|
    modifies board
    ensures start <= pos <= |fen|
    ensures ReadPassing(fen[start..], old(board.Value()))
         == if error.Some? then Err(error.value) else Ok(Reading(board.Value(), fen[pos..]))
  {
    if fen[start] == '-' { return start + 1, None; }
    if start + 2 >= |fen| { return start, Some(PassingSquareExpected); }
    var file, rank := FileOf(fen[start]), fen[start + 1];
    if file.None? || !('1' <= rank <= '8') { return start, Some(BadPassingSquare); }
    if rank != (if board.flipped then '3' else '6') { return start, Some(BadPassingRank); }
    if Square(file.value, 5) in board.ours + board.theirs { return start, Some(PassingSquareOccupied); }
    if Square(file.value, 4) !in board.theirs * Masked(board.pawns) { return start, Some(NoPawnToTake); }
    board.pawns := board.pawns + {Square(file.value, 7)};
    return start + 2, None;
  }

  /** Reads the side to move, and turns the board round for Black. */
  method TurnTo(board: ChessBoard, c: char) returns (error: Option<FenError>)
    modifies board
    ensures error == if Lower(c) == 'b' || Lower(c) == 'w' then None else Some(InvalidSide)
    ensures error.None? ==> board.Value() == if Lower(c) == 'b' then Mirror(old(board.Value())) else old(board.Value())
  {
    if Lower(c) == 'b' {
      board.Flip();
    } else if Lower(c) != 'w' {
      return Some(InvalidSide);
    }
    return None;
  }

  /** Sets the board from a text, or tells what is wrong with the text. */
  method SetFromFen(board: ChessBoard, fen: string) returns (result: Result<Clocks>)
    modifies board
    ensures match ParseFen(fen)
            case Ok(parsed) => result == Ok(Clocks(parsed.rule50, parsed.moves)) && board.Value() == parsed.board
            case Err(error) => result == Err(error)
  {
    Clear(board);
    var pos := SkipWhitespace(fen, 0);
    assert fen[0..] == fen;
    var error;
    pos, error := PutPieces(board, fen, pos);
    if error.Some? { return Err(error.value); }
    if pos < |fen| && fen[pos] != ' ' { return Err(SpaceExpected); }
    pos := SkipWhitespace(fen, pos);
    if pos == |fen| { return Ok(Clocks(0, 1)); }
    result := ReadSide(board, fen, pos);
  }

  /** From the side to move on. */
  method ReadSide(board: ChessBoard, fen: string, start: nat) returns (result: Result<Clocks>)
    requires start < |fen|
    modifies board
    ensures Yields(ReadField(Side, fen[start..], old(board.Value())), result, board.Value())
  {
    var error := TurnTo(board, fen[start]);
    if error.Some? { return Err(error.value); }
    assert fen[start..][1..] == fen[start + 1..];
    result := ReadOnFrom(Side, board, fen, start + 1);
  }

  /** What is handed out agrees with the result of the specification. */
  predicate Yields(wanted: Result<Parsed>, result: Result<Clocks>, b: Board) {
    match wanted
    case Ok(parsed) => result == Ok(Clocks(parsed.rule50, parsed.moves)) && b == parsed.board
    case Err(error) => result == Err(error)
  }

  /** Skips the spaces behind a field and reads the rest, if there is any. */
  method ReadOnFrom(f: Field, board: ChessBoard, fen: string, start: nat) returns (result: Result<Clocks>)
    requires f != Rule50 && start <= |fen|
    modifies board
    ensures Yields(ReadOn(f, Reading(old(board.Value()), fen[start..])), result, board.Value())
    decreases match f case Side => 3 case CastlingRights => 2 case Passing => 1 case Rule50 => 0
  {
    if start < |fen| && fen[start] != ' ' { return Err(SpaceExpected); }
    var pos := SkipWhitespace(fen, start);
    if pos == |fen| { return Ok(Clocks(0, 1)); }
    match f
    case Side =>
      var error;
      pos, error := AddRights(board, fen, pos);
      if error.Some? { return Err(error.value); }
      result := ReadOnFrom(CastlingRights, board, fen, pos);
    case CastlingRights =>
      var error;
      pos, error := AddMarker(board, fen, pos);
      if error.Some? { return Err(error.value); }
      result := ReadOnFrom(Passing, board, fen, pos);
    case Passing =>
      result := ReadNumbers(board, fen, pos);
  }

  /** The two numbers at the end. */
  method ReadNumbers(board: ChessBoard, fen: string, start: nat) returns (result: Result<Clocks>)
    requires start < |fen|
    ensures Yields(ReadRule50(fen[start..], board.Value()), result, board.Value())
  {
    var word := Word(fen[start..]);
    var rule50 := ParseInt(word);
    if rule50.None? { return Err(BadRule50); }
    assert fen[start..][|word|..] == fen[start + |word|..];
    var pos := SkipWhitespace(fen, start + |word|);
    if pos == |fen| { return Ok(Clocks(rule50.value, 1)); }
    word := Word(fen[pos..]);
    var moves := ParseInt(word);
    if moves.None? { return Err(BadMoves); }
    assert fen[pos..][|word|..] == fen[pos + |word|..];
    pos := SkipWhitespace(fen, pos + |word|);
    if pos < |fen| { return Err(ExtraCharacters); }
    return Ok(Clocks(rule50.value, moves.value));
  }
}
