/** Reading back the men of a printed board. */
module FenBoard {
  import opened Wrappers
  import opened Squares
  import opened ChessRules
  import opened Boards
  import opened Plies
  import opened FenText
  import opened FenParser

  // ---------- one man ----------

  /** The letter of a man is no digit or separator, and tells its kind and side. */
  lemma LettersRead(kind: Kind, theirs: bool)
    ensures var c := if theirs then Lower(KindLetter(kind)) else KindLetter(kind);
            ParseKind(c) == Some(kind) && IsLower(c) == theirs && c != '/' && c != ' ' && !('1' <= c <= '8')
  {
  }

  /** The printer names every man by its kind and side. */
  lemma LetterIs(b: Board, s: Square)
    requires Sides(b) && Kings(b) && s in Occupied(b)
    ensures LetterAt(b, s) == Some(if s in b.theirs then Lower(KindLetter(KindAt(b, s))) else KindLetter(KindAt(b, s)))
  {
  }

  // ---------- the squares already read ----------

  predicate Before(s: Square, rank: int, file: int) { s.rank > rank || (s.rank == rank && s.file < file) }

  function Kept(squares: set<Square>, rank: int, file: int): (kept: set<Square>)
    ensures forall s :: s in kept <==> s in squares && Before(s, rank, file)
  {
    set s | s in squares && Before(s, rank, file)
  }

  function KingKept(king: Square, rank: int, file: int): Square {
    if Before(king, rank, file) then king else Square(0, 0)
  }

  /** The men on the squares before this one, in the order of the text. */
  function Written(b: Board, rank: int, file: int): Board {
    EmptyBoard().(ours := Kept(b.ours, rank, file), theirs := Kept(b.theirs, rank, file),
                  rooks := Kept(b.rooks, rank, file), bishops := Kept(b.bishops, rank, file),
                  pawns := Kept(Masked(b.pawns), rank, file),
                  ourKing := KingKept(b.ourKing, rank, file), theirKing := KingKept(b.theirKing, rank, file))
  }

  /** Only the men. */
  function MenOnly(b: Board): Board {
    EmptyBoard().(ours := b.ours, theirs := b.theirs, rooks := b.rooks, bishops := b.bishops, pawns := Masked(b.pawns),
                  ourKing := b.ourKing, theirKing := b.theirKing)
  }

  lemma KeptNext(squares: set<Square>, rank: int, file: int)
    ensures Kept(squares, rank, file + 1)
         == if Square(file, rank) in squares then Kept(squares, rank, file) + {Square(file, rank)}
            else Kept(squares, rank, file)
  {
  }

  lemma AllKeptNext(b: Board, rank: int, file: int)
    ensures var s, w, n := Square(file, rank), Written(b, rank, file), Written(b, rank, file + 1);
            && n.ours == (if s in b.ours then w.ours + {s} else w.ours)
            && n.theirs == (if s in b.theirs then w.theirs + {s} else w.theirs)
            && n.rooks == (if s in b.rooks then w.rooks + {s} else w.rooks)
            && n.bishops == (if s in b.bishops then w.bishops + {s} else w.bishops)
            && n.pawns == (if s in Masked(b.pawns) then w.pawns + {s} else w.pawns)
  {
    KeptNext(b.ours, rank, file);
    KeptNext(b.theirs, rank, file);
    KeptNext(b.rooks, rank, file);
    KeptNext(b.bishops, rank, file);
    KeptNext(Masked(b.pawns), rank, file);
  }

  lemma KindSets(b: Board, s: Square)
    requires Sides(b) && Kings(b) && s in Occupied(b)
    ensures var kind := KindAt(b, s);
            && (s in b.rooks <==> kind.Rook? || kind.Queen?) && (s in b.bishops <==> kind.Bishop? || kind.Queen?)
            && (s in Masked(b.pawns) <==> kind.Pawn?) && (s in b.ours <==> s !in b.theirs)
            && (kind.King? && s in b.ours <==> s == b.ourKing) && (kind.King? && s in b.theirs <==> s == b.theirKing)
  {
  }

  lemma ManPut(b: Board, rank: int, file: int)
    requires Sides(b) && Kings(b) && Square(file, rank) in Occupied(b)
    ensures var s := Square(file, rank);
            PutPiece(Written(b, rank, file), s, KindAt(b, s), s in b.theirs) == Written(b, rank, file + 1)
  {
    AllKeptNext(b, rank, file);
    KindSets(b, Square(file, rank));
  }

  lemma NothingPut(b: Board, rank: int, file: int)
    requires Sides(b) && Kings(b) && Square(file, rank) !in Occupied(b)
    ensures Written(b, rank, file + 1) == Written(b, rank, file)
  {
    AllKeptNext(b, rank, file);
    assert Square(file, rank) !in Masked(b.pawns);
  }

  // ---------- one rank ----------

  lemma {:induction false} OneRead(c: char, rest: string, p: Spot)
    requires c != ' ' && ReadPiece(c, p).Ok?
    ensures ReadPieces([c] + rest, p) == ReadPieces(rest, ReadPiece(c, p).value)
  {
    assert ([c] + rest)[1..] == rest;
  }

  lemma DigitRead(empty: nat, p: Spot)
    requires 0 < empty && 0 <= p.file && p.file + empty <= 8
    ensures Digit(empty) != ' ' && ReadPiece(Digit(empty), p) == Ok(p.(file := p.file + empty))
  {
  }

  lemma {:induction false} EmptyRead(empty: nat, rest: string, p: Spot)
    requires 0 <= p.file && p.file + empty <= 8
    ensures ReadPieces(EmptyText(empty) + rest, p) == ReadPieces(rest, p.(file := p.file + empty))
  {
    if empty > 0 {
      DigitRead(empty, p);
      OneRead(Digit(empty), rest, p);
    } else {
      assert EmptyText(empty) + rest == rest;
    }
  }

  lemma {:induction false} ManRead(b: Board, rank: int, file: int, rest: string)
    requires Sides(b) && Kings(b) && Square(file, rank) in Occupied(b)
    ensures LetterAt(b, Square(file, rank)).Some?
    ensures ReadPieces([LetterAt(b, Square(file, rank)).value] + rest, Spot(Written(b, rank, file), file, rank))
         == ReadPieces(rest, Spot(Written(b, rank, file + 1), file + 1, rank))
  {
    var s := Square(file, rank);
    LetterIs(b, s);
    LettersRead(KindAt(b, s), s in b.theirs);
    ManPut(b, rank, file);
    OneRead(LetterAt(b, s).value, rest, Spot(Written(b, rank, file), file, rank));
  }

  lemma Regroup(a: string, b: string, c: string, d: string)
    ensures a + b + c + d == a + (b + (c + d))
  {
  }

  /** The empty squares so far, and the man behind them. */
  lemma {:induction false} ManStep(b: Board, rank: int, file: nat, empty: nat, rest: string)
    requires Sides(b) && Kings(b) && 0 <= rank < 8 && empty <= file < 8 && Square(file, rank) in Occupied(b)
    ensures ReadPieces(RankText(b, rank, file, empty) + rest, Spot(Written(b, rank, file), file - empty, rank))
         == ReadPieces(RankText(b, rank, file + 1, 0) + rest, Spot(Written(b, rank, file + 1), file + 1, rank))
  {
    var after := RankText(b, rank, file + 1, 0) + rest;
    ManRead(b, rank, file, after);
    var letter := LetterAt(b, Square(file, rank)).value;
    Regroup(EmptyText(empty), [letter], RankText(b, rank, file + 1, 0), rest);
    assert RankText(b, rank, file, empty) + rest == EmptyText(empty) + ([letter] + after);
    EmptyRead(empty, [letter] + after, Spot(Written(b, rank, file), file - empty, rank));
  }

  /** Reading the rest of a rank puts the men on it, wherever the text goes on. */
  lemma {:induction false} RankRead(b: Board, rank: int, file: nat, empty: nat, rest: string)
    requires Sides(b) && Kings(b) && 0 <= rank < 8 && empty <= file <= 8
    ensures ReadPieces(RankText(b, rank, file, empty) + rest, Spot(Written(b, rank, file), file - empty, rank))
         == ReadPieces(rest, Spot(Written(b, rank, 8), 8, rank))
    decreases 8 - file
  {
    if file == 8 {
      assert RankText(b, rank, file, empty) == EmptyText(empty);
      EmptyRead(empty, rest, Spot(Written(b, rank, file), file - empty, rank));
    } else if Square(file, rank) in Occupied(b) {
      ManStep(b, rank, file, empty, rest);
      RankRead(b, rank, file + 1, 0, rest);
    } else {
      NothingPut(b, rank, file);
      assert RankText(b, rank, file, empty) == RankText(b, rank, file + 1, empty + 1);
      RankRead(b, rank, file + 1, empty + 1, rest);
    }
  }

  // ---------- all ranks ----------

  lemma NextRank(b: Board, rank: int)
    requires Sides(b) && Kings(b)
    ensures Written(b, rank, 8) == Written(b, rank - 1, 0)
  {
    forall s | OnBoard(s)
      ensures Before(s, rank, 8) == Before(s, rank - 1, 0)
    {
    }
    assert AllOnBoard(Masked(b.pawns));
  }

  lemma {:induction false} RanksRead(b: Board, rank: nat, rest: string)
    requires Sides(b) && Kings(b) && rank < 8
    ensures ReadPieces(BoardText(b, rank) + rest, Spot(Written(b, rank, 0), 0, rank))
         == ReadPieces(rest, Spot(Written(b, 0, 8), 8, 0))
    decreases rank
  {
    var p := Spot(Written(b, rank, 0), 0, rank);
    if rank == 0 {
      RankRead(b, rank, 0, 0, rest);
      assert BoardText(b, 0) == RankText(b, 0, 0, 0);
    } else {
      RankRead(b, rank, 0, 0, "/" + (BoardText(b, rank - 1) + rest));
      assert BoardText(b, rank) + rest == RankText(b, rank, 0, 0) + ("/" + (BoardText(b, rank - 1) + rest));
      NextRank(b, rank);
      OneRead('/', BoardText(b, rank - 1) + rest, Spot(Written(b, rank, 8), 8, rank));
      RanksRead(b, rank - 1, rest);
    }
  }

  lemma WrittenEnds(b: Board)
    requires Sides(b) && Kings(b)
    ensures Written(b, 7, 0) == EmptyBoard() && Written(b, 0, 8) == MenOnly(b)
  {
    forall s | OnBoard(s)
      ensures !Before(s, 7, 0) && Before(s, 0, 8)
    {
    }
    assert AllOnBoard(Masked(b.pawns));
    assert Kept(b.ours, 7, 0) == {} && Kept(b.theirs, 7, 0) == {} && Kept(Masked(b.pawns), 7, 0) == {};
    assert Kept(b.rooks, 7, 0) == {} && Kept(b.bishops, 7, 0) == {};
    assert Kept(b.ours, 0, 8) == b.ours && Kept(b.theirs, 0, 8) == b.theirs
           && Kept(Masked(b.pawns), 0, 8) == Masked(b.pawns);
    assert Kept(b.rooks, 0, 8) == b.rooks && Kept(b.bishops, 0, 8) == b.bishops;
  }

  /** Reading the printed board gives its men back. */
  lemma {:induction false} BoardRead(b: Board, rest: string)
    requires Sides(b) && Kings(b) && FieldEnds(rest)
    ensures ReadPieces(BoardText(b, 7) + rest, Spot(EmptyBoard(), 0, 7)) == Ok(Reading(MenOnly(b), rest))
  {
    WrittenEnds(b);
    RanksRead(b, 7, rest);
  }
}
