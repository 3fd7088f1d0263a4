/** The choice of a transform, on 64-bit masks. */
module ChooseTransform {
  import opened BitPlanes
  import opened Canonical

  const LEFT_HALF: Mask := 0x0F0F0F0F0F0F0F0F
  const HIGH_HALF: Mask := 0xFFFFFFFF00000000
  const UPPER: Mask := 0xE0C08000
  const DIAGONAL: Mask := 0x10204080

  function Sign(v: Mask, w: Mask): int { if v < w then -1 else if v > w then 1 else 0 }

  function And(v: Mask, w: Mask): Mask { v & w }

  function AndNot(v: Mask, w: Mask): Mask { v & !w }

  function OnMasks(): Tricks<Mask> {
    Tricks(v => ReverseBitsInBytes(v), v => ReverseBytesInBytes(v), v => TransposeBitsInBytes(v),
           (v, w) => And(v, w), (v, w) => AndNot(v, w), (v, w) => Sign(v, w),
           v => OneBit(v), v => v & LEFT_HALF != 0, v => v & HIGH_HALF != 0,
           v => v & UPPER != 0, v => v & DIAGONAL != 0)
  }

  // ---------- the masks obey the laws ----------

  lemma MasksTurn()
    ensures SquareLaws(OnMasks())
  {
    forall v: Mask
      ensures ReverseBitsInBytes(ReverseBitsInBytes(v)) == v && ReverseBytesInBytes(ReverseBytesInBytes(v)) == v
      ensures TransposeBitsInBytes(TransposeBitsInBytes(v)) == v
      ensures ReverseBitsInBytes(ReverseBytesInBytes(v)) == ReverseBytesInBytes(ReverseBitsInBytes(v))
      ensures TransposeBitsInBytes(ReverseBitsInBytes(v)) == ReverseBytesInBytes(TransposeBitsInBytes(v))
      ensures TransposeBitsInBytes(ReverseBytesInBytes(v)) == ReverseBitsInBytes(TransposeBitsInBytes(v))
    {
      Involutions(v);
      FlipMirror(v);
      TransposeFlip(v);
      TransposeMirror(v);
    }
  }

  lemma FlipAnd(v: Mask, w: Mask)
    ensures ReverseBitsInBytes(And(v, w)) == And(ReverseBitsInBytes(v), ReverseBitsInBytes(w))
  {
  }

  lemma FlipAndNot(v: Mask, w: Mask)
    ensures ReverseBitsInBytes(AndNot(v, w)) == AndNot(ReverseBitsInBytes(v), ReverseBitsInBytes(w))
  {
  }

  lemma FlipSpreads()
    ensures Spreads(OnMasks(), OnMasks().flip)
  {
    forall v: Mask, w: Mask
      ensures ReverseBitsInBytes(And(v, w)) == And(ReverseBitsInBytes(v), ReverseBitsInBytes(w))
      ensures ReverseBitsInBytes(AndNot(v, w)) == AndNot(ReverseBitsInBytes(v), ReverseBitsInBytes(w))
    {
      FlipAnd(v, w);
      FlipAndNot(v, w);
    }
  }

  lemma MirrorAnd(v: Mask, w: Mask)
    ensures ReverseBytesInBytes(And(v, w)) == And(ReverseBytesInBytes(v), ReverseBytesInBytes(w))
  {
  }

  lemma MirrorAndNot(v: Mask, w: Mask)
    ensures ReverseBytesInBytes(AndNot(v, w)) == AndNot(ReverseBytesInBytes(v), ReverseBytesInBytes(w))
  {
  }

  lemma MirrorSpreads()
    ensures Spreads(OnMasks(), OnMasks().mirror)
  {
    forall v: Mask, w: Mask
      ensures ReverseBytesInBytes(And(v, w)) == And(ReverseBytesInBytes(v), ReverseBytesInBytes(w))
      ensures ReverseBytesInBytes(AndNot(v, w)) == AndNot(ReverseBytesInBytes(v), ReverseBytesInBytes(w))
    {
      MirrorAnd(v, w);
      MirrorAndNot(v, w);
    }
  }

  lemma TransposeAnd(v: Mask, w: Mask)
    ensures TransposeBitsInBytes(And(v, w)) == And(TransposeBitsInBytes(v), TransposeBitsInBytes(w))
  {
  }

  lemma TransposeAndNot(v: Mask, w: Mask)
    ensures TransposeBitsInBytes(AndNot(v, w)) == AndNot(TransposeBitsInBytes(v), TransposeBitsInBytes(w))
  {
  }

  lemma TransposeSpreads()
    ensures Spreads(OnMasks(), OnMasks().transpose)
  {
    forall v: Mask, w: Mask
      ensures TransposeBitsInBytes(And(v, w)) == And(TransposeBitsInBytes(v), TransposeBitsInBytes(w))
      ensures TransposeBitsInBytes(AndNot(v, w)) == AndNot(TransposeBitsInBytes(v), TransposeBitsInBytes(w))
    {
      TransposeAnd(v, w);
      TransposeAndNot(v, w);
    }
  }

  lemma NotBothLess(v: Mask, w: Mask)
    ensures !(v < w && w < v)
  {
  }

  lemma NoDifference(v: Mask, w: Mask, x: Mask)
    requires x == (v ^ w) && !(v < w) && !(w < v)
    ensures x == 0
  {
  }

  lemma SameIfNoDifference(v: Mask, w: Mask)
    requires (v ^ w) == 0
    ensures v == w
  {
  }

  lemma SameIfNeitherLess(v: Mask, w: Mask)
    requires !(v < w) && !(w < v)
    ensures v == w
  {
    NoDifference(v, w, v ^ w);
    SameIfNoDifference(v, w);
  }

  lemma SignTurns(v: Mask, w: Mask)
    ensures Sign(w, v) == -Sign(v, w) && (Sign(v, w) == 0 ==> v == w)
  {
    NotBothLess(v, w);
    if !(v < w) && !(w < v) { SameIfNeitherLess(v, w); }
  }

  lemma SignsTurn()
    ensures SignLaw(OnMasks())
  {
    forall v: Mask, w: Mask
      ensures Sign(w, v) == -Sign(v, w) && (Sign(v, w) == 0 ==> v == w)
    {
      SignTurns(v, w);
    }
  }

  lemma KingFlips(k: Mask)
    requires OneBit(k)
    ensures (ReverseBitsInBytes(k) & LEFT_HALF != 0) == !(k & LEFT_HALF != 0)
    ensures (ReverseBitsInBytes(k) & HIGH_HALF != 0) == (k & HIGH_HALF != 0)
  {
  }

  lemma KingMirrors(k: Mask)
    requires OneBit(k)
    ensures (ReverseBytesInBytes(k) & LEFT_HALF != 0) == (k & LEFT_HALF != 0)
    ensures (ReverseBytesInBytes(k) & HIGH_HALF != 0) == !(k & HIGH_HALF != 0)
  {
  }

  lemma KingTransposes(k: Mask)
    requires OneBit(k)
    ensures (TransposeBitsInBytes(k) & LEFT_HALF != 0) == (k & HIGH_HALF != 0)
    ensures (TransposeBitsInBytes(k) & HIGH_HALF != 0) == (k & LEFT_HALF != 0)
    ensures k & LEFT_HALF == 0 && k & HIGH_HALF == 0 ==>
              (TransposeBitsInBytes(k) & UPPER != 0 <==> k & UPPER == 0 && k & DIAGONAL == 0)
              && (TransposeBitsInBytes(k) & DIAGONAL != 0 <==> k & DIAGONAL != 0)
    ensures k & UPPER == 0 || k & DIAGONAL == 0
  {
  }

  lemma FlipKing()
    ensures FlipsKing(OnMasks())
  {
    forall k: Mask | OneBit(k)
      ensures OneBit(ReverseBitsInBytes(k))
      ensures (ReverseBitsInBytes(k) & LEFT_HALF != 0) == !(k & LEFT_HALF != 0)
      ensures (ReverseBitsInBytes(k) & HIGH_HALF != 0) == (k & HIGH_HALF != 0)
    {
      OneBitKept(k);
      KingFlips(k);
    }
  }

  lemma MirrorKing()
    ensures MirrorsKing(OnMasks())
  {
    forall k: Mask | OneBit(k)
      ensures OneBit(ReverseBytesInBytes(k))
      ensures (ReverseBytesInBytes(k) & LEFT_HALF != 0) == (k & LEFT_HALF != 0)
      ensures (ReverseBytesInBytes(k) & HIGH_HALF != 0) == !(k & HIGH_HALF != 0)
    {
      OneBitKept(k);
      KingMirrors(k);
    }
  }

  lemma TransposeKing()
    ensures TransposesKing(OnMasks())
  {
    forall k: Mask | OneBit(k)
      ensures OneBit(TransposeBitsInBytes(k))
      ensures (TransposeBitsInBytes(k) & LEFT_HALF != 0) == (k & HIGH_HALF != 0)
      ensures (TransposeBitsInBytes(k) & HIGH_HALF != 0) == (k & LEFT_HALF != 0)
    {
      OneBitKept(k);
      KingTransposes(k);
    }
  }

  lemma TransposeTriangles()
    ensures TransposesTriangles(OnMasks())
  {
    forall k: Mask | OneBit(k)
      ensures k & LEFT_HALF == 0 && k & HIGH_HALF == 0 ==>
                (TransposeBitsInBytes(k) & UPPER != 0 <==> k & UPPER == 0 && k & DIAGONAL == 0)
                && (TransposeBitsInBytes(k) & DIAGONAL != 0 <==> k & DIAGONAL != 0)
      ensures k & UPPER == 0 || k & DIAGONAL == 0
    {
      KingTransposes(k);
    }
  }

  /** The masks obey all the laws. */
  lemma MaskLaws()
    ensures SquareLaws(OnMasks()) && MeetLaws(OnMasks()) && KingLaws(OnMasks())
  {
    MasksTurn();
    FlipSpreads();
    MirrorSpreads();
    TransposeSpreads();
    SignsTurn();
    FlipKing();
    MirrorKing();
    TransposeKing();
    TransposeTriangles();
  }

  // ---------- the theorems on masks ----------

  /** All eight symmetric images of a board without pawns and castling rights have the same planes. */
  lemma AllImagesEncodedAlike(m: Men<Mask>, c: Transform)
    requires OneBit(OurKing(OnMasks(), m))
    ensures Encoded(OnMasks(), Image(OnMasks(), c, m)) == Encoded(OnMasks(), m)
  {
    MaskLaws();
    ImagesEncodedAlike(OnMasks(), c, m);
  }

  // ---------- on squares ----------

  /** The mask of one square. */
  function SquareMask(s: Mask): Mask
    requires s < 64
  {
    1 << s
  }

  lemma {:induction false} SquareOf(v: Mask) returns (s: Mask)
    requires OneBit(v)
    ensures s < 64 && SquareMask(s) == v
    decreases v
  {
    if v == 1 {
      s := 0;
    } else {
      HalfOfBit(v);
      var t := SquareOf(v >> 1);
      NextSquare(t, v);
      s := t + 1;
    }
  }

  lemma HalfOfBit(v: Mask)
    requires OneBit(v) && v != 1
    ensures OneBit(v >> 1) && v >> 1 < v
  {
  }

  lemma NextSquare(t: Mask, v: Mask)
    requires t < 64 && SquareMask(t) == v >> 1 && OneBit(v) && v != 1
    ensures t + 1 < 64 && SquareMask(t + 1) == v
  {
  }

  /** The four masks on a king's square: files a to d, ranks 5 to 8, and in the lower right quarter the
      squares above the diagonal from h1 to e4, and those on it. */
  lemma RegionOfSquare(s: Mask)
    requires s < 64
    ensures SquareMask(s) & LEFT_HALF != 0 <==> s & 7 < 4
    ensures SquareMask(s) & HIGH_HALF != 0 <==> s >> 3 >= 4
    ensures s & 7 >= 4 && s >> 3 < 4 ==>
              && (SquareMask(s) & UPPER != 0 <==> s >> 3 > 7 - (s & 7))
              && (SquareMask(s) & DIAGONAL != 0 <==> s >> 3 == 7 - (s & 7))
  {
  }

  /** The masks of a board in the order in which they are compared. */
  function MaskList(m: Men<Mask>): seq<Mask> { [m.all, m.ours, m.kings, m.queens, m.rooks, m.knights, m.bishops] }

  /** From entry i on, the first difference decides. */
  predicate NotAfter(v: seq<Mask>, w: seq<Mask>, i: nat)
    requires |v| == |w|
    decreases |v| - i
  {
    i >= |v| || v[i] < w[i] || (v[i] == w[i] && NotAfter(v, w, i + 1))
  }

  /** The comparisons from entry i on add up to one number. */
  function Verdict(v: seq<Mask>, w: seq<Mask>, i: nat): int
    requires |v| == |w|
    decreases |v| - i
  {
    if i >= |v| then 0 else FirstOf(Sign(v[i], w[i]), Verdict(v, w, i + 1))
  }

  lemma {:induction false} VerdictMeans(v: seq<Mask>, w: seq<Mask>, i: nat)
    requires |v| == |w|
    ensures Verdict(v, w, i) <= 0 <==> NotAfter(v, w, i)
    decreases |v| - i
  {
    if i < |v| {
      VerdictMeans(v, w, i + 1);
      SignTurns(v[i], w[i]);
    }
  }

  lemma OrderIsVerdict(m: Men<Mask>)
    ensures Order(OnMasks(), m) == Verdict(MaskList(m), MaskList(OnMen(OnMasks().transpose, m)), 0)
  {
    var v, w := MaskList(m), MaskList(OnMen(OnMasks().transpose, m));
    assert Verdict(v, w, 6) == Sign(m.bishops, TransposeBitsInBytes(m.bishops));
    var t := OnMasks();
    assert Verdict(v, w, 4) == FirstOf(Ahead(t, m.rooks), FirstOf(Ahead(t, m.knights), Verdict(v, w, 6)));
    assert Verdict(v, w, 2) == FirstOf(Ahead(t, m.kings), FirstOf(Ahead(t, m.queens), Verdict(v, w, 4)));
    assert Verdict(v, w, 0) == FirstOf(Ahead(t, m.all), FirstOf(Ahead(t, m.ours), Verdict(v, w, 2)));
  }

  lemma KingCorner(king: Mask) returns (s: Mask)
    requires OneBit(king) && king & LEFT_HALF == 0 && king & HIGH_HALF == 0 && king & UPPER == 0
    ensures s < 64 && king == SquareMask(s) && s & 7 >= 4 && s >> 3 < 4 && s >> 3 <= 7 - (s & 7)
    ensures s >> 3 == 7 - (s & 7) ==> king & DIAGONAL != 0
  {
    s := SquareOf(king);
    RegionOfSquare(s);
  }

  /** The king of the board as encoded. */
  lemma EncodedKing(m: Men<Mask>)
    requires OneBit(OurKing(OnMasks(), m))
    ensures var n := OnMen(Turns(OnMasks(), Chosen(OnMasks(), false, false, m)), m);
            var king := OurKing(OnMasks(), n);
            && OneBit(king) && king & LEFT_HALF == 0 && king & HIGH_HALF == 0 && king & UPPER == 0
            && (king & DIAGONAL != 0 ==> Order(OnMasks(), n) <= 0)
  {
    MaskLaws();
    ChoiceIsLowest(OnMasks(), m);
    QuestionsMean(OurKing(OnMasks(), OnMen(Turns(OnMasks(), Choice(OnMasks(), m)), m)));
  }

  /** The questions about a king's bit, on masks. */
  lemma QuestionsMean(king: Mask)
    ensures OnMasks().one(king) == OneBit(king)
    ensures OnMasks().left(king) == (king & LEFT_HALF != 0) && OnMasks().high(king) == (king & HIGH_HALF != 0)
    ensures OnMasks().upper(king) == (king & UPPER != 0) && OnMasks().diagonal(king) == (king & DIAGONAL != 0)
  {
  }

  /** The encoded board has our king on files e to h of ranks 1 to 4, not above the diagonal from h1; on
      the diagonal, the masks of the board do not come after those of its transpose. */
  lemma SmallerBoardEncoded(m: Men<Mask>) returns (s: Mask)
    requires OneBit(OurKing(OnMasks(), m))
    ensures var n := OnMen(Turns(OnMasks(), Chosen(OnMasks(), false, false, m)), m);
            && s < 64 && OurKing(OnMasks(), n) == SquareMask(s)
            && s & 7 >= 4 && s >> 3 < 4 && s >> 3 <= 7 - (s & 7)
            && (s >> 3 == 7 - (s & 7) ==> NotAfter(MaskList(n), MaskList(OnMen(OnMasks().transpose, n)), 0))
  {
    EncodedKing(m);
    var n := OnMen(Turns(OnMasks(), Chosen(OnMasks(), false, false, m)), m);
    s := KingCorner(OurKing(OnMasks(), n));
    OrderMeans(n);
  }

  lemma OrderMeans(m: Men<Mask>)
    ensures Order(OnMasks(), m) <= 0 <==> NotAfter(MaskList(m), MaskList(OnMen(OnMasks().transpose, m)), 0)
  {
    OrderIsVerdict(m);
    VerdictMeans(MaskList(m), MaskList(OnMen(OnMasks().transpose, m)), 0);
  }

  /** Choosing moves planes like transforming them. */
  lemma TurnsTransform(c: Transform, v: Mask)
    ensures Turns(OnMasks(), c)(v) == Transformed(c, v)
  {
  }

  /** A board with a castling right is encoded as it stands. */
  lemma CastlingBoardUnmoved(m: Men<Mask>, hasPawns: bool, plane: Mask)
    ensures Transformed(Chosen(OnMasks(), true, hasPawns, m), plane) == plane
  {
  }

  /** With pawns and no castling right, our king comes to files e to h and the ranks stay. */
  lemma PawnBoardTurned(m: Men<Mask>) returns (s: Mask)
    requires OneBit(OurKing(OnMasks(), m))
    ensures var c := Chosen(OnMasks(), false, true, m);
            && !c.mirror && !c.transpose
            && s < 64 && Transformed(c, OurKing(OnMasks(), m)) == SquareMask(s) && s & 7 >= 4
  {
    var king := OurKing(OnMasks(), m);
    OneBitKept(king);
    KingFlips(king);
    s := SquareOf(Transformed(Chosen(OnMasks(), false, true, m), king));
    RegionOfSquare(s);
  }

  /** With pawns, a board and its left-right mirror image have the same planes. */
  lemma FlippedPawnBoardEncodedAlike(m: Men<Mask>, plane: Mask)
    requires OneBit(OurKing(OnMasks(), m))
    ensures Transformed(Chosen(OnMasks(), false, true, OnMen(OnMasks().flip, m)), ReverseBitsInBytes(plane))
         == Transformed(Chosen(OnMasks(), false, true, m), plane)
  {
    MaskLaws();
    FlippedPawnBoardsAlike(OnMasks(), m, plane);
    TurnsIsTransformed(Chosen(OnMasks(), false, true, OnMen(OnMasks().flip, m)), ReverseBitsInBytes(plane));
    TurnsIsTransformed(Chosen(OnMasks(), false, true, m), plane);
  }

  method Choose(canCastle: bool, pawns: Mask, m: Men<Mask>) returns (c: Transform)
    ensures c == Chosen(OnMasks(), canCastle, pawns != 0, m)
  {
    MaskLaws();
    c := ChooseTransform(OnMasks(), canCastle, pawns != 0, m);
  }

  lemma TurnsIsTransformed(c: Transform, v: Mask)
    ensures Turns(OnMasks(), c)(v) == Transformed(c, v)
  {
  }
}
