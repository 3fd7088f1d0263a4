/** The rook and bishop tables: how large they are, and what looking something up in them gives, by
    gathered bits and by magic multiplication. */
module AttackLookups {
  import opened Bits
  import opened Squares
  import opened AttackTables

  // ---------- gathered bits ----------

  /** Looks up by gathering the bits of the relevant squares from all pieces. */
  function GetAttacks(t: seq<set<Square>>, offsets: seq<nat>, l: Layout, s: Square, pieces: set<Square>): set<Square>
    requires OnBoard(s) && |offsets| == SQUARES
  {
    IndexOf(s);
    var x := offsets[Index(s)] + Pext(l.list(s), pieces);
    if x < |t| then t[x] else {}
  }

  /** Builds a table by gathered bits; every lookup for every occupancy is then right. */
  method BuildGathered(table: Table, l: Layout) returns (offsets: seq<nat>)
    requires Sound(l) && Offset(l, SQUARES) <= table.Length
    modifies table
    ensures |offsets| == SQUARES
    ensures forall s, pieces | OnBoard(s) :: GetAttacks(table[..], offsets, l, s, pieces) == l.attack(s, pieces)
  {
    PextHashIsPerfect(l);
    var ok, masks;
    ok, masks, offsets := BuildAttacksTable(table, l, PextHash(l));
    forall s, pieces | OnBoard(s)
      ensures GetAttacks(table[..], offsets, l, s, pieces) == l.attack(s, pieces)
    {
      GatheredRight(table[..], masks, offsets, l, s, pieces);
    }
  }

  lemma GatheredRight(t: seq<set<Square>>, masks: seq<set<Square>>, offsets: seq<nat>, l: Layout, s: Square,
                      pieces: set<Square>)
    requires OnBoard(s) && Sound(l) && |masks| == SQUARES && Described(masks, offsets, l)
    requires Built(t, Offsets(l), SquareFine(l, PextHash(l)), SQUARES)
    ensures GetAttacks(t, offsets, l, s, pieces) == l.attack(s, pieces)
  {
    EveryLookUpRight(t, masks, offsets, l, PextHash(l), s, pieces);
    IndexOf(s);
    DescribedAt(masks, offsets, l, Index(s));
    assert Covers(l, s);
    PextNeedsNoMask(s, l, pieces);
  }

  /** What a rook attacks, and what a bishop attacks. */
  function RookReach(): (Square, set<Square>) -> set<Square> { (s, pieces) => RookAttacks(s, pieces) }

  function BishopReach(): (Square, set<Square>) -> set<Square> { (s, pieces) => BishopAttacks(s, pieces) }

  ghost predicate Right(t: seq<set<Square>>, offsets: seq<nat>, l: Layout,
                        reach: (Square, set<Square>) -> set<Square>) {
    |offsets| == SQUARES &&
    forall s, pieces | OnBoard(s) :: GetAttacks(t, offsets, l, s, pieces) == reach(s, pieces)
  }

  ghost predicate AttacksAre(l: Layout, reach: (Square, set<Square>) -> set<Square>) {
    forall s, pieces | OnBoard(s) :: l.attack(s, pieces) == reach(s, pieces)
  }

  method BuildFor(table: Table, l: Layout, ghost reach: (Square, set<Square>) -> set<Square>)
    returns (offsets: seq<nat>)
    requires Sound(l) && Offset(l, SQUARES) <= table.Length && AttacksAre(l, reach)
    modifies table
    ensures Right(table[..], offsets, l, reach)
  {
    offsets := BuildGathered(table, l);
  }

  lemma RookLayout()
    ensures Sound(Sliders(ROOK_DIRS)) && AttacksAre(Sliders(ROOK_DIRS), RookReach())
  {
    RooksAndBishopsSound();
    forall s, pieces | OnBoard(s)
      ensures Attacks(s, ROOK_DIRS, pieces) == RookAttacks(s, pieces)
    {
      RookAndBishopAttacks(s, pieces);
    }
  }

  lemma BishopLayout()
    ensures Sound(Sliders(BISHOP_DIRS)) && AttacksAre(Sliders(BISHOP_DIRS), BishopReach())
  {
    RooksAndBishopsSound();
    forall s, pieces | OnBoard(s)
      ensures Attacks(s, BISHOP_DIRS, pieces) == BishopAttacks(s, pieces)
    {
      RookAndBishopAttacks(s, pieces);
    }
  }

  /** After building the rook table, every lookup for every set of pieces gives what a rook attacks. */
  method BuildRookTable(table: Table) returns (offsets: seq<nat>)
    requires table.Length == 102400
    modifies table
    ensures Right(table[..], offsets, Sliders(ROOK_DIRS), RookReach())
  {
    RookLayout();
    RookTableSize();
    offsets := BuildFor(table, Sliders(ROOK_DIRS), RookReach());
  }

  /** After building the bishop table, every lookup gives what a bishop attacks. */
  method BuildBishopTable(table: Table) returns (offsets: seq<nat>)
    requires table.Length == 5248
    modifies table
    ensures Right(table[..], offsets, Sliders(BISHOP_DIRS), BishopReach())
  {
    BishopLayout();
    BishopTableSize();
    offsets := BuildFor(table, Sliders(BISHOP_DIRS), BishopReach());
  }

  // ---------- magic numbers ----------

  /** An occupancy as a 64-bit number, from square number i on. */
  function NumberFrom(occ: set<Square>, i: nat): nat
    decreases 64 - i, occ
  {
    if i >= 64 then 0 else (if IndexSquare(i) in occ then 1 else 0) + 2 * NumberFrom(occ, i + 1)
  }

  function Number(occ: set<Square>): nat { NumberFrom(occ, 0) }

  /** The high bits of a product of 64-bit numbers. */
  function MagicIndex(number: nat, magic: nat, shift: nat): nat { Shr(Low(number * magic, WORD), shift) }

  function Shift(l: Layout, s: Square): nat { if |l.list(s)| <= WORD then WORD - |l.list(s)| else 0 }

  /** Multiplying the occupancy by a square's magic number. */
  function MagicHash(l: Layout, magic: Square -> nat): Hash {
    (s, occ) => MagicIndex(Number(occ), magic(s), Shift(l, s))
  }

  lemma {:induction false} ShrBound(x: nat, m: nat, n: nat)
    requires x < Pow2(m + n)
    ensures Shr(x, n) < Pow2(m)
    decreases n
  {
    if n > 0 { ShrBound(x / 2, m, n - 1); }
  }

  lemma MagicIndexFits(number: nat, magic: nat, m: nat, n: nat)
    requires m + n == WORD
    ensures MagicIndex(number, magic, n) < Pow2(m)
  {
    ShrBound(Low(number * magic, m + n), m, n);
  }

  lemma {:induction false} ListShort(mask: set<Square>, i: nat)
    requires i <= 64
    ensures |ListFrom(mask, i)| <= 64 - i
    decreases 64 - i
  {
    if i < 64 { ListShort(mask, i + 1); }
  }

  /** Whatever the magic numbers, the indices stay within each square's slots. */
  lemma MagicFits(dirs: seq<Dir>, magic: Square -> nat)
    ensures Fits(MagicHash(Sliders(dirs), magic), Sliders(dirs))
  {
    var l := Sliders(dirs);
    forall s | OnBoard(s)
      ensures FitsAt(MagicHash(l, magic), l, s)
    {
      ListShort(Relevant(s, dirs), FIRST);
      forall i: nat | i < Slots(s, l)
        ensures MagicHash(l, magic)(s, Occupancy(s, l, i)) < Slots(s, l)
      {
        MagicIndexFits(Number(Occupancy(s, l, i)), magic(s), |l.list(s)|, Shift(l, s));
      }
    }
  }

  /** Every lookup by this hash gives what a slider reaches. */
  ghost predicate HashRight(t: seq<set<Square>>, masks: seq<set<Square>>, offsets: seq<nat>, hash: Hash,
                            reach: (Square, set<Square>) -> set<Square>)
  {
    |masks| == |offsets| == SQUARES &&
    forall s, pieces | OnBoard(s) :: LookUp(t, masks, offsets, hash, s, pieces) == reach(s, pieces)
  }

  method BuildHashed(table: Table, l: Layout, hash: Hash, ghost reach: (Square, set<Square>) -> set<Square>)
    returns (ok: bool, masks: seq<set<Square>>, offsets: seq<nat>)
    requires Sound(l) && Offset(l, SQUARES) <= table.Length && AttacksAre(l, reach) && Fits(hash, l)
    modifies table
    ensures ok ==> HashRight(table[..], masks, offsets, hash, reach)
  {
    ok, masks, offsets := BuildAttacksTable(table, l, hash);
    if ok {
      forall s, pieces | OnBoard(s)
        ensures LookUp(table[..], masks, offsets, hash, s, pieces) == reach(s, pieces)
      {
        EveryLookUpRight(table[..], masks, offsets, l, hash, s, pieces);
      }
    }
  }

  /** Builds the rook table with any magic numbers whatever. If that reports no clash, every lookup
      for every set of pieces gives what a rook attacks. */
  method BuildMagicRooks(table: Table, magic: Square -> nat)
    returns (ok: bool, masks: seq<set<Square>>, offsets: seq<nat>)
    requires table.Length == 102400
    modifies table
    ensures ok ==> HashRight(table[..], masks, offsets, MagicHash(Sliders(ROOK_DIRS), magic), RookReach())
  {
    RookLayout();
    RookTableSize();
    MagicFits(ROOK_DIRS, magic);
    ok, masks, offsets := BuildHashed(table, Sliders(ROOK_DIRS), MagicHash(Sliders(ROOK_DIRS), magic), RookReach());
  }

  /** The same for bishops. */
  method BuildMagicBishops(table: Table, magic: Square -> nat)
    returns (ok: bool, masks: seq<set<Square>>, offsets: seq<nat>)
    requires table.Length == 5248
    modifies table
    ensures ok ==> HashRight(table[..], masks, offsets, MagicHash(Sliders(BISHOP_DIRS), magic), BishopReach())
  {
    BishopLayout();
    BishopTableSize();
    MagicFits(BISHOP_DIRS, magic);
    var l := Sliders(BISHOP_DIRS);
    ok, masks, offsets := BuildHashed(table, l, MagicHash(l, magic), BishopReach());
  }

  // ---------- how large the tables are ----------

  function Min(x: int, y: int): int { if x < y then x else y }

  /** How many steps lead from a square to the edge. */
  function Steps(s: Square, d: Dir): int {
    var files := if Files(d) == 1 then 7 - s.file else if Files(d) == -1 then s.file else 7;
    var ranks := if Ranks(d) == 1 then 7 - s.rank else if Ranks(d) == -1 then s.rank else 7;
    Min(files, ranks)
  }

  function Less(x: int): nat { if x > 1 then x - 1 else 0 }

  /** How many squares of a line are relevant: all but the last. */
  function Inner(s: Square, d: Dir): nat { Less(Steps(s, d)) }

  lemma {:induction false} LineCount(s: Square, d: Dir, n: nat)
    requires OnBoard(s) && 1 <= n
    ensures |RelevantOn(s, d, n)| == if Steps(s, d) > n then Steps(s, d) - n else 0
    decreases 8 - n
  {
    StepsToEdge(s, d, n);
    if n <= 7 && OnBoard(At(s, d, n + 1)) {
      LineCount(s, d, n + 1);
      if At(s, d, n) in RelevantOn(s, d, n + 1) { var k := DistanceOf(s, d, n + 1, At(s, d, n)); }
    }
  }

  lemma {:induction false} DistanceOf(s: Square, d: Dir, n: nat, t: Square) returns (k: nat)
    requires t in RelevantOn(s, d, n)
    ensures n <= k && t == At(s, d, k)
    decreases 8 - n
  {
    if t == At(s, d, n) { k := n; } else { k := DistanceOf(s, d, n + 1, t); }
  }

  lemma StepsToEdge(s: Square, d: Dir, n: nat)
    requires OnBoard(s)
    ensures OnBoard(At(s, d, n + 1)) <==> Steps(s, d) >= n + 1
    ensures Steps(s, d) <= 7
  {
  }

  lemma {:induction false} ListCount(mask: set<Square>, i: nat)
    requires i <= 64
    ensures |ListFrom(mask, i)| == |Behind(mask, i)|
    decreases 64 - i
  {
    if i < 64 {
      ListCount(mask, i + 1);
      BehindNext(mask, i);
    } else {
      assert Behind(mask, i) == {};
    }
  }

  lemma BehindNext(mask: set<Square>, i: nat)
    requires i < 64
    ensures |Behind(mask, i)| == |Behind(mask, i + 1)| + if IndexSquare(i) in mask then 1 else 0
  {
    var s, rest := IndexSquare(i), Behind(mask, i + 1);
    assert Index(s) == i && s !in rest;
    forall t | t in Behind(mask, i) && t != s
      ensures t in rest
    {
      IndexOf(t);
    }
    assert Behind(mask, i) == if s in mask then rest + {s} else rest;
  }

  /** The squares of a mask with numbers from i on. */
  function Behind(mask: set<Square>, i: nat): set<Square> { set s | s in mask && OnBoard(s) && i <= Index(s) }

  function InnerSum(s: Square, dirs: seq<Dir>, n: nat): nat
    requires n <= |dirs|
  {
    if n == 0 then 0 else InnerSum(s, dirs, n - 1) + Inner(s, dirs[n - 1])
  }

  ghost predicate AllDifferent(dirs: seq<Dir>) {
    forall i, j | 0 <= i < j < |dirs| :: dirs[i] != dirs[j]
  }

  lemma FourDifferent(w: Dir, x: Dir, y: Dir, z: Dir)
    requires w != x && w != y && w != z && x != y && x != z && y != z
    ensures AllDifferent([w, x, y, z])
  {
  }

  lemma {:induction false} LineOf(s: Square, dirs: seq<Dir>, n: nat, t: Square) returns (i: nat, k: nat)
    requires n <= |dirs| && t in RelevantLines(s, dirs, n)
    ensures i < n && 1 <= k && t == At(s, dirs[i], k)
  {
    if t in RelevantOn(s, dirs[n - 1], 1) {
      i := n - 1;
      k := DistanceOf(s, dirs[n - 1], 1, t);
    } else {
      i, k := LineOf(s, dirs, n - 1, t);
    }
  }

  /** The lines of different directions have no square in common. */
  lemma LinesDisjoint(s: Square, dirs: seq<Dir>, n: nat)
    requires n < |dirs| && AllDifferent(dirs)
    ensures RelevantLines(s, dirs, n) !! RelevantOn(s, dirs[n], 1)
  {
    if t :| t in RelevantLines(s, dirs, n) && t in RelevantOn(s, dirs[n], 1) {
      var i, k := LineOf(s, dirs, n, t);
      var m := DistanceOf(s, dirs[n], 1, t);
      OneLine(s, dirs[i], k, dirs[n], m);
    }
  }

  lemma {:induction false} LinesCount(s: Square, dirs: seq<Dir>, n: nat)
    requires OnBoard(s) && n <= |dirs| && AllDifferent(dirs)
    ensures |RelevantLines(s, dirs, n)| == InnerSum(s, dirs, n)
  {
    if n > 0 {
      LinesCount(s, dirs, n - 1);
      OneMoreLine(s, dirs, n - 1);
    }
  }

  lemma OneMoreLine(s: Square, dirs: seq<Dir>, n: nat)
    requires OnBoard(s) && n < |dirs| && AllDifferent(dirs)
    ensures |RelevantLines(s, dirs, n + 1)| == |RelevantLines(s, dirs, n)| + Inner(s, dirs[n])
  {
    LineCount(s, dirs[n], 1);
    LinesDisjoint(s, dirs, n);
    UnionSize(RelevantLines(s, dirs, n), RelevantOn(s, dirs[n], 1));
  }

  lemma UnionSize(a: set<Square>, b: set<Square>)
    requires a !! b
    ensures |a + b| == |a| + |b|
  {
  }

  lemma SlotCount(s: Square, dirs: seq<Dir>)
    requires OnBoard(s) && AllDifferent(dirs)
    ensures |RelevantList(s, dirs)| == InnerSum(s, dirs, |dirs|)
  {
    LinesCount(s, dirs, |dirs|);
    LinesOnBoard(s, dirs, |dirs|);
    ListCount(Relevant(s, dirs), FIRST);
    assert Behind(Relevant(s, dirs), FIRST) == Relevant(s, dirs);
  }

  lemma FourInner(s: Square, dirs: seq<Dir>)
    requires |dirs| == 4
    ensures InnerSum(s, dirs, 4) == Inner(s, dirs[0]) + Inner(s, dirs[1]) + Inner(s, dirs[2]) + Inner(s, dirs[3])
  {
    InnerStep(s, dirs, 0); InnerStep(s, dirs, 1); InnerStep(s, dirs, 2); InnerStep(s, dirs, 3);
  }

  lemma InnerStep(s: Square, dirs: seq<Dir>, n: nat)
    requires n < |dirs|
    ensures InnerSum(s, dirs, n + 1) == InnerSum(s, dirs, n) + Inner(s, dirs[n]) && InnerSum(s, dirs, 0) == 0
  {
  }

  /** The relevant squares of a rook: six or five on its file, six or five on its rank. */
  function RookBits(): Square -> nat {
    (s: Square) => (if s.rank == 0 || s.rank == 7 then 6 else 5) + (if s.file == 0 || s.file == 7 then 6 else 5)
  }

  /** How far a square is from the edge. */
  function Ring(s: Square): int { Min(Min(s.file, 7 - s.file), Min(s.rank, 7 - s.rank)) }

  /** Those of a bishop: six in the corners, five near the edge, seven, and nine in the middle. */
  function BishopBits(): Square -> nat {
    (s: Square) => if (s.file == 0 || s.file == 7) && (s.rank == 0 || s.rank == 7) then 6
         else if Ring(s) <= 1 then 5 else if Ring(s) == 2 then 7 else 9
  }

  lemma RookInner(s: Square)
    requires OnBoard(s)
    ensures Inner(s, North) + Inner(s, South) + Inner(s, East) + Inner(s, West) == RookBits()(s)
  {
  }

  lemma BishopInner(s: Square)
    requires OnBoard(s)
    ensures Inner(s, NorthEast) + Inner(s, SouthEast) + Inner(s, NorthWest) + Inner(s, SouthWest) == BishopBits()(s)
  {
    var f, r := s.file, s.rank;
    assert Steps(s, NorthEast) == Min(7 - f, 7 - r) && Steps(s, SouthEast) == Min(7 - f, r);
    assert Steps(s, NorthWest) == Min(f, 7 - r) && Steps(s, SouthWest) == Min(f, r);
    DiagonalSum(f, r);
  }

  lemma DiagonalSum(f: int, r: int)
    requires 0 <= f < 8 && 0 <= r < 8
    ensures Less(Min(7 - f, 7 - r)) + Less(Min(7 - f, r)) + Less(Min(f, 7 - r)) + Less(Min(f, r))
            == BishopBits()(Square(f, r))
  {
  }

  ghost predicate BitsAre(l: Layout, bits: Square -> nat) {
    forall s | OnBoard(s) :: Slots(s, l) == Pow2(bits(s))
  }

  lemma FourSlots(s: Square, dirs: seq<Dir>)
    requires OnBoard(s) && |dirs| == 4 && AllDifferent(dirs)
    ensures |RelevantList(s, dirs)| == Inner(s, dirs[0]) + Inner(s, dirs[1]) + Inner(s, dirs[2]) + Inner(s, dirs[3])
  {
    SlotCount(s, dirs);
    FourInner(s, dirs);
  }

  lemma RookSlots()
    ensures BitsAre(Sliders(ROOK_DIRS), RookBits())
  {
    FourDifferent(North, South, East, West);
    forall s | OnBoard(s)
      ensures |RelevantList(s, ROOK_DIRS)| == RookBits()(s)
    {
      FourSlots(s, ROOK_DIRS);
      RookInner(s);
    }
  }

  lemma BishopSlots()
    ensures BitsAre(Sliders(BISHOP_DIRS), BishopBits())
  {
    FourDifferent(NorthEast, SouthEast, NorthWest, SouthWest);
    forall s | OnBoard(s)
      ensures |RelevantList(s, BISHOP_DIRS)| == BishopBits()(s)
    {
      FourSlots(s, BISHOP_DIRS);
      BishopInner(s);
    }
  }

  lemma IndexAt(file: nat, rank: nat)
    requires file < 8 && rank < 8
    ensures IndexSquare(8 * rank + file) == Square(file, rank)
  {
  }

  /** Each square adds its slots to the offset of the next. */
  ghost predicate Adds(off: nat -> nat, bits: Square -> nat) {
    off(0) == 0 &&
    forall file: nat, rank: nat {:trigger bits(Square(file, rank))} | file < 8 && rank < 8 ::
      off(8 * rank + file + 1) == off(8 * rank + file) + Pow2(bits(Square(file, rank)))
  }

  lemma OffsetsAdd(l: Layout, bits: Square -> nat)
    requires BitsAre(l, bits)
    ensures Adds(Offsets(l), bits)
  {
    forall file: nat, rank: nat | file < 8 && rank < 8
      ensures Offsets(l)(8 * rank + file + 1) == Offsets(l)(8 * rank + file) + Pow2(bits(Square(file, rank)))
    {
      IndexAt(file, rank);
      NextOffset(l, 8 * rank + file);
      assert OnBoard(Square(file, rank));
    }
  }

  /** The slots of a rank whose squares have as many relevant squares from both ends. */
  lemma RankSize(off: nat -> nat, bits: Square -> nat, rank: nat, a: nat, b: nat, c: nat, d: nat)
    requires Adds(off, bits) && rank < 8
    requires bits(Square(0, rank)) == bits(Square(7, rank)) == a && bits(Square(1, rank)) == bits(Square(6, rank)) == b
    requires bits(Square(2, rank)) == bits(Square(5, rank)) == c && bits(Square(3, rank)) == bits(Square(4, rank)) == d
    ensures off(8 * rank + 8) == off(8 * rank) + 2 * Pow2(a) + 2 * Pow2(b) + 2 * Pow2(c) + 2 * Pow2(d)
  {
  }

  lemma Powers()
    ensures Pow2(5) == 32 && Pow2(6) == 64 && Pow2(7) == 128 && Pow2(9) == 512
    ensures Pow2(10) == 1024 && Pow2(11) == 2048 && Pow2(12) == 4096
  {
  }

  lemma RookRank(off: nat -> nat, rank: nat)
    requires Adds(off, RookBits()) && rank < 8
    ensures off(8 * rank + 8) == off(8 * rank) + if rank == 0 || rank == 7 then 20480 else 10240
  {
    var v: nat := if rank == 0 || rank == 7 then 6 else 5;
    RankSize(off, RookBits(), rank, v + 6, v + 5, v + 5, v + 5);
    Powers();
  }

  lemma BishopRank(off: nat -> nat, rank: nat)
    requires Adds(off, BishopBits()) && rank < 8
    ensures off(8 * rank + 8) == off(8 * rank)
              + if rank == 0 || rank == 7 then 320 else if rank == 1 || rank == 6 then 256
                else if rank == 2 || rank == 5 then 640 else 1408
  {
    Powers();
    BishopBitsInRank(rank);
    var a: nat := if rank == 0 || rank == 7 then 6 else 5;
    var c: nat := if 2 <= rank <= 5 then 7 else 5;
    var d: nat := if rank == 3 || rank == 4 then 9 else c;
    RankSize(off, BishopBits(), rank, a, 5, c, d);
  }

  lemma BishopBitsInRank(rank: nat)
    requires rank < 8
    ensures var bits := BishopBits();
            && bits(Square(0, rank)) == bits(Square(7, rank)) == (if rank == 0 || rank == 7 then 6 else 5)
            && bits(Square(1, rank)) == bits(Square(6, rank)) == 5
            && bits(Square(2, rank)) == bits(Square(5, rank)) == (if 2 <= rank <= 5 then 7 else 5)
            && bits(Square(3, rank)) == bits(Square(4, rank))
                 == (if rank == 3 || rank == 4 then 9 else if 2 <= rank <= 5 then 7 else 5)
  {
  }

  lemma RookSize(off: nat -> nat)
    requires Adds(off, RookBits())
    ensures off(64) == 102400
  {
    RookRank(off, 0); RookRank(off, 1); RookRank(off, 2); RookRank(off, 3);
    RookRank(off, 4); RookRank(off, 5); RookRank(off, 6); RookRank(off, 7);
  }

  lemma BishopSize(off: nat -> nat)
    requires Adds(off, BishopBits())
    ensures off(64) == 5248
  {
    BishopRank(off, 0); BishopRank(off, 1); BishopRank(off, 2); BishopRank(off, 3);
    BishopRank(off, 4); BishopRank(off, 5); BishopRank(off, 6); BishopRank(off, 7);
  }

  /** The rook table is exactly as large as the rooks need. */
  lemma RookTableSize()
    ensures Offset(Sliders(ROOK_DIRS), SQUARES) == 102400
  {
    RookSlots();
    OffsetsAdd(Sliders(ROOK_DIRS), RookBits());
    RookSize(Offsets(Sliders(ROOK_DIRS)));
  }

  /** The bishop table is exactly as large as the bishops need. */
  lemma BishopTableSize()
    ensures Offset(Sliders(BISHOP_DIRS), SQUARES) == 5248
  {
    BishopSlots();
    OffsetsAdd(Sliders(BISHOP_DIRS), BishopBits());
    BishopSize(Offsets(Sliders(BISHOP_DIRS)));
  }
}
