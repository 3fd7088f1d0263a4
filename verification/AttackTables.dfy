/** Precomputed sliding attacks: every lookup gives what walking the lines would. */
module AttackTables {
  import opened Squares
  import opened Bits

  // ---------- attacks along some directions ----------

  /** What a slider on s attacks in the first n of these directions. */
  function LineAttacks(s: Square, dirs: seq<Dir>, n: nat, occ: set<Square>): set<Square>
    requires n <= |dirs|
  {
    if n == 0 then {} else LineAttacks(s, dirs, n - 1, occ) + RaySquares(occ, s, dirs[n - 1], 1)
  }

  function Attacks(s: Square, dirs: seq<Dir>, occ: set<Square>): set<Square> { LineAttacks(s, dirs, |dirs|, occ) }

  lemma RookAndBishopAttacks(s: Square, occ: set<Square>)
    ensures Attacks(s, ROOK_DIRS, occ) == RookAttacks(s, occ)
    ensures Attacks(s, BISHOP_DIRS, occ) == BishopAttacks(s, occ)
  {
    FourLines(s, North, South, East, West, occ);
    FourLines(s, NorthEast, SouthEast, NorthWest, SouthWest, occ);
  }

  lemma FourLines(s: Square, w: Dir, x: Dir, y: Dir, z: Dir, occ: set<Square>)
    ensures Attacks(s, [w, x, y, z], occ)
         == RaySquares(occ, s, w, 1) + RaySquares(occ, s, x, 1) + RaySquares(occ, s, y, 1) + RaySquares(occ, s, z, 1)
  {
    LineStep(s, [w, x, y, z], 0, occ); LineStep(s, [w, x, y, z], 1, occ);
    LineStep(s, [w, x, y, z], 2, occ); LineStep(s, [w, x, y, z], 3, occ);
  }

  lemma LineStep(s: Square, dirs: seq<Dir>, n: nat, occ: set<Square>)
    requires n < |dirs|
    ensures LineAttacks(s, dirs, n + 1, occ) == LineAttacks(s, dirs, n, occ) + RaySquares(occ, s, dirs[n], 1)
    ensures LineAttacks(s, dirs, 0, occ) == {}
  {
  }

  // ---------- the squares that matter ----------

  /** The squares of a line from n steps on, but for the last before the edge. */
  function RelevantOn(s: Square, d: Dir, n: nat): set<Square>
    decreases 8 - n, s
  {
    if n > 7 || !OnBoard(At(s, d, n + 1)) then {} else {At(s, d, n)} + RelevantOn(s, d, n + 1)
  }

  function RelevantLines(s: Square, dirs: seq<Dir>, n: nat): set<Square>
    requires n <= |dirs|
  {
    if n == 0 then {} else RelevantLines(s, dirs, n - 1) + RelevantOn(s, dirs[n - 1], 1)
  }

  function Relevant(s: Square, dirs: seq<Dir>): set<Square> { RelevantLines(s, dirs, |dirs|) }

  /** A line's attacks depend only on its relevant squares: what stands on the edge is hit anyway. */
  lemma {:induction false} RayDepends(s: Square, d: Dir, n: nat, p: set<Square>, q: set<Square>)
    requires OnBoard(s) && 1 <= n && RelevantOn(s, d, n) * p == RelevantOn(s, d, n) * q
    ensures RaySquares(p, s, d, n) == RaySquares(q, s, d, n)
    decreases 8 - n
  {
    if n <= 7 && OnBoard(At(s, d, n)) {
      if OnBoard(At(s, d, n + 1)) {
        assert At(s, d, n) in RelevantOn(s, d, n);
        assert At(s, d, n) in p <==> At(s, d, n) in RelevantOn(s, d, n) * p;
        assert At(s, d, n) in q <==> At(s, d, n) in RelevantOn(s, d, n) * q;
        assert RelevantOn(s, d, n + 1) * p == RelevantOn(s, d, n + 1) * (RelevantOn(s, d, n) * p);
        assert RelevantOn(s, d, n + 1) * q == RelevantOn(s, d, n + 1) * (RelevantOn(s, d, n) * q);
        RayDepends(s, d, n + 1, p, q);
      } else {
        assert RaySquares(p, s, d, n + 1) == {} && RaySquares(q, s, d, n + 1) == {};
      }
    }
  }

  lemma {:induction false} LinesDepend(s: Square, dirs: seq<Dir>, n: nat, p: set<Square>, q: set<Square>)
    requires OnBoard(s) && n <= |dirs| && RelevantLines(s, dirs, n) * p == RelevantLines(s, dirs, n) * q
    ensures LineAttacks(s, dirs, n, p) == LineAttacks(s, dirs, n, q)
  {
    if n > 0 {
      var all, line, rest := RelevantLines(s, dirs, n), RelevantOn(s, dirs[n - 1], 1), RelevantLines(s, dirs, n - 1);
      assert line * p == line * (all * p) && line * q == line * (all * q);
      assert rest * p == rest * (all * p) && rest * q == rest * (all * q);
      RayDepends(s, dirs[n - 1], 1, p, q);
      LinesDepend(s, dirs, n - 1, p, q);
    }
  }

  // ---------- numbering the subsets of a list of squares ----------

  /** The squares whose bit is set in i. */
  function Subset(squares: seq<Square>, i: nat): set<Square> {
    if squares == [] then {}
    else (if i % 2 == 1 then {squares[0]} else {}) + Subset(squares[1..], i / 2)
  }

  /** Gathers the bits of the listed squares, first square lowest. */
  function Pext(squares: seq<Square>, pieces: set<Square>): nat {
    if squares == [] then 0 else (if squares[0] in pieces then 1 else 0) + 2 * Pext(squares[1..], pieces)
  }

  function Listed(squares: seq<Square>): set<Square> {
    if squares == [] then {} else {squares[0]} + Listed(squares[1..])
  }

  ghost predicate NoRepeats(squares: seq<Square>) {
    squares == [] || (squares[0] !in Listed(squares[1..]) && NoRepeats(squares[1..]))
  }

  lemma {:induction false} PextBound(squares: seq<Square>, pieces: set<Square>)
    ensures Pext(squares, pieces) < Pow2(|squares|)
  {
    if squares != [] { PextBound(squares[1..], pieces); }
  }

  /** Every occupancy of the listed squares is the subset with its own number. */
  lemma {:induction false} SubsetOfPext(squares: seq<Square>, pieces: set<Square>)
    ensures Subset(squares, Pext(squares, pieces)) == Listed(squares) * pieces
  {
    if squares != [] { SubsetOfPext(squares[1..], pieces); }
  }

  lemma {:induction false} SubsetIsListed(squares: seq<Square>, i: nat)
    ensures Subset(squares, i) <= Listed(squares)
  {
    if squares != [] { SubsetIsListed(squares[1..], i / 2); }
  }

  lemma {:induction false} PextIgnores(squares: seq<Square>, p: set<Square>, q: set<Square>)
    requires Listed(squares) * p == Listed(squares) * q
    ensures Pext(squares, p) == Pext(squares, q)
  {
    if squares != [] {
      var rest := Listed(squares[1..]);
      assert squares[0] in p <==> squares[0] in Listed(squares) * p;
      assert squares[0] in q <==> squares[0] in Listed(squares) * q;
      assert rest * p == rest * (Listed(squares) * p) && rest * q == rest * (Listed(squares) * q);
      PextIgnores(squares[1..], p, q);
    }
  }

  /** The numbers of the subsets are read back exactly. */
  lemma {:induction false} PextOfSubset(squares: seq<Square>, i: nat)
    requires NoRepeats(squares) && i < Pow2(|squares|)
    ensures Pext(squares, Subset(squares, i)) == i
  {
    if squares != [] {
      var rest := squares[1..];
      SubsetIsListed(rest, i / 2);
      PextOfSubset(rest, i / 2);
      assert Listed(rest) * Subset(squares, i) == Listed(rest) * Subset(rest, i / 2);
      PextIgnores(rest, Subset(squares, i), Subset(rest, i / 2));
    }
  }

  // ---------- masks as lists ----------

  /** The squares of a mask with numbers from i on, lowest first. */
  function ListFrom(mask: set<Square>, i: nat): seq<Square>
    decreases 64 - i, mask
  {
    if i >= 64 then [] else (if IndexSquare(i) in mask then [IndexSquare(i)] else []) + ListFrom(mask, i + 1)
  }

  lemma {:induction false} ListHolds(mask: set<Square>, i: nat, s: Square)
    requires i <= 64
    ensures s in Listed(ListFrom(mask, i)) <==> s in mask && OnBoard(s) && i <= Index(s)
    decreases 64 - i
  {
    if i < 64 {
      var rest := ListFrom(mask, i + 1);
      ListHolds(mask, i + 1, s);
      assert ([IndexSquare(i)] + rest)[1..] == rest && [] + rest == rest;
      if OnBoard(s) { IndexOf(s); }
    }
  }

  lemma {:induction false} ListOnce(mask: set<Square>, i: nat)
    requires i <= 64
    ensures NoRepeats(ListFrom(mask, i))
    decreases 64 - i
  {
    if i < 64 {
      var rest := ListFrom(mask, i + 1);
      ListOnce(mask, i + 1);
      ListHolds(mask, i + 1, IndexSquare(i));
      assert ([IndexSquare(i)] + rest)[1..] == rest && [] + rest == rest;
    }
  }

  const FIRST: nat := 0

  function RelevantList(s: Square, dirs: seq<Dir>): seq<Square> { ListFrom(Relevant(s, dirs), FIRST) }

  lemma {:induction false} RelevantOnBoard(s: Square, d: Dir, n: nat)
    requires OnBoard(s) && 1 <= n
    ensures AllOnBoard(RelevantOn(s, d, n))
    decreases 8 - n
  {
    if n <= 7 && OnBoard(At(s, d, n + 1)) {
      OnBoardBetween(s, d, n, n + 1);
      RelevantOnBoard(s, d, n + 1);
    }
  }

  lemma {:induction false} LinesOnBoard(s: Square, dirs: seq<Dir>, n: nat)
    requires OnBoard(s) && n <= |dirs|
    ensures AllOnBoard(RelevantLines(s, dirs, n))
  {
    if n > 0 {
      LinesOnBoard(s, dirs, n - 1);
      RelevantOnBoard(s, dirs[n - 1], 1);
    }
  }

  lemma RelevantListed(s: Square, dirs: seq<Dir>)
    requires OnBoard(s)
    ensures Listed(RelevantList(s, dirs)) == Relevant(s, dirs) && NoRepeats(RelevantList(s, dirs))
  {
    LinesOnBoard(s, dirs, |dirs|);
    ListOnce(Relevant(s, dirs), FIRST);
    forall t
      ensures t in Listed(RelevantList(s, dirs)) <==> t in Relevant(s, dirs)
    {
      ListHolds(Relevant(s, dirs), FIRST, t);
    }
  }

  // ---------- what the table is built for ----------

  /** For each square: the squares that matter, a list of them, and what a slider there attacks. */
  datatype Layout = Layout(dirs: seq<Dir>, cover: Square -> set<Square>, list: Square -> seq<Square>,
                           attack: (Square, set<Square>) -> set<Square>)

  /** The layout for sliders in these directions, squares listed lowest first. */
  function Sliders(dirs: seq<Dir>): Layout {
    Layout(dirs, s => Relevant(s, dirs), s => RelevantList(s, dirs), (s, occ) => Attacks(s, dirs, occ))
  }

  /** The layout is about walking its directions. */
  ghost predicate Walks(l: Layout, s: Square) {
    l.cover(s) == Relevant(s, l.dirs) && forall occ :: l.attack(s, occ) == Attacks(s, l.dirs, occ)
  }

  /** Only the listed squares matter, and a slider always attacks something. */
  ghost predicate Covers(l: Layout, s: Square) {
    && Listed(l.list(s)) == l.cover(s) && NoRepeats(l.list(s))
    && (forall occ {:trigger l.attack(s, occ * l.cover(s))} :: l.attack(s, occ) == l.attack(s, occ * l.cover(s)))
    && forall occ :: l.attack(s, occ) != {}
  }

  ghost predicate Sound(l: Layout) {
    && (forall s {:trigger Walks(l, s)} | OnBoard(s) :: Walks(l, s))
    && (forall s {:trigger Covers(l, s)} | OnBoard(s) :: Covers(l, s))
  }

  ghost predicate GoesSomewhere(s: Square, dirs: seq<Dir>) {
    exists d :: d in dirs && OnBoard(At(s, d, 1))
  }

  /** What a slider attacks is never nothing, so an empty slot is an unused one. */
  lemma SomethingAttacked(s: Square, dirs: seq<Dir>, occ: set<Square>)
    requires OnBoard(s) && GoesSomewhere(s, dirs)
    ensures Attacks(s, dirs, occ) != {}
  {
    var d :| d in dirs && OnBoard(At(s, d, 1));
    var i :| 0 <= i < |dirs| && dirs[i] == d;
    AttacksAlong(s, dirs, |dirs|, occ, i);
  }

  lemma {:induction false} AttacksAlong(s: Square, dirs: seq<Dir>, n: nat, occ: set<Square>, i: nat)
    requires i < n <= |dirs| && OnBoard(At(s, dirs[i], 1))
    ensures At(s, dirs[i], 1) in LineAttacks(s, dirs, n, occ)
  {
    if i == n - 1 {
      assert At(s, dirs[i], 1) in RaySquares(occ, s, dirs[i], 1);
    } else {
      AttacksAlong(s, dirs, n - 1, occ, i);
    }
  }

  lemma RooksAndBishopsGoSomewhere(s: Square)
    requires OnBoard(s)
    ensures GoesSomewhere(s, ROOK_DIRS) && GoesSomewhere(s, BISHOP_DIRS)
  {
    var d := if s.rank < 7 then North else South;
    assert ROOK_DIRS[0] == North && ROOK_DIRS[1] == South;
    assert d in ROOK_DIRS && OnBoard(At(s, d, 1));
    var e := if s.rank < 7 then if s.file < 7 then NorthEast else NorthWest
             else if s.file < 7 then SouthEast else SouthWest;
    assert BISHOP_DIRS[0] == NorthEast && BISHOP_DIRS[1] == SouthEast && BISHOP_DIRS[2] == NorthWest
           && BISHOP_DIRS[3] == SouthWest;
    assert e in BISHOP_DIRS && OnBoard(At(s, e, 1));
  }

  lemma SliderCovers(dirs: seq<Dir>, s: Square)
    requires OnBoard(s) && GoesSomewhere(s, dirs)
    ensures Walks(Sliders(dirs), s) && Covers(Sliders(dirs), s)
  {
    RelevantListed(s, dirs);
    forall occ
      ensures Attacks(s, dirs, occ) == Attacks(s, dirs, occ * Relevant(s, dirs)) && Attacks(s, dirs, occ) != {}
    {
      assert Relevant(s, dirs) * (occ * Relevant(s, dirs)) == Relevant(s, dirs) * occ;
      LinesDepend(s, dirs, |dirs|, occ, occ * Relevant(s, dirs));
      SomethingAttacked(s, dirs, occ);
    }
  }

  /** The layouts for rooks and for bishops are sound. */
  lemma RooksAndBishopsSound()
    ensures Sound(Sliders(ROOK_DIRS)) && Sound(Sliders(BISHOP_DIRS))
  {
    forall s | OnBoard(s)
      ensures Walks(Sliders(ROOK_DIRS), s) && Covers(Sliders(ROOK_DIRS), s)
      ensures Walks(Sliders(BISHOP_DIRS), s) && Covers(Sliders(BISHOP_DIRS), s)
    {
      RooksAndBishopsGoSomewhere(s);
      SliderCovers(ROOK_DIRS, s);
      SliderCovers(BISHOP_DIRS, s);
    }
  }

  // ---------- walking ----------

  /** Walks the lines from a square up to the first occupied one. */
  method WalkAttacks(s: Square, dirs: seq<Dir>, occupancy: set<Square>) returns (attacks: set<Square>)
    requires OnBoard(s)
    ensures attacks == Attacks(s, dirs, occupancy)
  {
    attacks := {};
    for j := 0 to |dirs|
      invariant attacks == LineAttacks(s, dirs, j, occupancy)
    {
      attacks := WalkOne(s, dirs[j], occupancy, attacks);
    }
  }

  method WalkOne(s: Square, d: Dir, occupancy: set<Square>, attacks: set<Square>) returns (more: set<Square>)
    requires OnBoard(s)
    ensures more == attacks + RaySquares(occupancy, s, d, 1)
  {
    more := attacks;
    var n := 1;
    while OnBoard(At(s, d, n))
      invariant 1 <= n
      invariant more + RaySquares(occupancy, s, d, n) == attacks + RaySquares(occupancy, s, d, 1)
      decreases 8 - n
    {
      OnBoardBetween(s, d, n, n);
      more := more + {At(s, d, n)};
      if At(s, d, n) in occupancy { return; }
      n := n + 1;
    }
  }

  /** Walks the lines from a square, leaving out the last square before each edge. */
  method WalkMask(s: Square, dirs: seq<Dir>) returns (mask: set<Square>)
    requires OnBoard(s)
    ensures mask == Relevant(s, dirs)
  {
    mask := {};
    for j := 0 to |dirs|
      invariant mask == RelevantLines(s, dirs, j)
    {
      mask := MaskOne(s, dirs[j], mask);
    }
  }

  method MaskOne(s: Square, d: Dir, mask: set<Square>) returns (more: set<Square>)
    requires OnBoard(s)
    ensures more == mask + RelevantOn(s, d, 1)
  {
    more := mask;
    var n := 1;
    while OnBoard(At(s, d, n + 1))
      invariant 1 <= n && more + RelevantOn(s, d, n) == mask + RelevantOn(s, d, 1)
      decreases 8 - n
    {
      OnBoardBetween(s, d, n, n + 1);
      more := more + {At(s, d, n)};
      n := n + 1;
    }
  }

  // ---------- building the table ----------

  type Table = array<set<Square>>

  const SQUARES: nat := 64

  /** Where an occupancy of the relevant squares of a square is looked up. */
  type Hash = (Square, set<Square>) -> nat

  function Slots(s: Square, l: Layout): nat { Pow2(|l.list(s)|) }

  /** The hash stays within the slots of each square. */
  ghost predicate Fits(hash: Hash, l: Layout) {
    forall s | OnBoard(s) :: FitsAt(hash, l, s)
  }

  ghost predicate FitsAt(hash: Hash, l: Layout, s: Square) {
    forall i: nat | i < Slots(s, l) :: hash(s, Occupancy(s, l, i)) < Slots(s, l)
  }

  /** The slots of the squares before the k-th. */
  function Offset(l: Layout, k: nat): nat {
    if k == 0 then 0 else Offset(l, k - 1) + Slots(IndexSquare(k - 1), l)
  }

  lemma {:induction false} OffsetsGrow(l: Layout, j: nat, k: nat)
    requires j <= k
    ensures Offset(l, j) <= Offset(l, k)
    decreases k
  {
    if j < k { OffsetsGrow(l, j, k - 1); }
  }

  /** The i-th occupancy of a square's relevant squares. */
  function Occupancy(s: Square, l: Layout, i: nat): set<Square> { Subset(l.list(s), i) }

  /** In which slot, and for which attacks, each occupancy of a square is looked up. */
  type SlotOf = nat -> nat
  type WantOf = nat -> set<Square>

  function HashSlots(s: Square, l: Layout, hash: Hash): SlotOf { (i: nat) => hash(s, Occupancy(s, l, i)) }

  function Wanted(s: Square, l: Layout): WantOf { (i: nat) => l.attack(s, Occupancy(s, l, i)) }

  /** The first n occupancies are looked up right in a region of the table; where nothing was
      written the slot is empty. */
  ghost predicate Filled(region: seq<set<Square>>, slot: SlotOf, want: WantOf, n: nat) {
    && (forall i: nat | i < n :: slot(i) < |region| && region[slot(i)] == want(i))
    && forall x: nat | x < |region| && region[x] != {} :: exists i: nat :: i < n && slot(i) == x
  }

  lemma FilledOneMore(region: seq<set<Square>>, slot: SlotOf, want: WantOf, n: nat)
    requires Filled(region, slot, want, n) && slot(n) < |region|
    requires region[slot(n)] == {} || region[slot(n)] == want(n)
    requires forall i: nat | i < n :: want(i) != {}
    ensures Filled(region[slot(n) := want(n)], slot, want, n + 1)
  {
    var more := region[slot(n) := want(n)];
    forall y: nat | y < |more| && more[y] != {}
      ensures exists i: nat :: i < n + 1 && slot(i) == y
    {
      if y != slot(n) {
        var i: nat :| i < n && slot(i) == y;
      }
    }
  }

  /** Writes one attack set, unless another one is there already. */
  method PutSlot(table: Table, offset: nat, size: nat, index: nat, attacks: set<Square>, ghost slot: SlotOf,
                 ghost want: WantOf, ghost i: nat)
    returns (ok: bool)
    requires offset + size <= table.Length && Filled(table[offset..offset + size], slot, want, i)
    requires index == slot(i) < size && attacks == want(i) && forall j: nat | j < i :: want(j) != {}
    modifies table
    ensures forall x | 0 <= x < table.Length && !(offset <= x < offset + size) :: table[x] == old(table[x])
    ensures ok ==> Filled(table[offset..offset + size], slot, want, i + 1)
    ensures !ok ==> exists j: nat :: j < i && slot(j) == slot(i)
  {
    ghost var region := table[offset..offset + size];
    assert region[index] == table[offset + index];
    if table[offset + index] != {} && table[offset + index] != attacks {
      return false;
    }
    FilledOneMore(region, slot, want, i);
    table[offset + index] := attacks;
    assert table[offset..offset + size] == region[index := attacks];
    return true;
  }

  /** The occupancy with number i, set square by square. */
  method BuildOccupancy(squares: seq<Square>, i: nat) returns (occupancy: set<Square>)
    ensures occupancy == Subset(squares, i)
  {
    occupancy := {};
    var rest := i;
    for k := 0 to |squares|
      invariant occupancy + Subset(squares[k..], rest) == Subset(squares, i)
    {
      assert squares[k..][0] == squares[k] && squares[k..][1..] == squares[k + 1..];
      if rest % 2 == 1 { occupancy := occupancy + {squares[k]}; }
      rest := rest / 2;
    }
  }

  /** The slot and the attacks of one occupancy. */
  method ComputeSlot(s: Square, l: Layout, hash: Hash, squares: seq<Square>, i: nat)
    returns (index: nat, attacks: set<Square>)
    requires OnBoard(s) && Sound(l) && squares == l.list(s)
    ensures index == HashSlots(s, l, hash)(i) && attacks == Wanted(s, l)(i)
  {
    assert Walks(l, s);
    var occupancy := BuildOccupancy(squares, i);
    attacks := WalkAttacks(s, l.dirs, occupancy);
    index := hash(s, occupancy);
    assert occupancy == Occupancy(s, l, i);
    assert index == HashSlots(s, l, hash)(i);
  }

  /** Empties the slots of one square. */
  method ClearSlots(table: Table, offset: nat, size: nat)
    requires offset + size <= table.Length
    modifies table
    ensures forall x | 0 <= x < table.Length && !(offset <= x < offset + size) :: table[x] == old(table[x])
    ensures forall x | offset <= x < offset + size :: table[x] == {}
  {
    for i := 0 to size
      invariant forall x | offset <= x < offset + i :: table[x] == {}
      invariant forall x | 0 <= x < table.Length && !(offset <= x < offset + size) :: table[x] == old(table[x])
    {
      table[offset + i] := {};
    }
  }

  /** The hash stays below size and what is wanted is never nothing. */
  ghost predicate SlotsFit(slot: SlotOf, want: WantOf, size: nat) {
    forall i: nat | i < size :: slot(i) < size && want(i) != {}
  }

  lemma SquareFits(s: Square, l: Layout, hash: Hash)
    requires OnBoard(s) && Sound(l) && FitsAt(hash, l, s)
    ensures SlotsFit(HashSlots(s, l, hash), Wanted(s, l), Slots(s, l))
  {
    assert Covers(l, s);
    forall i: nat | i < Slots(s, l)
      ensures HashSlots(s, l, hash)(i) < Slots(s, l) && Wanted(s, l)(i) != {}
    {
      assert l.attack(s, Occupancy(s, l, i)) != {};
      assert hash(s, Occupancy(s, l, i)) < Slots(s, l);
    }
  }

  ghost predicate NoClash(slot: SlotOf, size: nat) {
    forall i: nat, j: nat | i < j < size :: slot(i) != slot(j)
  }

  /** Fills the slots of one square. Stops when a slot is wanted for two different attack sets. */
  method BuildSquare(table: Table, offset: nat, s: Square, l: Layout, hash: Hash, squares: seq<Square>, size: nat,
                     ghost slot: SlotOf, ghost want: WantOf) returns (ok: bool)
    requires OnBoard(s) && Sound(l) && squares == l.list(s) && slot == HashSlots(s, l, hash) && want == Wanted(s, l)
    requires SlotsFit(slot, want, size) && offset + size <= table.Length
    modifies table
    ensures forall x | 0 <= x < table.Length && !(offset <= x < offset + size) :: table[x] == old(table[x])
    ensures ok ==> Filled(table[offset..offset + size], slot, want, size)
    ensures NoClash(slot, size) ==> ok
  {
    ClearSlots(table, offset, size);
    ghost var region := table[offset..offset + size];
    assert forall x | 0 <= x < |region| :: region[x] == {};
    ok := true;
    for i := 0 to size
      invariant Filled(table[offset..offset + size], slot, want, i)
      invariant forall x | 0 <= x < table.Length && !(offset <= x < offset + size) :: table[x] == old(table[x])
    {
      var index, attacks := ComputeSlot(s, l, hash, squares, i);
      ok := PutSlot(table, offset, size, index, attacks, slot, want, i);
      if !ok { return; }
    }
  }

  /** The k-th region of the table lies before the end and is as it should be. */
  ghost predicate RegionFine(t: seq<set<Square>>, off: nat -> nat, fine: (nat, seq<set<Square>>) -> bool, k: nat,
                             end: nat) {
    off(k) <= off(k + 1) <= end <= |t| && fine(k, t[off(k)..off(k + 1)])
  }

  /** Regions of the table one after the other, each as it should be. */
  ghost predicate Built(t: seq<set<Square>>, off: nat -> nat, fine: (nat, seq<set<Square>>) -> bool, n: nat) {
    forall k: nat {:trigger RegionFine(t, off, fine, k, off(n))} | k < n :: RegionFine(t, off, fine, k, off(n))
  }

  lemma BuiltMore(t: seq<set<Square>>, u: seq<set<Square>>, off: nat -> nat, fine: (nat, seq<set<Square>>) -> bool,
                  n: nat)
    requires Built(t, off, fine, n) && |t| == |u| && forall x | 0 <= x < off(n) && x < |t| :: t[x] == u[x]
    requires RegionFine(u, off, fine, n, off(n + 1))
    ensures Built(u, off, fine, n + 1)
  {
    var end := off(n + 1);
    forall k: nat | k < n + 1
      ensures RegionFine(u, off, fine, k, end)
    {
      if k < n {
        assert RegionFine(t, off, fine, k, off(n));
        assert u[off(k)..off(k + 1)] == t[off(k)..off(k + 1)];
      }
    }
  }

  function Offsets(l: Layout): nat -> nat { (k: nat) => Offset(l, k) }

  ghost function SquareFine(l: Layout, hash: Hash): (nat, seq<set<Square>>) -> bool {
    (k: nat, region: seq<set<Square>>) =>
      Filled(region, HashSlots(IndexSquare(k), l, hash), Wanted(IndexSquare(k), l), Slots(IndexSquare(k), l))
  }

  /** The masks and offsets of the first squares. */
  ghost predicate Described(masks: seq<set<Square>>, offsets: seq<nat>, l: Layout) {
    && |masks| == |offsets|
    && (masks == [] ||
        (var n := |masks| - 1;
         && masks[n] == l.cover(IndexSquare(n)) && offsets[n] == Offset(l, n)
         && Described(masks[..n], offsets[..n], l)))
  }

  lemma {:induction false} DescribedAt(masks: seq<set<Square>>, offsets: seq<nat>, l: Layout, k: nat)
    requires Described(masks, offsets, l) && k < |masks|
    ensures masks[k] == l.cover(IndexSquare(k)) && offsets[k] == Offset(l, k)
  {
    var n := |masks| - 1;
    if k < n { DescribedAt(masks[..n], offsets[..n], l, k); }
  }

  /** Builds the slots of all squares; ok says that no two attack sets wanted the same slot. */
  method BuildAttacksTable(table: Table, l: Layout, hash: Hash)
    returns (ok: bool, masks: seq<set<Square>>, offsets: seq<nat>)
    requires Sound(l) && Fits(hash, l) && Offset(l, SQUARES) <= table.Length
    modifies table
    ensures ok ==> |masks| == |offsets| == SQUARES && Built(table[..], Offsets(l), SquareFine(l, hash), SQUARES)
    ensures ok ==> Described(masks, offsets, l)
    ensures Injective(hash, l) ==> ok
  {
    var offset := 0;
    masks, offsets, ok := [], [], true;
    for square := 0 to SQUARES
      invariant offset == Offset(l, square) && Built(table[..], Offsets(l), SquareFine(l, hash), square)
      invariant |masks| == square && Described(masks, offsets, l)
    {
      var mask, size;
      NextOffset(l, square);
      OffsetsGrow(l, square + 1, SQUARES);
      FineSquare(l, hash, square);
      var s := IndexSquare(square);
      ok, mask, size := BuildNext(table, square, s, offset, l, hash, Offsets(l), SquareFine(l, hash));
      if !ok { return; }
      assert (masks + [mask])[..square] == masks && (offsets + [offset])[..square] == offsets;
      masks := masks + [mask];
      offsets := offsets + [offset];
      offset := offset + size;
    }
  }

  lemma NextOffset(l: Layout, k: nat)
    ensures Offsets(l)(k) == Offset(l, k)
    ensures Offsets(l)(k + 1) == Offset(l, k + 1) == Offset(l, k) + Slots(IndexSquare(k), l)
  {
  }

  lemma FineSquare(l: Layout, hash: Hash, k: nat)
    ensures var s := IndexSquare(k);
            forall region | Filled(region, HashSlots(s, l, hash), Wanted(s, l), Slots(s, l)) ::
              SquareFine(l, hash)(k, region)
  {
  }

  /** Walks the lines of a square and lists what it finds relevant. */
  method MaskSquares(s: Square, l: Layout) returns (mask: set<Square>, squares: seq<Square>)
    requires OnBoard(s) && Sound(l)
    ensures mask == l.cover(s) && squares == l.list(s)
  {
    assert Walks(l, s);
    mask := WalkMask(s, l.dirs);
    squares := l.list(s);
  }

  method BuildNext(table: Table, square: nat, s: Square, offset: nat, l: Layout, hash: Hash,
                   ghost off: nat -> nat, ghost fine: (nat, seq<set<Square>>) -> bool)
    returns (ok: bool, mask: set<Square>, size: nat)
    requires OnBoard(s) && Sound(l) && FitsAt(hash, l, s) && Built(table[..], off, fine, square)
    requires off(square) == offset && off(square + 1) == offset + Slots(s, l) <= table.Length
    requires forall region | Filled(region, HashSlots(s, l, hash), Wanted(s, l), Slots(s, l)) :: fine(square, region)
    modifies table
    ensures mask == l.cover(s) && size == Slots(s, l)
    ensures ok ==> Built(table[..], off, fine, square + 1)
    ensures NoClash(HashSlots(s, l, hash), Slots(s, l)) ==> ok
  {
    var squares;
    mask, squares := MaskSquares(s, l);
    size := Pow2(|squares|);
    SquareFits(s, l, hash);
    ghost var before := table[..];
    ghost var slot, want := HashSlots(s, l, hash), Wanted(s, l);
    ok := BuildSquare(table, offset, s, l, hash, squares, size, slot, want);
    if ok {
      assert table[..][offset..offset + size] == table[offset..offset + size];
      BuiltMore(before, table[..], off, fine, square);
    }
  }

  /** No square's hash takes two occupancies to one slot. */
  ghost predicate Injective(hash: Hash, l: Layout) {
    forall s | OnBoard(s) :: NoClash(HashSlots(s, l, hash), Slots(s, l))
  }

  // ---------- looking up ----------

  function LookUp(t: seq<set<Square>>, masks: seq<set<Square>>, offsets: seq<nat>, hash: Hash, s: Square,
                  occ: set<Square>): set<Square>
    requires OnBoard(s) && |masks| == |offsets| == SQUARES
  {
    IndexOf(s);
    var k := Index(s);
    var x := offsets[k] + hash(s, occ * masks[k]);
    if x < |t| then t[x] else {}
  }

  lemma SlotRight(region: seq<set<Square>>, s: Square, l: Layout, hash: Hash, occ: set<Square>)
    requires OnBoard(s) && Covers(l, s) && Filled(region, HashSlots(s, l, hash), Wanted(s, l), Slots(s, l))
    ensures var x := hash(s, occ * l.cover(s)); x < |region| && region[x] == l.attack(s, occ)
  {
    var i := OccupancyNumber(s, l, occ);
    var x := HashSlots(s, l, hash)(i);
    assert x < |region| && region[x] == Wanted(s, l)(i);
  }

  /** The relevant part of any occupancy has a number, and the attacks of the whole. */
  lemma OccupancyNumber(s: Square, l: Layout, occ: set<Square>) returns (i: nat)
    requires OnBoard(s) && Covers(l, s)
    ensures i < Slots(s, l) && Occupancy(s, l, i) == occ * l.cover(s)
    ensures l.attack(s, Occupancy(s, l, i)) == l.attack(s, occ)
  {
    var squares, mask := l.list(s), l.cover(s);
    i := Pext(squares, occ);
    PextBound(squares, occ);
    SubsetOfPext(squares, occ);
    assert mask * (occ * mask) == mask * occ;
  }

  /** Whatever the hash: if the table was built without a clash, every lookup for every occupancy
      gives what walking the lines would give. */
  lemma EveryLookUpRight(t: seq<set<Square>>, masks: seq<set<Square>>, offsets: seq<nat>, l: Layout, hash: Hash,
                         s: Square, occ: set<Square>)
    requires OnBoard(s) && Sound(l) && |masks| == SQUARES && Described(masks, offsets, l)
             && Built(t, Offsets(l), SquareFine(l, hash), SQUARES)
    ensures LookUp(t, masks, offsets, hash, s, occ) == l.attack(s, occ)
  {
    IndexOf(s);
    var k: nat := Index(s);
    DescribedAt(masks, offsets, l, k);
    var region := RegionOf(t, l, hash, k);
    assert Covers(l, s);
    SlotRight(region, s, l, hash, occ);
    InRegion(t, region, offsets[k], hash(s, occ * masks[k]));
  }

  lemma InRegion(t: seq<set<Square>>, region: seq<set<Square>>, offset: nat, x: nat)
    requires offset + |region| <= |t| && region == t[offset..offset + |region|] && x < |region|
    ensures t[offset + x] == region[x]
  {
  }

  lemma RegionOf(t: seq<set<Square>>, l: Layout, hash: Hash, k: nat) returns (region: seq<set<Square>>)
    requires Built(t, Offsets(l), SquareFine(l, hash), SQUARES) && k < SQUARES
    ensures Offset(l, k) + |region| <= |t| && region == t[Offset(l, k)..Offset(l, k) + |region|]
    ensures Filled(region, HashSlots(IndexSquare(k), l, hash), Wanted(IndexSquare(k), l), Slots(IndexSquare(k), l))
  {
    var off := Offsets(l);
    assert RegionFine(t, off, SquareFine(l, hash), k, off(SQUARES));
    region := t[off(k)..off(k + 1)];
    assert SquareFine(l, hash)(k, region);
  }

  // ---------- the two hashes ----------

  /** Gathering the bits of the relevant squares. */
  function PextHash(l: Layout): Hash { (s, occ) => Pext(l.list(s), occ) }

  /** Gathered bits fit, and no two occupancies share a slot: this table is always built. */
  lemma PextHashIsPerfect(l: Layout)
    requires Sound(l)
    ensures Fits(PextHash(l), l) && Injective(PextHash(l), l)
  {
    forall s | OnBoard(s)
      ensures FitsAt(PextHash(l), l, s) && NoClash(HashSlots(s, l, PextHash(l)), Slots(s, l))
    {
      assert Covers(l, s);
      PextIsPerfectAt(s, l);
    }
  }

  lemma PextIsPerfectAt(s: Square, l: Layout)
    requires OnBoard(s) && Covers(l, s)
    ensures FitsAt(PextHash(l), l, s) && NoClash(HashSlots(s, l, PextHash(l)), Slots(s, l))
  {
    forall i: nat | i < Slots(s, l)
      ensures PextHash(l)(s, Occupancy(s, l, i)) == i
    {
      PextFindsNumber(s, l, i);
    }
  }

  lemma PextFindsNumber(s: Square, l: Layout, i: nat)
    requires OnBoard(s) && Covers(l, s) && i < Slots(s, l)
    ensures PextHash(l)(s, Occupancy(s, l, i)) == i
  {
    PextOfSubset(l.list(s), i);
  }

  /** The bits of the occupied squares outside the mask do not matter to the gathered number. */
  lemma PextNeedsNoMask(s: Square, l: Layout, pieces: set<Square>)
    requires OnBoard(s) && Covers(l, s)
    ensures PextHash(l)(s, pieces * l.cover(s)) == PextHash(l)(s, pieces)
  {
    var mask := l.cover(s);
    assert mask * (pieces * mask) == mask * pieces;
    PextIgnores(l.list(s), pieces * mask, pieces);
  }
}
