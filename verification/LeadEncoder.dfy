/** Encoding a whole placement: mirroring it, numbering its leading men, then its other groups. */
module LeadEncoder {
  import opened Binomials
  import opened PlacementTables
  import opened LeadingMen
  import opened MixedRadix
  import opened FreeSquares
  import opened TableIndex
  import opened TableEncoder

  // ---------- what encoding achieves ----------

  /** The same men stand in every group on both sides. */
  ghost predicate SameGroups(e: Entry, enc: Scheme, norm: seq<nat>, p: seq<int>, q: seq<int>)
    requires Shape(e, enc, norm)
  {
    AllSameMen(norm, p, q, Starts(e, enc, norm), e.num)
  }

  /** p is the canonical form of q, mirrored by g and sorted group by group, and idx is its index. */
  ghost predicate Encoded(e: Entry, enc: Scheme, ei: EncInfo, kk: KingTable, q: seq<int>, g: Symmetry, p: seq<int>,
                          idx: nat) {
    && Shape(e, enc, ei.norm) && |ei.factor| == e.num && NumbersKings(kk) && AreSquares(q)
    && Canonical(e, enc, ei.norm, p) && SameGroups(e, enc, ei.norm, MoveAll(g, q), p)
    && idx == Index(e, enc, ei, kk, p)
  }

  /** Placements the encoder is given: kings apart, pawns on their ranks, the leading pawn first. */
  ghost predicate Input(e: Entry, enc: Scheme, p: seq<int>) {
    && |p| == e.num <= 7 && AreSquares(p) && Distinct(p) && 1 <= Lead(e, enc) && Base(e, enc) <= e.num
    && match enc
       case Pieces => e.kkEnc ==> !Touching(p[0], p[1])
       case Pawns(along) => Within(p, Base(e, enc), 8, 56) && SmallestFlapFirst(along, p, e.pawns0)
  }

  predicate SmallestFlapFirst(along: PawnEncoding, p: seq<int>, k: nat) {
    1 <= k <= |p| && (forall i | 0 <= i < k :: IsPawnSquare(p[i])) && FlapFirst(along, p, k)
  }

  predicate FlapFirst(along: PawnEncoding, p: seq<int>, k: nat)
    requires 1 <= k <= |p| && forall i | 0 <= i < k :: IsPawnSquare(p[i])
  {
    forall i | 0 <= i < k :: FlapNat(along, p[0]) <= FlapNat(along, p[i])
  }

  // ---------- the leading pawn ----------

  method SmallestFirst(p: array<int>, k: nat, key: int -> int)
    requires 1 <= k <= p.Length
    modifies p
    ensures Reordered(old(p[..]), p[..], 0, k)
    ensures forall i | 0 <= i < k :: key(p[0]) <= key(p[i])
  {
    for i := 1 to k
      invariant Reordered(old(p[..]), p[..], 0, k)
      invariant forall j | 0 <= j < i :: key(p[0]) <= key(p[j])
    {
      ExchangeIfLarger(p, 0, k, 0, i, key);
    }
  }

  function FlapKey(along: PawnEncoding): int -> int {
    s => if IsPawnSquare(s) then FlapNat(along, s) else 0
  }

  /** Puts a pawn with the smallest flap first, and finds the block of the table it selects. */
  method LeadingPawn(p: array<int>, k: nat, along: PawnEncoding) returns (block: nat)
    requires 1 <= k <= p.Length && Within(p[..], k, 8, 56)
    modifies p
    ensures Reordered(old(p[..]), p[..], 0, k)
    ensures SmallestFlapFirst(along, p[..], k)
    ensures block == PawnBlock(along, p[0])
  {
    SmallestFirst(p, k, FlapKey(along));
    ReorderedWithin(old(p[..]), p[..], 0, k, k, 8, 56);
    FirstBySmallestKey(along, p[..], k);
    BlockOfSquare(along, p[..][0]);
    block := if along == ByFile then FILE_TO_FILE[p[0] % 8] else (p[0] - 8) / 8;
  }

  lemma FirstBySmallestKey(along: PawnEncoding, p: seq<int>, k: nat)
    requires 1 <= k <= |p| && Within(p, k, 8, 56)
    requires forall i | 0 <= i < k :: FlapKey(along)(p[0]) <= FlapKey(along)(p[i])
    ensures SmallestFlapFirst(along, p, k)
  {
    forall i | 0 <= i < k
      ensures FlapNat(along, p[0]) <= FlapNat(along, p[i])
    {
      assert FlapKey(along)(p[0]) <= FlapKey(along)(p[i]);
    }
  }

  lemma BlockOfSquare(along: PawnEncoding, s: int)
    requires IsPawnSquare(s)
    ensures PawnBlock(along, s) == if along == ByFile then FILE_TO_FILE[s % 8] else (s - 8) / 8
  {
    if s % 8 < 4 {
      FlapSquareOf(along, s);
    } else {
      FlapIgnoresFlip(along, s);
      FlipCoordinates(s);
      FlapSquareOf(along, FlipFile(s));
    }
  }

  // ---------- the leading pieces ----------

  lemma NormalizedLead(e: Entry, g: Symmetry, q: seq<int>, p: seq<int>)
    requires Input(e, Pieces, q) && p == MoveAll(g, q)
    requires p[0] / 8 <= 3 && p[0] % 8 <= 3 && FirstOffDiagonalBelow(p, Lead(e, Pieces))
    ensures Placement(e, Pieces, p) && CanonicalLead(e, Pieces, p)
  {
    MoveKeepsDistinct(g, q);
    if e.kkEnc { MoveKeepsApart(g, q[0], q[1]); }
  }

  /** The number of the leading pieces. */
  method NumberPieces(p: array<int>, e: Entry, kk: KingTable) returns (lead: nat)
    requires p.Length == e.num && Lead(e, Pieces) <= e.num && Placement(e, Pieces, p[..])
    requires NumbersKings(kk) && CanonicalLead(e, Pieces, p[..])
    ensures lead == LeadDigit(e, Pieces, kk, p[..])
  {
    LeadDigitBound(e, Pieces, kk, p[..]);
    LeadsDiagonally(e, p[..]);
    if e.kkEnc {
      lead := KingIndex(kk, p[0], p[1]);
    } else {
      lead := ThreeIndex(p[0], p[1], p[2]);
    }
  }

  // ---------- the leading pawns ----------

  function TwistKey(along: PawnEncoding): int -> int {
    s => if IsPawnSquare(s) then -(TwistNat(along, s) as int) else 0
  }

  lemma FlippedPawns(along: PawnEncoding, files: bool, q: seq<int>, k: nat, n: nat)
    requires k <= n <= |q| && AreSquares(q) && Within(q, n, 8, 56) && SmallestFlapFirst(along, q, k)
    ensures var p := MoveAll(Symmetry(files, false, false), q); Within(p, n, 8, 56) && SmallestFlapFirst(along, p, k)
  {
    var g := Symmetry(files, false, false);
    var p := MoveAll(g, q);
    forall i | 0 <= i < n
      ensures 8 <= p[i] < 56
    {
      assert p[i] == Move(g, q[i]);
      FlipsIntoRegion(q[i]);
    }
    forall i | 0 <= i < k
      ensures FlapNat(along, p[0]) <= FlapNat(along, p[i])
    {
      SameFlap(along, files, q[0]);
      SameFlap(along, files, q[i]);
    }
  }

  lemma SameFlap(along: PawnEncoding, files: bool, s: int)
    requires IsPawnSquare(s)
    ensures var t := Move(Symmetry(files, false, false), s); IsPawnSquare(t) && FlapNat(along, t) == FlapNat(along, s)
  {
    FlapIgnoresFlip(along, s);
  }

  /** The pawn with the smallest flap, on the left half, has the largest twist. */
  lemma SmallestFlapLargestTwist(along: PawnEncoding, s: int, t: int)
    requires IsPawnSquare(s) && IsPawnSquare(t) && s != t && s % 8 < 4
    requires FlapNat(along, s) <= FlapNat(along, t)
    ensures TwistNat(along, s) > TwistNat(along, t)
  {
    TwistFromFlap(along, s);
    TwistFromFlap(along, t);
    if Twist(along, s) == Twist(along, t) { TwistInjective(along, s, t); }
  }

  /** Sorted by twist behind the leading pawn, the pawns are in canonical order. */
  lemma PawnsInOrder(along: PawnEncoding, q: seq<int>, p: seq<int>, k: nat)
    requires SmallestFlapFirst(along, q, k) && Distinct(q) && q[0] % 8 < 4
    requires Reordered(q, p, 1, k) && SortedBy(TwistKey(along), p, 1, k)
    ensures LeadingPawns(along, p, k)
  {
    PawnsStayBehind(along, q, p, k);
    ReorderedDistinct(q, p, 1, k);
    forall i, j | 0 <= i < j < k
      ensures Twist(along, p[i]) > Twist(along, p[j])
    {
      DistinctAt(p, i, j);
      if i == 0 {
        SmallestFlapLargestTwist(along, p[0], p[j]);
      } else {
        assert TwistKey(along)(p[i]) <= TwistKey(along)(p[j]);
        if Twist(along, p[i]) == Twist(along, p[j]) { TwistInjective(along, p[i], p[j]); }
      }
    }
  }

  lemma PawnsStayBehind(along: PawnEncoding, q: seq<int>, p: seq<int>, k: nat)
    requires SmallestFlapFirst(along, q, k) && Reordered(q, p, 1, k)
    ensures SmallestFlapFirst(along, p, k) && p[0] == q[0]
  {
    forall i | 0 <= i < k
      ensures IsPawnSquare(p[i]) && FlapNat(along, q[0]) <= FlapNat(along, p[i])
    {
      if i > 0 {
        Counted(p, 1, k, i);
        var j := FindCounted(q, 1, k, p[i]);
      }
    }
  }

  /** The number of the leading pawns within their block. */
  method NumberPawns(p: array<int>, k: nat, along: PawnEncoding, pawnIdx: seq<nat>) returns (lead: nat)
    requires LeadingPawns(along, p[..], k)
    requires |pawnIdx| == 24 && forall j: nat | j < 24 :: pawnIdx[j] == PawnStart(along, k - 1, j)
    ensures lead == PawnIndex(along, p[..], k)
  {
    ghost var v := TwistsUp(along, p[..], k);
    lead := pawnIdx[FlapNat(along, p[0])];
    assert v[..k - 1] == v;
    for i := 1 to k
      invariant lead + SubsetNumber(v[..k - i]) == PawnIndex(along, p[..], k)
    {
      assert v[..k - i][..k - i - 1] == v[..k - i - 1];
      assert v[k - i - 1] == TwistNat(along, p[..][i]);
      lead := lead + Choose(TwistNat(along, p[i]), k - i);
    }
  }

  // ---------- the whole encoder ----------

  /** From the leading group's number on, the run of the encoder yields index and canonical form. */
  lemma RunEncodes(e: Entry, enc: Scheme, ei: EncInfo, kk: KingTable, q: seq<int>, run: Run, lead: nat)
    requires Shape(e, enc, ei.norm) && |ei.factor| == e.num && NumbersKings(kk)
    requires IsRun(e, enc, ei, run) && run.now.k == e.num && First(run).k == Lead(e, enc)
    requires var p := First(run).p;
             && Placement(e, enc, p) && CanonicalLead(e, enc, p) && lead == LeadDigit(e, enc, kk, p)
             && |q| == |p| && SameMen(q, p, 0, Lead(e, enc)) && forall i | Lead(e, enc) <= i < |p| :: p[i] == q[i]
    requires First(run).idx == lead * ei.factor[0] && Placement(e, enc, run.now.p)
    ensures Canonical(e, enc, ei.norm, run.now.p) && SameGroups(e, enc, ei.norm, q, run.now.p)
    ensures run.now.idx == Index(e, enc, ei, kk, run.now.p)
    ensures run.now.p[0] == First(run).p[0]
  {
    var d0 := seq(e.num, i => lead);
    StartProgress(e, enc, ei, q, First(run).p, d0);
    var d, done := RunProgress(e, enc, ei, run, q, d0);
    LeadKept(e, enc, kk, First(run).p, run.now.p);
    assert First(run).p[..Lead(e, enc)][0] == run.now.p[..Lead(e, enc)][0];
    FinishedRun(e, enc, ei, kk, q, run.now.p, d, done, run.now.idx);
  }

  lemma StartProgress(e: Entry, enc: Scheme, ei: EncInfo, q: seq<int>, p: seq<int>, d0: seq<nat>)
    requires Shape(e, enc, ei.norm) && |ei.factor| == e.num == |d0| && Placement(e, enc, p)
    requires |q| == |p| && SameMen(q, p, 0, Lead(e, enc)) && forall i | Lead(e, enc) <= i < |p| :: p[i] == q[i]
    ensures Progress(e, enc, ei, q, p, d0, [0], Lead(e, enc), d0[0] * ei.factor[0])
  {
    var w := Products(d0, ei.factor);
    assert SumAt([0], w) == SumAt([0][..0], w) + w[0];
    assert AllSameMen(ei.norm, q, p, [0][..0], Lead(e, enc));
  }

  lemma LeadKept(e: Entry, enc: Scheme, kk: KingTable, p: seq<int>, r: seq<int>)
    requires 1 <= Lead(e, enc) && Placement(e, enc, p) && Placement(e, enc, r) && NumbersKings(kk)
    requires Lead(e, enc) <= e.num && Prefixed(p, r, Lead(e, enc)) && CanonicalLead(e, enc, p)
    ensures CanonicalLead(e, enc, r) && LeadDigit(e, enc, kk, r) == LeadDigit(e, enc, kk, p)
  {
    forall i | 0 <= i < Lead(e, enc)
      ensures p[i] == r[i]
    {
      assert p[..Lead(e, enc)][i] == r[..Lead(e, enc)][i];
    }
    if enc.Pawns? {
      assert TwistsUp(enc.along, p, e.pawns0) == TwistsUp(enc.along, r, e.pawns0);
    }
  }

  lemma FinishedRun(e: Entry, enc: Scheme, ei: EncInfo, kk: KingTable, q: seq<int>, p: seq<int>, d: seq<nat>,
                    done: seq<nat>, idx: nat)
    requires NumbersKings(kk) && |d| > 0 && Progress(e, enc, ei, q, p, d, done, e.num, idx)
    requires Placement(e, enc, p) && CanonicalLead(e, enc, p) && d[0] == LeadDigit(e, enc, kk, p)
    ensures Canonical(e, enc, ei.norm, p) && SameGroups(e, enc, ei.norm, q, p)
    ensures idx == Index(e, enc, ei, kk, p)
  {
    assert done == Starts(e, enc, ei.norm);
    GroupsFinished(e, enc, ei.norm, p, d, done, 1);
    assert done[1..] == GroupStarts(ei.norm, Lead(e, enc));
    FinishedGroupsAscend(e, enc, ei.norm, p, d, done, 1, Lead(e, enc));
    SameDigits(e, enc, ei.norm, kk, p, d, done);
    WeightedSame(done, d, DigitVector(e, enc, ei.norm, kk, p), ei.factor);
  }

  lemma SameDigits(e: Entry, enc: Scheme, norm: seq<nat>, kk: KingTable, p: seq<int>, d: seq<nat>, done: seq<nat>)
    requires Shape(e, enc, norm) && NumbersKings(kk) && Canonical(e, enc, norm, p) && |d| == e.num
    requires done == Starts(e, enc, norm) && AllDone(e, enc, norm, p, d, done, e.num)
    requires d[0] == LeadDigit(e, enc, kk, p)
    ensures forall i | 0 <= i < |done| :: d[done[i]] == DigitVector(e, enc, norm, kk, p)[done[i]]
  {
    forall i | 0 <= i < |done|
      ensures d[done[i]] == DigitVector(e, enc, norm, kk, p)[done[i]]
    {
      if i > 0 { AllDoneAt(e, enc, norm, p, d, done, e.num, i); }
    }
  }

  lemma {:induction false} GroupsFinished(e: Entry, enc: Scheme, norm: seq<nat>, p: seq<int>, d: seq<nat>,
                                          done: seq<nat>, j: nat)
    requires 0 < j && |norm| == e.num && AllDone(e, enc, norm, p, d, done, e.num)
    ensures RestDone(e, enc, norm, p, d, done, j)
    decreases |done| - j
  {
    if j < |done| {
      AllDoneAt(e, enc, norm, p, d, done, e.num, j);
      GroupsFinished(e, enc, norm, p, d, done, j + 1);
    }
  }

  /** encode for tables without pawns. */
  method EncodePieces(p: array<int>, e: Entry, ei: EncInfo, kk: KingTable) returns (idx: nat, ghost g: Symmetry)
    requires Shape(e, Pieces, ei.norm) && |ei.factor| == e.num == p.Length && NumbersKings(kk)
    requires Input(e, Pieces, p[..])
    modifies p
    ensures Encoded(e, Pieces, ei, kk, old(p[..]), g, p[..], idx)
  {
    g := NormalizePieces(p, Lead(e, Pieces));
    NormalizedLead(e, g, old(p[..]), p[..]);
    var lead := NumberPieces(p, e, kk);
    ghost var run;
    NonNegativeProduct(lead, ei.factor[0]);
    idx, run := EncodeGroups(p, e, Pieces, ei, lead * ei.factor[0]);
    RunEncodes(e, Pieces, ei, kk, First(run).p, run, lead);
  }

  /** Mirrors the leading pawn to the left half and sorts the pawns behind it. */
  method NormalizePawns(p: array<int>, e: Entry, along: PawnEncoding) returns (ghost g: Symmetry)
    requires p.Length == e.num && Input(e, Pawns(along), p[..])
    modifies p
    ensures Placement(e, Pawns(along), p[..]) && CanonicalLead(e, Pawns(along), p[..])
    ensures var q := MoveAll(g, old(p[..]));
            |q| == p.Length && Reordered(q, p[..], 1, e.pawns0)
    ensures PawnBlock(along, p[0]) == PawnBlock(along, old(p[0]))
  {
    ghost var start := p[..];
    ghost var files := false;
    if p[0] % 8 >= 4 {
      files := true;
      MoveInPlace(p, Symmetry(true, false, false));
    }
    g := Symmetry(files, false, false);
    ghost var q := p[..];
    assert q == MoveAll(g, start);
    FlippedPawns(along, files, start, e.pawns0, Base(e, Pawns(along)));
    FlipsIntoRegion(start[0]);
    SameFlap(along, files, start[0]);
    MoveKeepsDistinct(g, start);
    SortGroup(p, 1, e.pawns0, TwistKey(along));
    PawnsInOrder(along, q, p[..], e.pawns0);
    ReorderedPlacement(e, along, q, p[..]);
  }

  lemma ReorderedPlacement(e: Entry, along: PawnEncoding, q: seq<int>, p: seq<int>)
    requires |q| == e.num && AreSquares(q) && Distinct(q)
    requires 1 <= e.pawns0 && Base(e, Pawns(along)) <= e.num && Within(q, Base(e, Pawns(along)), 8, 56)
    requires Reordered(q, p, 1, e.pawns0)
    ensures Placement(e, Pawns(along), p) && Within(p, Base(e, Pawns(along)), 8, 56)
  {
    ReorderedDistinct(q, p, 1, e.pawns0);
    ReorderedWithin(q, p, 1, e.pawns0, |q|, 0, 64);
    ReorderedWithin(q, p, 1, e.pawns0, Base(e, Pawns(along)), 8, 56);
  }

  lemma LeadingMenKept(q: seq<int>, p: seq<int>, k: nat)
    requires 1 <= k && Reordered(q, p, 1, k)
    ensures SameMen(q, p, 0, k)
  {
    forall x
      ensures Count(q, 0, k, x) == Count(p, 0, k, x)
    {
      CountSplit(q, 0, 1, k, x);
      CountSplit(p, 0, 1, k, x);
      CountSame(q, p, 0, 1, x);
    }
  }

  /** encode for tables with pawns. */
  method EncodePawns(p: array<int>, e: Entry, along: PawnEncoding, ei: EncInfo, pawnIdx: seq<nat>, ghost kk: KingTable)
    returns (idx: nat, ghost g: Symmetry)
    requires Shape(e, Pawns(along), ei.norm) && |ei.factor| == e.num == p.Length && NumbersKings(kk)
    requires Input(e, Pawns(along), p[..])
    requires |pawnIdx| == 24 && forall j: nat | j < 24 :: pawnIdx[j] == PawnStart(along, e.pawns0 - 1, j)
    modifies p
    ensures Encoded(e, Pawns(along), ei, kk, old(p[..]), g, p[..], idx)
    ensures BlockIndex(Pawns(along), p[..]) == PawnBlock(along, old(p[0]))
  {
    g := NormalizePawns(p, e, along);
    ghost var q := MoveAll(g, old(p[..]));
    LeadingMenKept(q, p[..], e.pawns0);
    var lead := NumberPawns(p, e.pawns0, along, pawnIdx);
    ghost var run;
    NonNegativeProduct(lead, ei.factor[0]);
    idx, run := EncodeGroups(p, e, Pawns(along), ei, lead * ei.factor[0]);
    RunEncodes(e, Pawns(along), ei, kk, q, run, lead);
  }

  /** Placements of one block encoded to the same index are mirror images of each other, up to the
      order of the men within a group. */
  lemma SameIndexSamePlacement(e: Entry, enc: Scheme, ei: EncInfo, kk: KingTable, slots: seq<nat>,
                               a: seq<int>, g: Symmetry, p: seq<int>, b: seq<int>, h: Symmetry, q: seq<int>, idx: nat)
    requires Encoded(e, enc, ei, kk, a, g, p, idx) && Encoded(e, enc, ei, kk, b, h, q, idx)
    requires BlockIndex(enc, p) == BlockIndex(enc, q) && BlockExists(enc, BlockIndex(enc, p))
    requires Factors(e, enc, ei, BlockIndex(enc, p), slots)
    ensures SameGroups(e, enc, ei.norm, MoveAll(g, a), MoveAll(h, b))
    ensures idx < TableSize(e, enc, ei, BlockIndex(enc, p), slots)
  {
    IndexInjective(e, enc, ei, kk, p, q, slots);
    IndexBound(e, enc, ei, kk, p, slots);
    SameMenThrough(ei.norm, MoveAll(g, a), p, MoveAll(h, b), Starts(e, enc, ei.norm), e.num);
  }

  lemma {:induction false} SameMenThrough(norm: seq<nat>, a: seq<int>, p: seq<int>, b: seq<int>, starts: seq<nat>,
                                          k: nat)
    requires AllSameMen(norm, a, p, starts, k) && AllSameMen(norm, b, p, starts, k)
    ensures AllSameMen(norm, a, b, starts, k)
  {
    if |starts| > 0 {
      SameMenThrough(norm, a, p, b, starts[..|starts| - 1], k);
    }
  }
}
