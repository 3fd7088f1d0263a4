/** Numbering the placements of an endgame table: what the index of a placement is, that it stays
    below the table size, and that no two placements share one. */
module TableIndex {
  import opened Binomials
  import opened PlacementTables
  import opened LeadingMen
  import opened MixedRadix
  import opened FreeSquares

  /** Whether a table is indexed by a leading group of pieces or by leading pawns. */
  datatype Scheme = Pieces | Pawns(along: PawnEncoding)

  /** The material of a table: how many men, whether the kings lead, how many pawns of each colour. */
  datatype Entry = Entry(num: nat, kkEnc: bool, pawns0: nat, pawns1: nat)

  datatype EncInfo = EncInfo(factor: seq<nat>, norm: seq<nat>)

  // ---------- groups of men ----------

  function Lead(e: Entry, enc: Scheme): nat {
    if enc.Pawns? then e.pawns0 else if e.kkEnc then 2 else 3
  }

  predicate MorePawns(e: Entry, enc: Scheme) { enc.Pawns? && e.pawns1 > 0 }

  /** How many men are in the leading group and the second pawns. */
  function Base(e: Entry, enc: Scheme): nat {
    Lead(e, enc) + (if MorePawns(e, enc) then e.pawns1 else 0)
  }

  /** norm partitions the men from k on into groups: it holds each group's size at its first man. */
  ghost predicate Chain(norm: seq<nat>, k: nat)
    decreases |norm| - k
  {
    k == |norm| || (k < |norm| && norm[k] >= 1 && k + norm[k] <= |norm| && Chain(norm, k + norm[k]))
  }

  ghost predicate Shape(e: Entry, enc: Scheme, norm: seq<nat>) {
    && |norm| == e.num <= 7
    && 1 <= Lead(e, enc) && Base(e, enc) <= e.num
    && norm[0] == Lead(e, enc)
    && (MorePawns(e, enc) ==> norm[Lead(e, enc)] == e.pawns1)
    && Chain(norm, Lead(e, enc))
  }

  /** The first men of the groups from man k on. */
  ghost function GroupStarts(norm: seq<nat>, k: nat): (starts: seq<nat>)
    requires Chain(norm, k)
    ensures forall i | 0 <= i < |starts| ::
              k <= starts[i] < |norm| && norm[starts[i]] >= 1 && starts[i] + norm[starts[i]] <= |norm|
    decreases |norm| - k
  {
    if k == |norm| then [] else [k] + GroupStarts(norm, k + norm[k])
  }

  /** The first men of all groups. */
  ghost function Starts(e: Entry, enc: Scheme, norm: seq<nat>): (starts: seq<nat>)
    requires Shape(e, enc, norm)
    ensures forall i | 0 <= i < |starts| :: starts[i] < e.num
  {
    [0] + GroupStarts(norm, Lead(e, enc))
  }

  // ---------- canonical placements ----------

  ghost predicate Ascending(p: seq<int>, lo: nat, hi: nat)
    requires hi <= |p|
  {
    hi <= lo + 1 || (p[hi - 2] < p[hi - 1] && Ascending(p, lo, hi - 1))
  }

  lemma {:induction false} AscendingAt(p: seq<int>, lo: nat, hi: nat, i: nat, j: nat)
    requires hi <= |p| && Ascending(p, lo, hi) && lo <= i < j < hi
    ensures p[i] < p[j]
    decreases hi
  {
    if j < hi - 1 {
      AscendingAt(p, lo, hi - 1, i, j);
    } else if i < hi - 2 {
      AscendingAt(p, lo, hi - 1, i, hi - 2);
    }
  }

  ghost predicate GroupsAscending(norm: seq<nat>, k: nat, p: seq<int>)
    requires Chain(norm, k) && |p| == |norm|
    decreases |norm| - k
  {
    k == |norm| || (Ascending(p, k, k + norm[k]) && GroupsAscending(norm, k + norm[k], p))
  }

  /** The first of the leading men that is off the long diagonal lies below it. */
  ghost predicate FirstOffDiagonalBelow(p: seq<int>, n: nat)
    requires n <= |p|
  {
    forall i | 0 <= i < n && (forall j | 0 <= j < i :: OnDiagonal(p[j])) :: !Above(p[i])
  }

  ghost predicate CanonicalLead(e: Entry, enc: Scheme, p: seq<int>)
    requires |p| == e.num && Lead(e, enc) <= e.num && AreSquares(p)
  {
    match enc
    case Pieces =>
      && e.num >= 1 && p[0] / 8 <= 3 && p[0] % 8 <= 3
      && FirstOffDiagonalBelow(p, Lead(e, enc))
      && (e.kkEnc ==> !Touching(p[0], p[1]))
    case Pawns(along) =>
      && Base(e, enc) <= e.num && (forall i | 0 <= i < Base(e, enc) :: IsPawnSquare(p[i]))
      && LeadingPawns(along, p, e.pawns0)
  }

  /** A placement as encode leaves it: mirrored into the leading region and sorted group by group. */
  ghost predicate Canonical(e: Entry, enc: Scheme, norm: seq<nat>, p: seq<int>)
    requires Shape(e, enc, norm)
  {
    && |p| == e.num && AreSquares(p) && Distinct(p)
    && CanonicalLead(e, enc, p)
    && GroupsAscending(norm, Lead(e, enc), p)
  }

  // ---------- digits ----------

  predicate Within(p: seq<int>, n: nat, lo: int, hi: int)
    requires n <= |p|
  {
    forall i | 0 <= i < n :: lo <= p[i] < hi
  }

  function Clip(x: int): nat { if x < 0 then 0 else x }

  /** The number of a square among the squares from lo on that are not in used. */
  function FreeNumber(used: seq<int>, s: int, lo: int): nat { Clip(s - CountBelow(used, s) - lo) }

  /** The men of one group, numbered among the squares the earlier men left free. */
  ghost function FreeNumbers(p: seq<int>, start: nat, m: nat, lo: int): (v: seq<nat>)
    requires start + m <= |p|
    ensures |v| == m
  {
    if m == 0 then []
    else FreeNumbers(p, start, m - 1, lo) + [FreeNumber(p[..start], p[start + m - 1], lo)]
  }

  lemma {:induction false} FreeNumberAt(p: seq<int>, start: nat, m: nat, lo: int, i: nat)
    requires start + m <= |p| && i < m
    ensures FreeNumbers(p, start, m, lo)[i] == FreeNumber(p[..start], p[start + i], lo)
  {
    if i < m - 1 { FreeNumberAt(p, start, m - 1, lo, i); }
  }

  /** A man's number among the squares the earlier men left is a valid table column. */
  lemma FreeNumberInRange(p: seq<int>, start: nat, i: nat, lo: int, hi: int)
    requires start <= i < |p| && Distinct(p) && Within(p, i + 1, lo, hi)
    ensures Distinct(p[..start]) && p[i] !in p[..start]
    ensures FreeNumber(p[..start], p[i], lo) == p[i] - CountBelow(p[..start], p[i]) - lo < hi - lo - start
  {
    DistinctPrefix(p, start);
    NotInPrefix(p, start, i);
    FreeRankBounds(p[..start], p[i], lo, hi);
  }

  lemma NextNumberLarger(p: seq<int>, start: nat, i: nat, lo: int, hi: int)
    requires start <= i && i + 1 < |p| && Distinct(p) && Within(p, i + 2, lo, hi) && p[i] < p[i + 1]
    ensures FreeNumber(p[..start], p[i], lo) < FreeNumber(p[..start], p[i + 1], lo)
  {
    FreeNumberInRange(p, start, i, lo, hi);
    FreeNumberInRange(p, start, i + 1, lo, hi);
    FreeRankGrows(p[..start], p[i], p[i + 1]);
  }

  lemma {:induction false} FreeNumbersGrow(p: seq<int>, start: nat, m: nat, lo: int, hi: int)
    requires start + m <= |p| && Distinct(p) && Within(p, start + m, lo, hi)
    requires Ascending(p, start, start + m)
    ensures Increasing(FreeNumbers(p, start, m, lo))
    decreases m
  {
    if m > 1 {
      var v := FreeNumbers(p, start, m, lo);
      FreeNumbersGrow(p, start, m - 1, lo, hi);
      assert v[..m - 1] == FreeNumbers(p, start, m - 1, lo);
      NextNumberLarger(p, start, start + m - 2, lo, hi);
      FreeNumberAt(p, start, m, lo, m - 2);
    }
  }

  /** The digit of a group: which subset of the free squares it stands on. */
  ghost function GroupDigit(p: seq<int>, start: nat, m: nat, lo: int): nat
    requires start + m <= |p|
  {
    SubsetNumber(FreeNumbers(p, start, m, lo))
  }

  lemma GroupDigitBound(p: seq<int>, start: nat, m: nat, lo: int, hi: int, free: nat)
    requires start + m <= |p| && Distinct(p) && Within(p, start + m, lo, hi)
    requires Ascending(p, start, start + m) && free == hi - lo - start
    ensures GroupDigit(p, start, m, lo) < Choose(free, m)
  {
    FreeNumbersGrow(p, start, m, lo, hi);
    if m > 0 { FreeNumberInRange(p, start, start + m - 1, lo, hi); }
    SubsetNumberBound(FreeNumbers(p, start, m, lo), free);
  }

  /** With the earlier men known, a group's digit tells where it stands. */
  lemma GroupDigitInjective(p: seq<int>, q: seq<int>, start: nat, m: nat, lo: int, hi: int)
    requires |p| == |q| && start + m <= |p| && Distinct(p) && Distinct(q)
    requires Within(p, start + m, lo, hi) && Within(q, start + m, lo, hi)
    requires Ascending(p, start, start + m) && Ascending(q, start, start + m)
    requires p[..start] == q[..start]
    requires GroupDigit(p, start, m, lo) == GroupDigit(q, start, m, lo)
    ensures p[..start + m] == q[..start + m]
  {
    FreeNumbersGrow(p, start, m, lo, hi);
    FreeNumbersGrow(q, start, m, lo, hi);
    SubsetNumberInjective(FreeNumbers(p, start, m, lo), FreeNumbers(q, start, m, lo));
    forall l | 0 <= l < start + m
      ensures p[l] == q[l]
    {
      if l < start {
        assert p[..start][l] == q[..start][l];
      } else {
        SameNumberSameSquare(p, q, start, m, lo, hi, l);
      }
    }
  }

  lemma SameNumberSameSquare(p: seq<int>, q: seq<int>, start: nat, m: nat, lo: int, hi: int, l: nat)
    requires |p| == |q| && start <= l < start + m <= |p| && Distinct(p) && Distinct(q)
    requires Within(p, start + m, lo, hi) && Within(q, start + m, lo, hi)
    requires p[..start] == q[..start]
    requires FreeNumbers(p, start, m, lo) == FreeNumbers(q, start, m, lo)
    ensures p[l] == q[l]
  {
    var used := p[..start];
    FreeNumberAt(p, start, m, lo, l - start);
    FreeNumberAt(q, start, m, lo, l - start);
    FreeNumberInRange(p, start, l, lo, hi);
    FreeNumberInRange(q, start, l, lo, hi);
    FreeRankGrows(used, if p[l] < q[l] then p[l] else q[l], if p[l] < q[l] then q[l] else p[l]);
  }

  /** The digit of the leading group. */
  ghost function LeadDigit(e: Entry, enc: Scheme, kk: KingTable, p: seq<int>): int
    requires |p| == e.num && 1 <= Lead(e, enc) <= e.num && AreSquares(p) && Distinct(p)
    requires NumbersKings(kk) && CanonicalLead(e, enc, p)
  {
    match enc
    case Pieces =>
      LeadsDiagonally(e, p);
      if e.kkEnc then KingIndex(kk, p[0], p[1]) else ThreeIndex(p[0], p[1], p[2])
    case Pawns(along) => PawnIndex(along, p, e.pawns0)
  }

  /** The block of a pawn table a placement belongs to; tables without pawns have one block. */
  ghost function BlockIndex(enc: Scheme, p: seq<int>): nat
    requires |p| >= 1 && (enc.Pawns? ==> IsPawnSquare(p[0]))
  {
    if enc.Pawns? then PawnBlock(enc.along, p[0]) else 0
  }

  ghost predicate BlockExists(enc: Scheme, t: nat) {
    enc.Pawns? ==> BlockEnd(enc.along, t) < 24
  }

  ghost function LeadSize(e: Entry, enc: Scheme, t: nat): nat
    requires Lead(e, enc) >= 1 && BlockExists(enc, t)
  {
    match enc
    case Pieces => if e.kkEnc then 462 else 31332
    case Pawns(along) => PawnBlockSize(along, e.pawns0 - 1, t)
  }

  lemma LeadDigitBound(e: Entry, enc: Scheme, kk: KingTable, p: seq<int>)
    requires |p| == e.num && 1 <= Lead(e, enc) <= e.num && AreSquares(p) && Distinct(p)
    requires NumbersKings(kk) && CanonicalLead(e, enc, p)
    ensures BlockExists(enc, BlockIndex(enc, p))
    ensures 0 <= LeadDigit(e, enc, kk, p) < LeadSize(e, enc, BlockIndex(enc, p))
  {
    match enc
    case Pieces =>
      LeadsDiagonally(e, p);
      if e.kkEnc {
        assert KingPair(p[0], p[1]);
      } else {
        ThreeIndexRange(p[0], p[1], p[2]);
      }
    case Pawns(along) => PawnIndexBound(along, p, e.pawns0);
  }

  lemma LeadsDiagonally(e: Entry, p: seq<int>)
    requires |p| == e.num && Lead(e, Pieces) <= e.num && AreSquares(p) && Distinct(p)
    requires CanonicalLead(e, Pieces, p)
    ensures e.kkEnc ==> KingPair(p[0], p[1])
    ensures !e.kkEnc ==> LeadingThree(p[0], p[1], p[2])
  {
    assert !Above(p[0]);
    DistinctAt(p, 0, 1);
    if !e.kkEnc {
      DistinctAt(p, 0, 2);
      DistinctAt(p, 1, 2);
    }
  }

  lemma LeadDigitInjective(e: Entry, enc: Scheme, kk: KingTable, p: seq<int>, q: seq<int>)
    requires |p| == |q| == e.num && 1 <= Lead(e, enc) <= e.num
    requires AreSquares(p) && Distinct(p) && AreSquares(q) && Distinct(q)
    requires NumbersKings(kk) && CanonicalLead(e, enc, p) && CanonicalLead(e, enc, q)
    requires BlockIndex(enc, p) == BlockIndex(enc, q)
    requires LeadDigit(e, enc, kk, p) == LeadDigit(e, enc, kk, q)
    ensures p[..Lead(e, enc)] == q[..Lead(e, enc)]
  {
    match enc
    case Pieces =>
      LeadsDiagonally(e, p);
      LeadsDiagonally(e, q);
      if !e.kkEnc {
        ThreeIndexInjective(p[0], p[1], p[2], q[0], q[1], q[2]);
      }
    case Pawns(along) => PawnIndexInjective(along, p, q, e.pawns0);
  }

  /** The squares open to a group: the second pawns stay on ranks 2 to 7. */
  function Lo(e: Entry, enc: Scheme, s: nat): nat {
    if MorePawns(e, enc) && s == Lead(e, enc) then 8 else 0
  }

  function Hi(e: Entry, enc: Scheme, s: nat): nat {
    if MorePawns(e, enc) && s == Lead(e, enc) then 56 else 64
  }

  function Free(e: Entry, enc: Scheme, s: nat): (n: nat)
    requires s <= 7
    ensures n == Hi(e, enc, s) - Lo(e, enc, s) - s
  {
    Hi(e, enc, s) - Lo(e, enc, s) - s
  }

  /** The digit of the group starting at man s. */
  ghost function Digit(e: Entry, enc: Scheme, norm: seq<nat>, kk: KingTable, p: seq<int>, s: nat): int
    requires Shape(e, enc, norm) && Canonical(e, enc, norm, p) && NumbersKings(kk) && s < e.num
  {
    if s == 0 then LeadDigit(e, enc, kk, p)
    else if s + norm[s] > e.num then 0
    else GroupDigit(p, s, norm[s], Lo(e, enc, s))
  }

  /** How many values that digit can take. */
  ghost function Size(e: Entry, enc: Scheme, norm: seq<nat>, t: nat, s: nat): nat
    requires Shape(e, enc, norm) && BlockExists(enc, t) && s < e.num
  {
    if s == 0 then LeadSize(e, enc, t)
    else Choose(Free(e, enc, s), norm[s])
  }

  lemma SecondPawnsWithin(e: Entry, enc: Scheme, norm: seq<nat>, p: seq<int>)
    requires Shape(e, enc, norm) && Canonical(e, enc, norm, p) && MorePawns(e, enc)
    ensures Within(p, Base(e, enc), 8, 56)
  {
  }

  lemma {:induction false} GroupIsAscending(norm: seq<nat>, k: nat, p: seq<int>, i: nat)
    requires Chain(norm, k) && |p| == |norm| && GroupsAscending(norm, k, p)
    requires i < |GroupStarts(norm, k)|
    ensures var s := GroupStarts(norm, k)[i]; s < |norm| && s + norm[s] <= |norm| && Ascending(p, s, s + norm[s])
    decreases |norm| - k
  {
    if i > 0 {
      GroupIsAscending(norm, k + norm[k], p, i - 1);
    }
  }

  /** Every group but the leading one is sorted and stands on the squares open to it. */
  lemma GroupAt(e: Entry, enc: Scheme, norm: seq<nat>, p: seq<int>, i: nat)
    requires Shape(e, enc, norm) && Canonical(e, enc, norm, p) && 0 < i < |Starts(e, enc, norm)|
    ensures var s := Starts(e, enc, norm)[i];
            && 0 < s && s + norm[s] <= e.num
            && Ascending(p, s, s + norm[s])
            && Within(p, s + norm[s], Lo(e, enc, s), Hi(e, enc, s))
  {
    GroupIsAscending(norm, Lead(e, enc), p, i - 1);
    assert Starts(e, enc, norm)[i] == GroupStarts(norm, Lead(e, enc))[i - 1];
    if MorePawns(e, enc) {
      SecondPawnsWithin(e, enc, norm, p);
    }
  }

  ghost function DigitVector(e: Entry, enc: Scheme, norm: seq<nat>, kk: KingTable, p: seq<int>): (v: seq<nat>)
    requires Shape(e, enc, norm) && Canonical(e, enc, norm, p) && NumbersKings(kk)
    ensures |v| == e.num && forall s | 0 <= s < e.num :: v[s] == Digit(e, enc, norm, kk, p, s)
  {
    LeadDigitBound(e, enc, kk, p);
    seq(e.num, s requires 0 <= s < e.num => Digit(e, enc, norm, kk, p, s))
  }

  ghost function SizeVector(e: Entry, enc: Scheme, norm: seq<nat>, t: nat): (v: seq<nat>)
    requires Shape(e, enc, norm) && BlockExists(enc, t)
    ensures |v| == e.num && forall s | 0 <= s < e.num :: v[s] == Size(e, enc, norm, t, s)
  {
    seq(e.num, s requires 0 <= s < e.num => Size(e, enc, norm, t, s))
  }

  lemma DigitFits(e: Entry, enc: Scheme, norm: seq<nat>, kk: KingTable, p: seq<int>, i: nat)
    requires Shape(e, enc, norm) && Canonical(e, enc, norm, p) && NumbersKings(kk) && i < |Starts(e, enc, norm)|
    ensures BlockExists(enc, BlockIndex(enc, p))
    ensures var s := Starts(e, enc, norm)[i];
            Digit(e, enc, norm, kk, p, s) < Size(e, enc, norm, BlockIndex(enc, p), s)
  {
    LeadDigitBound(e, enc, kk, p);
    var s := Starts(e, enc, norm)[i];
    if i > 0 {
      GroupAt(e, enc, norm, p, i);
      GroupDigitBound(p, s, norm[s], Lo(e, enc, s), Hi(e, enc, s), Free(e, enc, s));
    }
  }

  lemma AllDigitsFit(e: Entry, enc: Scheme, norm: seq<nat>, kk: KingTable, p: seq<int>)
    requires Shape(e, enc, norm) && Canonical(e, enc, norm, p) && NumbersKings(kk)
    ensures BlockExists(enc, BlockIndex(enc, p))
    ensures DigitsFit(Starts(e, enc, norm), DigitVector(e, enc, norm, kk, p),
                      SizeVector(e, enc, norm, BlockIndex(enc, p)))
  {
    LeadDigitBound(e, enc, kk, p);
    forall i | 0 <= i < |Starts(e, enc, norm)|
      ensures var s := Starts(e, enc, norm)[i];
              Digit(e, enc, norm, kk, p, s) < Size(e, enc, norm, BlockIndex(enc, p), s)
    {
      DigitFits(e, enc, norm, kk, p, i);
    }
  }

  // ---------- the index ----------

  /** The index of a canonical placement in the table of its block: each group's digit times the
      group's factor. */
  ghost function Index(e: Entry, enc: Scheme, ei: EncInfo, kk: KingTable, p: seq<int>): nat
    requires Shape(e, enc, ei.norm) && |ei.factor| == e.num
    requires Canonical(e, enc, ei.norm, p) && NumbersKings(kk)
  {
    Weighted(Starts(e, enc, ei.norm), DigitVector(e, enc, ei.norm, kk, p), ei.factor)
  }

  /** The factors belong to the table of block t: slots lists the groups by significance. */
  ghost predicate Factors(e: Entry, enc: Scheme, ei: EncInfo, t: nat, slots: seq<nat>)
    requires Shape(e, enc, ei.norm) && BlockExists(enc, t)
  {
    Layout(Starts(e, enc, ei.norm), slots, SizeVector(e, enc, ei.norm, t), ei.factor)
  }

  ghost function TableSize(e: Entry, enc: Scheme, ei: EncInfo, t: nat, slots: seq<nat>): nat
    requires Shape(e, enc, ei.norm) && BlockExists(enc, t) && Factors(e, enc, ei, t, slots)
  {
    Product(Pick(SizeVector(e, enc, ei.norm, t), slots))
  }

  /** Every canonical placement has an index below the table size. */
  lemma IndexBound(e: Entry, enc: Scheme, ei: EncInfo, kk: KingTable, p: seq<int>, slots: seq<nat>)
    requires Shape(e, enc, ei.norm) && Canonical(e, enc, ei.norm, p) && NumbersKings(kk)
    requires BlockExists(enc, BlockIndex(enc, p)) && Factors(e, enc, ei, BlockIndex(enc, p), slots)
    ensures Index(e, enc, ei, kk, p) < TableSize(e, enc, ei, BlockIndex(enc, p), slots)
  {
    AllDigitsFit(e, enc, ei.norm, kk, p);
    WeightedBound(Starts(e, enc, ei.norm), slots, SizeVector(e, enc, ei.norm, BlockIndex(enc, p)), ei.factor,
                  DigitVector(e, enc, ei.norm, kk, p));
  }

  /** Two canonical placements of the same block with the same index are the same placement. */
  lemma IndexInjective(e: Entry, enc: Scheme, ei: EncInfo, kk: KingTable, p: seq<int>, q: seq<int>, slots: seq<nat>)
    requires Shape(e, enc, ei.norm) && NumbersKings(kk)
    requires Canonical(e, enc, ei.norm, p) && Canonical(e, enc, ei.norm, q)
    requires BlockIndex(enc, p) == BlockIndex(enc, q) && BlockExists(enc, BlockIndex(enc, p))
    requires Factors(e, enc, ei, BlockIndex(enc, p), slots)
    requires Index(e, enc, ei, kk, p) == Index(e, enc, ei, kk, q)
    ensures p == q
  {
    AllDigitsFit(e, enc, ei.norm, kk, p);
    AllDigitsFit(e, enc, ei.norm, kk, q);
    WeightedInjective(Starts(e, enc, ei.norm), slots, SizeVector(e, enc, ei.norm, BlockIndex(enc, p)), ei.factor,
                      DigitVector(e, enc, ei.norm, kk, p), DigitVector(e, enc, ei.norm, kk, q));
    SameDigitsSamePlacement(e, enc, ei.norm, kk, p, q);
  }

  /** p and q agree on the men up to the end of the group starting at man s. */
  ghost predicate AgreeThrough(norm: seq<nat>, p: seq<int>, q: seq<int>, s: nat)
    requires |p| == |q| == |norm|
  {
    s < |norm| && s + norm[s] <= |norm| && p[..s + norm[s]] == q[..s + norm[s]]
  }

  lemma {:induction false} AgreeEverywhere(norm: seq<nat>, p: seq<int>, q: seq<int>, all: seq<nat>, i: nat)
    requires |p| == |q| == |norm| && i < |all| && AgreeThrough(norm, p, q, all[0])
    requires forall j: nat | 0 < j < |all| && AgreeThrough(norm, p, q, all[j - 1]) :: AgreeThrough(norm, p, q, all[j])
    ensures AgreeThrough(norm, p, q, all[i])
  {
    if i > 0 {
      AgreeEverywhere(norm, p, q, all, i - 1);
    }
  }

  /** Each group starts where the one before it ends. */
  lemma StartsFollow(e: Entry, enc: Scheme, norm: seq<nat>, i: nat)
    requires Shape(e, enc, norm) && 0 < i < |Starts(e, enc, norm)|
    ensures var a := Starts(e, enc, norm); a[i] == a[i - 1] + norm[a[i - 1]]
  {
    var groups := GroupStarts(norm, Lead(e, enc));
    assert Starts(e, enc, norm)[i] == groups[i - 1];
    if i > 1 {
      assert Starts(e, enc, norm)[i - 1] == groups[i - 2];
      GroupsFollow(norm, Lead(e, enc), i - 1);
    }
  }

  lemma {:induction false} GroupsFollow(norm: seq<nat>, k: nat, i: nat)
    requires Chain(norm, k) && 0 < i < |GroupStarts(norm, k)|
    ensures var a := GroupStarts(norm, k); a[i] == a[i - 1] + norm[a[i - 1]]
    decreases |norm| - k
  {
    if i > 1 {
      GroupsFollow(norm, k + norm[k], i - 1);
    }
  }

  /** The last group ends with the last man. */
  lemma StartsCover(e: Entry, enc: Scheme, norm: seq<nat>)
    requires Shape(e, enc, norm)
    ensures var a := Starts(e, enc, norm); a[|a| - 1] + norm[a[|a| - 1]] == e.num
  {
    if Lead(e, enc) < e.num {
      GroupsCover(norm, Lead(e, enc));
    }
  }

  lemma {:induction false} GroupsCover(norm: seq<nat>, k: nat)
    requires Chain(norm, k) && k < |norm|
    ensures var a := GroupStarts(norm, k); |a| > 0 && a[|a| - 1] + norm[a[|a| - 1]] == |norm|
    decreases |norm| - k
  {
    if k + norm[k] < |norm| {
      GroupsCover(norm, k + norm[k]);
    }
  }

  lemma DigitIsGroupDigit(e: Entry, enc: Scheme, norm: seq<nat>, kk: KingTable, p: seq<int>, j: nat)
    requires Shape(e, enc, norm) && NumbersKings(kk) && 0 < j < |Starts(e, enc, norm)|
    requires Canonical(e, enc, norm, p)
    ensures var s := Starts(e, enc, norm)[j];
            && s + norm[s] <= e.num && Ascending(p, s, s + norm[s])
            && Within(p, s + norm[s], Lo(e, enc, s), Hi(e, enc, s))
            && Digit(e, enc, norm, kk, p, s) == GroupDigit(p, s, norm[s], Lo(e, enc, s))
  {
    GroupAt(e, enc, norm, p, j);
  }

  lemma GroupAgrees(norm: seq<nat>, p: seq<int>, q: seq<int>, a: nat, s: nat, lo: int, hi: int)
    requires |p| == |q| == |norm| && AgreeThrough(norm, p, q, a)
    requires s == a + norm[a] && s < |norm| && s + norm[s] <= |norm|
    requires Distinct(p) && Distinct(q) && Within(p, s + norm[s], lo, hi) && Within(q, s + norm[s], lo, hi)
    requires Ascending(p, s, s + norm[s]) && Ascending(q, s, s + norm[s])
    requires GroupDigit(p, s, norm[s], lo) == GroupDigit(q, s, norm[s], lo)
    ensures AgreeThrough(norm, p, q, s)
  {
    GroupDigitInjective(p, q, s, norm[s], lo, hi);
  }

  lemma NextGroupAgrees(e: Entry, enc: Scheme, norm: seq<nat>, kk: KingTable, p: seq<int>, q: seq<int>, j: nat)
    requires Shape(e, enc, norm) && NumbersKings(kk) && 0 < j < |Starts(e, enc, norm)|
    requires Canonical(e, enc, norm, p) && Canonical(e, enc, norm, q)
    requires AgreeThrough(norm, p, q, Starts(e, enc, norm)[j - 1])
    requires var s := Starts(e, enc, norm)[j]; Digit(e, enc, norm, kk, p, s) == Digit(e, enc, norm, kk, q, s)
    ensures AgreeThrough(norm, p, q, Starts(e, enc, norm)[j])
  {
    var s := Starts(e, enc, norm)[j];
    StartsFollow(e, enc, norm, j);
    DigitIsGroupDigit(e, enc, norm, kk, p, j);
    DigitIsGroupDigit(e, enc, norm, kk, q, j);
    GroupAgrees(norm, p, q, Starts(e, enc, norm)[j - 1], s, Lo(e, enc, s), Hi(e, enc, s));
  }

  lemma SameDigitsSamePlacement(e: Entry, enc: Scheme, norm: seq<nat>, kk: KingTable, p: seq<int>, q: seq<int>)
    requires Shape(e, enc, norm) && NumbersKings(kk)
    requires Canonical(e, enc, norm, p) && Canonical(e, enc, norm, q) && BlockIndex(enc, p) == BlockIndex(enc, q)
    requires forall i | 0 <= i < |Starts(e, enc, norm)| ::
               var s := Starts(e, enc, norm)[i]; Digit(e, enc, norm, kk, p, s) == Digit(e, enc, norm, kk, q, s)
    ensures p == q
  {
    var all := Starts(e, enc, norm);
    forall j: nat | 0 < j < |all| && AgreeThrough(norm, p, q, all[j - 1])
      ensures AgreeThrough(norm, p, q, all[j])
    {
      NextGroupAgrees(e, enc, norm, kk, p, q, j);
    }
    assert all[0] == 0;
    LeadAgrees(e, enc, norm, kk, p, q);
    AgreeEverywhere(norm, p, q, all, |all| - 1);
    AgreeOnAll(e, enc, norm, p, q);
  }

  lemma LeadAgrees(e: Entry, enc: Scheme, norm: seq<nat>, kk: KingTable, p: seq<int>, q: seq<int>)
    requires Shape(e, enc, norm) && NumbersKings(kk)
    requires Canonical(e, enc, norm, p) && Canonical(e, enc, norm, q) && BlockIndex(enc, p) == BlockIndex(enc, q)
    requires Digit(e, enc, norm, kk, p, 0) == Digit(e, enc, norm, kk, q, 0)
    ensures Starts(e, enc, norm)[0] == 0 && AgreeThrough(norm, p, q, 0)
  {
    LeadDigitInjective(e, enc, kk, p, q);
  }

  lemma AgreeOnAll(e: Entry, enc: Scheme, norm: seq<nat>, p: seq<int>, q: seq<int>)
    requires Shape(e, enc, norm) && |p| == |q| == |norm|
    requires AgreeThrough(norm, p, q, Starts(e, enc, norm)[|Starts(e, enc, norm)| - 1])
    ensures p == q
  {
    StartsCover(e, enc, norm);
    assert p[..e.num] == p && q[..e.num] == q;
  }
}
