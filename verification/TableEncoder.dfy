/** The in-place computation of a table index: mirroring, sorting and numbering the men. */
module TableEncoder {
  import opened Binomials
  import opened PlacementTables
  import opened LeadingMen
  import opened MixedRadix
  import opened FreeSquares
  import opened TableIndex

  // ---------- moving all men ----------

  method MoveInPlace(p: array<int>, g: Symmetry)
    requires AreSquares(p[..])
    modifies p
    ensures p[..] == MoveAll(g, old(p[..]))
  {
    for i := 0 to p.Length
      invariant forall j | 0 <= j < i :: p[j] == Move(g, old(p[j]))
      invariant forall j | i <= j < p.Length :: p[j] == old(p[j])
    {
      assert IsSquare(old(p[..])[i]);
      p[i] := Move(g, p[i]);
    }
  }

  lemma MoveComposes(files: bool, ranks: bool, diagonal: bool, p: seq<int>)
    requires AreSquares(p)
    ensures MoveAll(Symmetry(false, false, diagonal),
                    MoveAll(Symmetry(false, ranks, false), MoveAll(Symmetry(files, false, false), p)))
         == MoveAll(Symmetry(files, ranks, diagonal), p)
  {
  }

  lemma MoveKeepsDistinct(g: Symmetry, p: seq<int>)
    requires AreSquares(p) && Distinct(p)
    ensures Distinct(MoveAll(g, p))
  {
    forall i, j | 0 <= i < j < |p|
      ensures Move(g, p[i]) != Move(g, p[j])
    {
      DistinctAt(p, i, j);
      if Move(g, p[i]) == Move(g, p[j]) { MoveInjective(g, p[i], p[j]); }
    }
    DistinctFromPairs(MoveAll(g, p));
  }

  lemma FlipsIntoRegion(s: int)
    requires IsSquare(s)
    ensures s % 8 >= 4 ==> FlipFile(s) % 8 <= 3 && FlipFile(s) / 8 == s / 8
    ensures s / 8 >= 4 ==> FlipRank(s) / 8 <= 3 && FlipRank(s) % 8 == s % 8
    ensures IsPawnSquare(s) ==> IsPawnSquare(FlipFile(s))
  {
  }

  lemma TransposeSwapsSides(s: int)
    requires IsSquare(s)
    ensures Above(Transpose(s)) <==> Below(s)
    ensures Below(Transpose(s)) <==> Above(s)
    ensures Transpose(s) / 8 == s % 8 && Transpose(s) % 8 == s / 8
  {
  }

  lemma FlipsKeepApart(s: int, t: int)
    requires IsSquare(s) && IsSquare(t)
    ensures Touching(FlipFile(s), FlipFile(t)) <==> Touching(s, t)
    ensures Touching(FlipRank(s), FlipRank(t)) <==> Touching(s, t)
    ensures Touching(Transpose(s), Transpose(t)) <==> Touching(s, t)
  {
    SymmetryCoordinates(s);
    SymmetryCoordinates(t);
  }

  lemma MoveKeepsApart(g: Symmetry, s: int, t: int)
    requires IsSquare(s) && IsSquare(t)
    ensures Touching(Move(g, s), Move(g, t)) <==> Touching(s, t)
  {
    var a, b := MaybeFlipFile(g, s), MaybeFlipFile(g, t);
    FlipsKeepApart(s, t);
    FlipsKeepApart(a, b);
    FlipsKeepApart(MaybeFlipRank(g, a), MaybeFlipRank(g, b));
  }

  /** Mirrors a placement so that its first man is in the triangle a1-d1-d4, and the first leading
      man off the diagonal is below it. */
  method NormalizePieces(p: array<int>, lead: nat) returns (ghost g: Symmetry)
    requires 1 <= lead <= p.Length && AreSquares(p[..])
    modifies p
    ensures p[..] == MoveAll(g, old(p[..]))
    ensures p[0] / 8 <= 3 && p[0] % 8 <= 3 && FirstOffDiagonalBelow(p[..], lead)
  {
    ghost var start := p[..];
    ghost var files, ranks, diagonal := false, false, false;
    FlipsIntoRegion(p[..][0]);
    if p[0] % 8 >= 4 {
      files := true;
      MoveInPlace(p, Symmetry(true, false, false));
    }
    assert p[..] == MoveAll(Symmetry(files, false, false), start);
    ghost var mid := p[..];
    FlipsIntoRegion(p[..][0]);
    if p[0] / 8 >= 4 {
      ranks := true;
      MoveInPlace(p, Symmetry(false, true, false));
    }
    assert p[..] == MoveAll(Symmetry(false, ranks, false), mid);
    ghost var before := p[..];
    diagonal := FoldDiagonal(p, lead);
    MoveComposes(files, ranks, diagonal, start);
    TransposeSwapsSides(before[0]);
    g := Symmetry(files, ranks, diagonal);
  }

  /** The transposed square, from the table. */
  method FlipDiagSquare(s: int) returns (t: int)
    requires IsSquare(s)
    ensures t == Move(Symmetry(false, false, true), s)
  {
    FlipDiagTransposes(s);
    t := At(FLIP_DIAG, s);
  }

  method TransposeInPlace(p: array<int>)
    requires AreSquares(p[..])
    modifies p
    ensures p[..] == MoveAll(Symmetry(false, false, true), old(p[..]))
  {
    for j := 0 to p.Length
      invariant forall i | 0 <= i < j :: p[i] == Move(Symmetry(false, false, true), old(p[i]))
      invariant forall i | j <= i < p.Length :: p[i] == old(p[i])
    {
      assert IsSquare(old(p[..])[j]);
      p[j] := FlipDiagSquare(p[j]);
    }
  }

  method FoldDiagonal(p: array<int>, lead: nat) returns (diagonal: bool)
    requires 1 <= lead <= p.Length && AreSquares(p[..])
    modifies p
    ensures p[..] == MoveAll(Symmetry(false, false, diagonal), old(p[..]))
    ensures FirstOffDiagonalBelow(p[..], lead)
  {
    diagonal := false;
    ghost var start := p[..];
    for i := 0 to p.Length
      invariant p[..] == start && !diagonal
      invariant forall j | 0 <= j < i :: OnDiagonal(p[j])
    {
      assert IsSquare(start[i]);
      OffDiagSign(p[i]);
      if At(OFF_DIAG, p[i]) != 0 {
        if At(OFF_DIAG, p[i]) > 0 && i < lead {
          TransposeInPlace(p);
          diagonal := true;
          forall j | 0 <= j <= i
            ensures Below(p[j]) <==> Above(start[j])
          {
            TransposeSwapsSides(start[j]);
          }
        }
        return;
      }
    }
  }

  // ---------- sorting a group ----------

  predicate SortedBy(key: int -> int, p: seq<int>, lo: nat, hi: nat)
    requires hi <= |p|
  {
    forall i, j | lo <= i < j < hi :: key(p[i]) <= key(p[j])
  }

  /** The same men, in some order, stand on both sides from lo to hi - 1. */
  ghost predicate SameMen(a: seq<int>, b: seq<int>, lo: nat, hi: nat) {
    lo <= hi <= |a| == |b| && forall x :: Count(a, lo, hi, x) == Count(b, lo, hi, x)
  }

  lemma SwapKeepsMen(a: seq<int>, b: seq<int>, lo: nat, hi: nat, i: nat, j: nat)
    requires |a| == |b| && lo <= i < j < hi <= |a|
    requires b == a[i := a[j]][j := a[i]]
    ensures SameMen(a, b, lo, hi)
  {
    forall x
      ensures Count(a, lo, hi, x) == Count(b, lo, hi, x)
    {
      CountUpdated(a, lo, hi, x, i, a[j]);
      CountUpdated(a[i := a[j]], lo, hi, x, j, a[i]);
    }
  }

  /** The men before i are no larger than any man behind them. */
  predicate Settled(key: int -> int, p: seq<int>, lo: nat, i: nat, hi: nat)
    requires hi <= |p|
  {
    forall x, y | lo <= x < i && x < y < hi :: key(p[x]) <= key(p[y])
  }

  /** b is a with the men from lo to hi - 1 in some order. */
  ghost predicate Reordered(a: seq<int>, b: seq<int>, lo: nat, hi: nat) {
    && SameMen(a, b, lo, hi)
    && forall i | 0 <= i < |a| && !(lo <= i < hi) :: b[i] == a[i]
  }

  method ExchangeIfLarger(p: array<int>, lo: nat, hi: nat, i: nat, j: nat, key: int -> int)
    requires lo <= i < j < hi <= p.Length && Settled(key, p[..], lo, i, hi)
    requires forall y | i < y < j :: key(p[i]) <= key(p[y])
    modifies p
    ensures Reordered(old(p[..]), p[..], lo, hi)
    ensures Settled(key, p[..], lo, i, hi)
    ensures forall y | i < y <= j :: key(p[i]) <= key(p[y])
  {
    if key(p[i]) > key(p[j]) {
      ghost var before := p[..];
      p[i], p[j] := p[j], p[i];
      assert p[..] == before[i := before[j]][j := before[i]];
      SwapKeepsMen(before, p[..], lo, hi, i, j);
    }
  }

  method SettleOne(p: array<int>, lo: nat, hi: nat, i: nat, key: int -> int)
    requires lo <= i < hi <= p.Length && Settled(key, p[..], lo, i, hi)
    modifies p
    ensures Reordered(old(p[..]), p[..], lo, hi)
    ensures Settled(key, p[..], lo, i + 1, hi)
  {
    for j := i + 1 to hi
      invariant Reordered(old(p[..]), p[..], lo, hi)
      invariant Settled(key, p[..], lo, i, hi)
      invariant forall y | i < y < j :: key(p[i]) <= key(p[y])
    {
      ExchangeIfLarger(p, lo, hi, i, j, key);
    }
  }

  /** Exchange sort of the men from lo to hi - 1, smallest key first. */
  method SortGroup(p: array<int>, lo: nat, hi: nat, key: int -> int)
    requires lo <= hi <= p.Length
    modifies p
    ensures Reordered(old(p[..]), p[..], lo, hi)
    ensures SortedBy(key, p[..], lo, hi)
  {
    for i := lo to hi
      invariant Reordered(old(p[..]), p[..], lo, hi)
      invariant Settled(key, p[..], lo, i, hi)
    {
      SettleOne(p, lo, hi, i, key);
    }
  }

  // ---------- what reordering keeps ----------

  lemma ReorderedDistinct(a: seq<int>, b: seq<int>, lo: nat, hi: nat)
    requires Reordered(a, b, lo, hi)
    ensures Distinct(a) <==> Distinct(b)
  {
    forall x
      ensures Count(a, 0, |a|, x) == Count(b, 0, |b|, x)
    {
      CountSplit(a, 0, lo, |a|, x); CountSplit(a, lo, hi, |a|, x);
      CountSplit(b, 0, lo, |b|, x); CountSplit(b, lo, hi, |b|, x);
      CountSame(a, b, 0, lo, x); CountSame(a, b, hi, |a|, x);
    }
  }

  lemma ReorderedWithin(a: seq<int>, b: seq<int>, lo: nat, hi: nat, n: nat, x: int, y: int)
    requires Reordered(a, b, lo, hi) && hi <= n <= |a| && Within(a, n, x, y)
    ensures Within(b, n, x, y)
  {
    forall i | 0 <= i < n
      ensures x <= b[i] < y
    {
      if lo <= i < hi {
        Counted(b, lo, hi, i);
        var j := FindCounted(a, lo, hi, b[i]);
      }
    }
  }

  // ---------- numbering a group ----------

  method CountSkips(p: array<int>, k: nat, sq: int) returns (skips: nat)
    requires k <= p.Length
    ensures skips == CountBelow(p[..k], sq)
  {
    skips := 0;
    for j := 0 to k
      invariant skips == CountBelow(p[..j], sq)
    {
      assert p[..j + 1][..j] == p[..j];
      skips := skips + (if sq > p[j] then 1 else 0);
    }
  }

  lemma NumberStep(q: seq<int>, k: nat, m: nat, lo: int)
    requires k + m < |q|
    ensures GroupDigit(q, k, m + 1, lo) == GroupDigit(q, k, m, lo) + Choose(FreeNumber(q[..k], q[k + m], lo), m + 1)
  {
    SubsetNumberSnoc(FreeNumbers(q, k, m, lo), FreeNumber(q[..k], q[k + m], lo));
  }

  lemma SubsetNumberSnoc(v: seq<nat>, n: nat)
    ensures SubsetNumber(v + [n]) == SubsetNumber(v) + Choose(n, |v| + 1)
  {
    assert (v + [n])[..|v|] == v;
  }

  /** The sum of binomials over a sorted group. */
  method NumberGroup(p: array<int>, k: nat, m: nat, lo: nat, ghost hi: nat) returns (s: nat)
    requires k + m <= p.Length && Distinct(p[..]) && Within(p[..], k + m, lo, hi)
    ensures s == GroupDigit(p[..], k, m, lo)
  {
    s := 0;
    for i := k to k + m
      invariant s == GroupDigit(p[..], k, i - k, lo)
    {
      var skips := CountSkips(p, k, p[i]);
      assert p[..][..k] == p[..k] && p[..][i] == p[i];
      FreeNumberInRange(p[..], k, i, lo, hi);
      NumberStep(p[..], k, i - k, lo);
      s := s + Choose(p[i] - skips - lo, i - k + 1);
    }
  }

  // ---------- numbering all groups ----------

  /** The group starting at man s is sorted, stands where it may, and d holds its digit. */
  ghost predicate GroupDone(e: Entry, enc: Scheme, norm: seq<nat>, p: seq<int>, d: seq<nat>, s: nat, k: nat) {
    && |p| == |d| == |norm| == e.num && Distinct(p)
    && 0 < s < e.num && s < k && s + norm[s] <= k <= e.num
    && Ascending(p, s, s + norm[s])
    && Within(p, s + norm[s], Lo(e, enc, s), Hi(e, enc, s))
    && d[s] == GroupDigit(p, s, norm[s], Lo(e, enc, s))
  }

  lemma {:induction false} FreeNumbersOfPrefix(p: seq<int>, q: seq<int>, start: nat, m: nat, lo: int)
    requires start + m <= |p| && start + m <= |q| && p[..start + m] == q[..start + m]
    ensures FreeNumbers(p, start, m, lo) == FreeNumbers(q, start, m, lo)
  {
    assert p[..start] == p[..start + m][..start] == q[..start];
    if m > 0 {
      assert p[..start + m - 1] == p[..start + m][..start + m - 1] == q[..start + m - 1];
      assert p[start + m - 1] == p[..start + m][start + m - 1] == q[start + m - 1];
      FreeNumbersOfPrefix(p, q, start, m - 1, lo);
    }
  }

  lemma {:induction false} AscendingOfPrefix(p: seq<int>, q: seq<int>, lo: nat, hi: nat)
    requires hi <= |p| && hi <= |q| && Ascending(p, lo, hi) && forall i | 0 <= i < hi :: p[i] == q[i]
    ensures Ascending(q, lo, hi)
    decreases hi
  {
    if hi > lo + 1 { AscendingOfPrefix(p, q, lo, hi - 1); }
  }

  /** Reordering later men leaves a finished group finished. */
  lemma GroupStaysDone(e: Entry, enc: Scheme, norm: seq<nat>, p: seq<int>, q: seq<int>, d: seq<nat>, f: seq<nat>,
                       s: nat, k: nat, k': nat)
    requires GroupDone(e, enc, norm, p, d, s, k) && k <= k' <= |p| && Reordered(p, q, k, k')
    requires |f| == |d| && f[s] == d[s]
    ensures GroupDone(e, enc, norm, q, f, s, k')
  {
    ReorderedDistinct(p, q, k, k');
    var n := s + norm[s];
    assert p[..n] == q[..n];
    FreeNumbersOfPrefix(p, q, s, norm[s], Lo(e, enc, s));
    AscendingOfPrefix(p, q, s, n);
  }

  /** The groups in rest, the last of all, are finished. */
  ghost predicate RestDone(e: Entry, enc: Scheme, norm: seq<nat>, p: seq<int>, d: seq<nat>, all: seq<nat>, j: nat)
    decreases |all| - j
  {
    j >= |all| || (GroupDone(e, enc, norm, p, d, all[j], |norm|) && RestDone(e, enc, norm, p, d, all, j + 1))
  }

  lemma {:induction false} FinishedGroupsAscend(e: Entry, enc: Scheme, norm: seq<nat>, p: seq<int>, d: seq<nat>,
                                                all: seq<nat>, j: nat, k: nat)
    requires Chain(norm, k) && |p| == |norm| && j <= |all| && all[j..] == GroupStarts(norm, k)
    requires RestDone(e, enc, norm, p, d, all, j)
    ensures GroupsAscending(norm, k, p)
    decreases |norm| - k
  {
    if k < |norm| {
      assert all[j] == all[j..][0] == k;
      assert all[j + 1..] == all[j..][1..];
      FinishedGroupsAscend(e, enc, norm, p, d, all, j + 1, k + norm[k]);
    }
  }

  /** How far the encoder has got: the groups in done are numbered, the men from k on untouched. */
  ghost predicate Progress(e: Entry, enc: Scheme, ei: EncInfo, q: seq<int>, p: seq<int>, d: seq<nat>, done: seq<nat>,
                           k: nat, idx: nat)
  {
    && StartsDone(e, enc, ei.norm, done, k)
    && |p| == |d| == |ei.factor| == e.num
    && MenDone(e, enc, ei.norm, q, p, d, done, k)
    && idx == Weighted(done, d, ei.factor)
  }

  /** The men of the groups in done are sorted and numbered, those from k on as they were. */
  ghost predicate MenDone(e: Entry, enc: Scheme, norm: seq<nat>, q: seq<int>, p: seq<int>, d: seq<nat>,
                          done: seq<nat>, k: nat) {
    && |p| == |q| && AreSquares(p) && Distinct(p)
    && AllDone(e, enc, norm, p, d, done, k)
    && AllSameMen(norm, q, p, done, k) && (forall i | k <= i < |p| :: p[i] == q[i])
  }

  /** done lists the groups before man k, and the next group starts there. */
  ghost predicate StartsDone(e: Entry, enc: Scheme, norm: seq<nat>, done: seq<nat>, k: nat) {
    && Shape(e, enc, norm) && Lead(e, enc) <= k <= e.num && Chain(norm, k)
    && |done| > 0 && done[0] == 0 && done + GroupStarts(norm, k) == Starts(e, enc, norm)
    && forall i | 0 <= i < |done| :: done[i] < k
  }

  lemma Regroup(done: seq<nat>, k: nat, rest: seq<nat>)
    ensures done + [k] + rest == done + ([k] + rest)
  {
  }

  lemma StartsDoneStep(e: Entry, enc: Scheme, norm: seq<nat>, done: seq<nat>, k: nat)
    requires StartsDone(e, enc, norm, done, k) && k < e.num
    ensures StartsDone(e, enc, norm, done + [k], k + norm[k])
  {
    Regroup(done, k, GroupStarts(norm, k + norm[k]));
  }

  lemma SameMenStay(q: seq<int>, p: seq<int>, r: seq<int>, lo: nat, hi: nat, k: nat, k': nat)
    requires SameMen(q, p, lo, hi) && hi <= k && Reordered(p, r, k, k')
    ensures SameMen(q, r, lo, hi)
  {
    forall x
      ensures Count(q, lo, hi, x) == Count(r, lo, hi, x)
    {
      CountSame(p, r, lo, hi, x);
    }
  }

  /** All groups in done but the leading one are finished. */
  ghost predicate AllDone(e: Entry, enc: Scheme, norm: seq<nat>, p: seq<int>, d: seq<nat>, done: seq<nat>, k: nat) {
    |done| <= 1 ||
    (var n := |done| - 1; GroupDone(e, enc, norm, p, d, done[n], k) && AllDone(e, enc, norm, p, d, done[..n], k))
  }

  lemma {:induction false} AllStayDone(e: Entry, enc: Scheme, norm: seq<nat>, p: seq<int>, r: seq<int>, d: seq<nat>,
                                       f: seq<nat>, done: seq<nat>, k: nat, k': nat)
    requires AllDone(e, enc, norm, p, d, done, k) && k <= k' <= |p| && Reordered(p, r, k, k')
    requires |f| == |d| && forall i | 0 <= i < k && i < |d| :: f[i] == d[i]
    ensures AllDone(e, enc, norm, r, f, done, k')
  {
    if |done| > 1 {
      var n := |done| - 1;
      GroupStaysDone(e, enc, norm, p, r, d, f, done[n], k, k');
      AllStayDone(e, enc, norm, p, r, d, f, done[..n], k, k');
    }
  }

  lemma {:induction false} AllDoneAt(e: Entry, enc: Scheme, norm: seq<nat>, p: seq<int>, d: seq<nat>, done: seq<nat>,
                                     k: nat, i: nat)
    requires AllDone(e, enc, norm, p, d, done, k) && 0 < i < |done|
    ensures GroupDone(e, enc, norm, p, d, done[i], k)
  {
    if i < |done| - 1 {
      AllDoneAt(e, enc, norm, p, d, done[..|done| - 1], k, i);
    }
  }

  /** Every group in done still consists of the men it had in q. */
  ghost predicate AllSameMen(norm: seq<nat>, q: seq<int>, p: seq<int>, done: seq<nat>, k: nat) {
    |done| == 0 ||
    (var n := |done| - 1;
     && done[n] < |norm| && done[n] + norm[done[n]] <= k && SameMen(q, p, done[n], done[n] + norm[done[n]])
     && AllSameMen(norm, q, p, done[..n], k))
  }

  lemma {:induction false} AllSameMenStay(norm: seq<nat>, q: seq<int>, p: seq<int>, r: seq<int>, done: seq<nat>,
                                          k: nat, k': nat)
    requires AllSameMen(norm, q, p, done, k) && k <= k' && Reordered(p, r, k, k')
    ensures AllSameMen(norm, q, r, done, k')
  {
    if |done| > 0 {
      var n := |done| - 1;
      SameMenStay(q, p, r, done[n], done[n] + norm[done[n]], k, k');
      AllSameMenStay(norm, q, p, r, done[..n], k, k');
    }
  }

  lemma NextSameMen(norm: seq<nat>, q: seq<int>, p: seq<int>, r: seq<int>, k: nat, k': nat)
    requires k <= k' <= |p| == |q| && Reordered(p, r, k, k') && forall i | k <= i < |p| :: p[i] == q[i]
    ensures SameMen(q, r, k, k') && forall i | k' <= i < |r| :: r[i] == q[i]
  {
    forall x
      ensures Count(q, k, k', x) == Count(r, k, k', x)
    {
      CountSame(q, p, k, k', x);
    }
  }

  lemma NextDigit(done: seq<nat>, k: nat, d: seq<nat>, s: nat, factor: seq<nat>)
    requires |d| == |factor| && k < |d| && forall i | 0 <= i < |done| :: done[i] < k
    ensures Weighted(done + [k], d[k := s], factor) == Weighted(done, d, factor) + s * factor[k]
  {
    WeightedSnoc(done, k, d, s, factor);
  }

  lemma AllDoneStep(e: Entry, enc: Scheme, norm: seq<nat>, p: seq<int>, r: seq<int>, d: seq<nat>, f: seq<nat>,
                    done: seq<nat>, k: nat)
    requires k < |norm| && AllDone(e, enc, norm, p, d, done, k) && k + norm[k] <= |p| && Reordered(p, r, k, k + norm[k])
    requires |f| == |d| && forall i | 0 <= i < k && i < |d| :: f[i] == d[i]
    requires GroupDone(e, enc, norm, r, f, k, k + norm[k]) && |done| > 0
    ensures AllDone(e, enc, norm, r, f, done + [k], k + norm[k])
  {
    assert (done + [k])[..|done|] == done;
    AllStayDone(e, enc, norm, p, r, d, f, done, k, k + norm[k]);
  }

  lemma AllSameMenStep(norm: seq<nat>, q: seq<int>, p: seq<int>, r: seq<int>, done: seq<nat>, k: nat)
    requires k < |norm| == |p| == |q| && AllSameMen(norm, q, p, done, k)
    requires k + norm[k] <= |p| && Reordered(p, r, k, k + norm[k]) && forall i | k <= i < |p| :: p[i] == q[i]
    ensures AllSameMen(norm, q, r, done + [k], k + norm[k]) && forall i | k + norm[k] <= i < |r| :: r[i] == q[i]
  {
    assert (done + [k])[..|done|] == done;
    AllSameMenStay(norm, q, p, r, done, k, k + norm[k]);
    NextSameMen(norm, q, p, r, k, k + norm[k]);
  }

  lemma MenStep(e: Entry, enc: Scheme, norm: seq<nat>, q: seq<int>, p: seq<int>, r: seq<int>, d: seq<nat>,
                done: seq<nat>, k: nat, s: nat)
    requires k < |d| == |norm| == |p| == e.num && |done| > 0 && MenDone(e, enc, norm, q, p, d, done, k)
    requires k + norm[k] <= |p| && Reordered(p, r, k, k + norm[k]) && AreSquares(r)
    requires GroupDone(e, enc, norm, r, d[k := s], k, k + norm[k])
    ensures MenDone(e, enc, norm, q, r, d[k := s], done + [k], k + norm[k])
  {
    AllDoneStep(e, enc, norm, p, r, d, d[k := s], done, k);
    AllSameMenStep(norm, q, p, r, done, k);
  }

  lemma ProgressStep(e: Entry, enc: Scheme, ei: EncInfo, q: seq<int>, p: seq<int>, r: seq<int>, d: seq<nat>,
                     done: seq<nat>, k: nat, idx: nat, s: nat, idx': nat)
    requires k < |d| == |ei.norm| == |ei.factor| && Progress(e, enc, ei, q, p, d, done, k, idx)
    requires k + ei.norm[k] <= |p| && Reordered(p, r, k, k + ei.norm[k]) && AreSquares(r)
    requires GroupDone(e, enc, ei.norm, r, d[k := s], k, k + ei.norm[k])
    requires idx' == Weighted(done + [k], d[k := s], ei.factor)
    ensures Progress(e, enc, ei, q, r, d[k := s], done + [k], k + ei.norm[k], idx')
  {
    MenStep(e, enc, ei.norm, q, p, r, d, done, k, s);
    StartsDoneStep(e, enc, ei.norm, done, k);
  }

  // ---------- the run of the encoder ----------

  /** The men, the next group to number, and the index so far. */
  datatype State = State(p: seq<int>, k: nat, idx: nat)

  /** Placements the encoder can be given: squares, no two men on one, pawns on pawn squares. */
  ghost predicate Placement(e: Entry, enc: Scheme, p: seq<int>) {
    && |p| == e.num && AreSquares(p) && Distinct(p)
    && (MorePawns(e, enc) && Base(e, enc) <= e.num ==> Within(p, Base(e, enc), 8, 56))
  }

  /** Sorting the next group and adding its term. */
  ghost predicate Step(e: Entry, enc: Scheme, ei: EncInfo, a: State, b: State) {
    && |ei.norm| == |ei.factor| == |a.p| && a.k < |ei.norm| && a.k < b.k == a.k + ei.norm[a.k] <= |ei.norm|
    && Reordered(a.p, b.p, a.k, b.k) && Ascending(b.p, a.k, b.k) && Placement(e, enc, b.p)
    && b.idx == a.idx + GroupDigit(b.p, a.k, ei.norm[a.k], Lo(e, enc, a.k)) * ei.factor[a.k]
  }

  /** The states the encoder has gone through. */
  datatype Run = Start(now: State) | Then(earlier: Run, now: State)

  ghost predicate IsRun(e: Entry, enc: Scheme, ei: EncInfo, run: Run) {
    run.Then? ==> IsRun(e, enc, ei, run.earlier) && Step(e, enc, ei, run.earlier.now, run.now)
  }

  function First(run: Run): State {
    if run.Start? then run.now else First(run.earlier)
  }

  // ---------- the loop over the groups ----------

  /** Sorts one group and numbers it. */
  method EncodeGroup(p: array<int>, k: nat, m: nat, lo: nat, ghost hi: nat) returns (s: nat)
    requires k + m <= p.Length && Distinct(p[..]) && Within(p[..], k + m, lo, hi)
    modifies p
    ensures Reordered(old(p[..]), p[..], k, k + m) && Ascending(p[..], k, k + m)
    ensures s == GroupDigit(p[..], k, m, lo)
  {
    SortGroup(p, k, k + m, x => x);
    ReorderedDistinct(old(p[..]), p[..], k, k + m);
    ReorderedWithin(old(p[..]), p[..], k, k + m, k + m, lo, hi);
    SortedGroup(p[..], k, k + m);
    s := NumberGroup(p, k, m, lo, hi);
  }

  lemma {:induction false} SortedGroup(p: seq<int>, lo: nat, hi: nat)
    requires lo <= hi <= |p| && Distinct(p) && SortedBy(x => x, p, lo, hi)
    ensures Ascending(p, lo, hi)
    decreases hi
  {
    if hi > lo + 1 {
      SortedGroup(p, lo, hi - 1);
      DistinctAt(p, hi - 2, hi - 1);
    }
  }

  /** The squares open to the group starting at man k hold all men up to its end. */
  lemma OpenSquares(e: Entry, enc: Scheme, norm: seq<nat>, p: seq<int>, k: nat)
    requires Shape(e, enc, norm) && Placement(e, enc, p) && 0 < k < e.num && k + norm[k] <= e.num
    ensures Within(p, k + norm[k], Lo(e, enc, k), Hi(e, enc, k))
  {
  }

  lemma KeepsPlacement(e: Entry, enc: Scheme, norm: seq<nat>, a: seq<int>, b: seq<int>, k: nat)
    requires Shape(e, enc, norm) && Placement(e, enc, a) && Lead(e, enc) <= k < e.num && k + norm[k] <= e.num
    requires Reordered(a, b, k, k + norm[k])
    requires MorePawns(e, enc) ==> k == Lead(e, enc) || k >= Base(e, enc)
    ensures Placement(e, enc, b)
  {
    ReorderedWithin(a, b, k, k + norm[k], |a|, 0, 64);
    ReorderedDistinct(a, b, k, k + norm[k]);
    if MorePawns(e, enc) && k == Lead(e, enc) {
      ReorderedWithin(a, b, k, k + norm[k], Base(e, enc), 8, 56);
    }
  }

  lemma NonNegativeProduct(x: nat, y: nat)
    ensures x * y >= 0
  {
  }

  method EncodeNext(p: array<int>, e: Entry, enc: Scheme, ei: EncInfo, k: nat, idx: nat) returns (k': nat, idx': nat)
    requires p.Length == |ei.factor| == e.num && Ready(e, enc, ei.norm, p[..], k) && k < e.num
    modifies p
    ensures Step(e, enc, ei, State(old(p[..]), k, idx), State(p[..], k', idx'))
    ensures k' > k && Ready(e, enc, ei.norm, p[..], k')
  {
    OpenSquares(e, enc, ei.norm, p[..], k);
    var s := EncodeGroup(p, k, ei.norm[k], Lo(e, enc, k), Hi(e, enc, k));
    KeepsPlacement(e, enc, ei.norm, old(p[..]), p[..], k);
    NonNegativeProduct(s, ei.factor[k]);
    idx' := idx + s * ei.factor[k];
    k' := k + ei.norm[k];
  }

  /** The men up to k are numbered and those from k on form whole groups. */
  ghost predicate Ready(e: Entry, enc: Scheme, norm: seq<nat>, p: seq<int>, k: nat) {
    && Shape(e, enc, norm) && Placement(e, enc, p)
    && Lead(e, enc) <= k <= e.num && Chain(norm, k)
    && (MorePawns(e, enc) ==> k == Lead(e, enc) || k >= Base(e, enc))
  }

  /** Sorts and numbers every group behind the leading one. */
  method EncodeGroups(p: array<int>, e: Entry, enc: Scheme, ei: EncInfo, lead: nat)
    returns (idx: nat, ghost run: Run)
    requires p.Length == |ei.factor| == e.num && Ready(e, enc, ei.norm, p[..], Lead(e, enc))
    modifies p
    ensures IsRun(e, enc, ei, run) && First(run) == State(old(p[..]), Lead(e, enc), lead)
    ensures run.now == State(p[..], e.num, idx)
    ensures Placement(e, enc, p[..])
  {
    idx := lead;
    var k := Lead(e, enc);
    run := Start(State(p[..], k, idx));
    while k < e.num
      invariant Ready(e, enc, ei.norm, p[..], k)
      invariant IsRun(e, enc, ei, run) && run.now == State(p[..], k, idx)
      invariant First(run) == State(old(p[..]), Lead(e, enc), lead)
      decreases e.num - k
    {
      k, idx := EncodeNext(p, e, enc, ei, k, idx);
      run := Then(run, State(p[..], k, idx));
    }
  }

  // ---------- what a run achieves ----------

  /** After a step its group is finished. */
  lemma StepFinishes(e: Entry, enc: Scheme, ei: EncInfo, a: State, b: State, d: seq<nat>)
    requires Shape(e, enc, ei.norm) && Step(e, enc, ei, a, b) && 0 < a.k && |d| == e.num
    ensures GroupDone(e, enc, ei.norm, b.p, d[a.k := GroupDigit(b.p, a.k, ei.norm[a.k], Lo(e, enc, a.k))], a.k, b.k)
  {
    OpenSquares(e, enc, ei.norm, b.p, a.k);
  }

  ghost predicate Prefixed(a: seq<int>, b: seq<int>, n: nat) {
    n <= |a| && n <= |b| && a[..n] == b[..n]
  }

  lemma PrefixKept(a: seq<int>, b: seq<int>, c: seq<int>, lo: nat, hi: nat, n: nat)
    requires Prefixed(a, b, n) && Reordered(b, c, lo, hi) && n <= lo
    ensures Prefixed(a, c, n)
  {
    assert b[..n] == c[..n];
  }

  /** One step numbers one more group. */
  lemma ProgressThroughStep(e: Entry, enc: Scheme, ei: EncInfo, q: seq<int>, a: State, b: State, d: seq<nat>,
                            done: seq<nat>)
    returns (d': seq<nat>, done': seq<nat>)
    requires Progress(e, enc, ei, q, a.p, d, done, a.k, a.idx) && Step(e, enc, ei, a, b) && 0 < a.k
    ensures Progress(e, enc, ei, q, b.p, d', done', b.k, b.idx)
    ensures |d| == |d'| > 0 && d'[0] == d[0] && a.k <= b.k
  {
    var s := GroupDigit(b.p, a.k, ei.norm[a.k], Lo(e, enc, a.k));
    StepFinishes(e, enc, ei, a, b, d);
    NextDigit(done, a.k, d, s, ei.factor);
    ProgressStep(e, enc, ei, q, a.p, b.p, d, done, a.k, a.idx, s, b.idx);
    d', done' := d[a.k := s], done + [a.k];
  }

  /** Every group numbered, every group still made of its men, the leading men untouched. */
  lemma {:induction false} RunProgress(e: Entry, enc: Scheme, ei: EncInfo, run: Run, q: seq<int>, d0: seq<nat>)
    returns (d: seq<nat>, done: seq<nat>)
    requires IsRun(e, enc, ei, run) && 0 < First(run).k && |d0| > 0
    requires Progress(e, enc, ei, q, First(run).p, d0, [0], First(run).k, First(run).idx)
    ensures Progress(e, enc, ei, q, run.now.p, d, done, run.now.k, run.now.idx)
    ensures First(run).k <= run.now.k && Prefixed(First(run).p, run.now.p, First(run).k)
    ensures |d| > 0 && d[0] == d0[0]
    decreases run
  {
    if run.Start? {
      d, done := d0, [0];
    } else {
      d, done := RunProgress(e, enc, ei, run.earlier, q, d0);
      PrefixKept(First(run).p, run.earlier.now.p, run.now.p, run.earlier.now.k, run.now.k, First(run).k);
      d, done := ProgressThroughStep(e, enc, ei, q, run.earlier.now, run.now, d, done);
    }
  }
}
