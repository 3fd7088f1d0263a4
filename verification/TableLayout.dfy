/** Laying out an endgame table: the groups of like pieces, the factor of each group, the size. */
module TableLayout {
  import opened Binomials
  import opened LeadingMen
  import opened MixedRadix
  import opened TableIndex

  /** The men from k on are grouped into maximal runs of like pieces. */
  ghost predicate GroupsAlike(norm: seq<nat>, pieces: seq<nat>, k: nat)
    requires |norm| == |pieces| && Chain(norm, k)
    decreases |norm| - k
  {
    k == |norm| ||
    (var end := k + norm[k];
     && (forall i | k <= i < end :: pieces[i] == pieces[k])
     && (end < |norm| ==> pieces[end] != pieces[k])
     && GroupsAlike(norm, pieces, end))
  }

  /** How many men from i on are the same piece as the man at i. */
  method RunLength(pieces: seq<nat>, i: nat) returns (m: nat)
    requires i < |pieces|
    ensures 1 <= m && i + m <= |pieces|
    ensures forall j | i <= j < i + m :: pieces[j] == pieces[i]
    ensures i + m < |pieces| ==> pieces[i + m] != pieces[i]
  {
    m := 0;
    while i + m < |pieces| && pieces[i + m] == pieces[i]
      invariant i + m <= |pieces|
      invariant forall j | i <= j < i + m :: pieces[j] == pieces[i]
    {
      m := m + 1;
    }
  }

  /** The group starts found so far, newest last; the group at the last one ends before man k. */
  ghost predicate Grouped(norm: seq<nat>, pieces: seq<nat>, starts: seq<nat>, base: nat, k: nat)
    requires |norm| == |pieces|
  {
    if starts == [] then k == base
    else
      var s := starts[|starts| - 1];
      && base <= s < k <= |norm| && s + norm[s] == k
      && (forall i | s <= i < k :: pieces[i] == pieces[s])
      && (k < |norm| ==> pieces[k] != pieces[s])
      && Grouped(norm, pieces, starts[..|starts| - 1], base, s)
  }

  lemma {:induction false} GroupedKept(norm: seq<nat>, other: seq<nat>, pieces: seq<nat>, starts: seq<nat>, base: nat,
                                       k: nat)
    requires |norm| == |other| == |pieces| && k <= |norm| && Grouped(norm, pieces, starts, base, k)
    requires forall i | base <= i < k :: norm[i] == other[i]
    ensures Grouped(other, pieces, starts, base, k)
  {
    if starts != [] {
      GroupedKept(norm, other, pieces, starts[..|starts| - 1], base, starts[|starts| - 1]);
    }
  }

  /** Once all men are grouped, the groups form a chain of like pieces. */
  lemma {:induction false} GroupedIsChain(norm: seq<nat>, pieces: seq<nat>, starts: seq<nat>, base: nat, k: nat)
    requires |norm| == |pieces| && Grouped(norm, pieces, starts, base, k)
    requires Chain(norm, k) && GroupsAlike(norm, pieces, k)
    ensures Chain(norm, base) && GroupsAlike(norm, pieces, base)
  {
    if starts != [] {
      GroupedIsChain(norm, pieces, starts[..|starts| - 1], base, starts[|starts| - 1]);
    }
  }

  /** Fills norm from man base on with the sizes of the groups of like pieces. */
  method GroupPieces(pieces: seq<nat>, base: nat, lead: seq<nat>) returns (norm: seq<nat>)
    requires base <= |pieces| == |lead|
    ensures |norm| == |pieces| && (forall i | 0 <= i < base :: norm[i] == lead[i])
    ensures Chain(norm, base) && GroupsAlike(norm, pieces, base)
  {
    norm := lead;
    var i := base;
    ghost var starts: seq<nat> := [];
    while i < |pieces|
      invariant base <= i <= |pieces| == |norm|
      invariant forall j | 0 <= j < base :: norm[j] == lead[j]
      invariant Grouped(norm, pieces, starts, base, i)
    {
      var m := RunLength(pieces, i);
      GroupedKept(norm, norm[i := m], pieces, starts, base, i);
      norm := norm[i := m];
      assert (starts + [i])[..|starts|] == starts;
      starts := starts + [i];
      i := i + m;
    }
    GroupedIsChain(norm, pieces, starts, base, i);
  }

  // ---------- factors ----------

  /** The factor at each slot is the product of the sizes at the slots before it, and f is the
      product of all. */
  ghost predicate LaidOut(slots: seq<nat>, sizes: seq<nat>, factor: seq<nat>, f: nat)
    requires |sizes| == |factor|
  {
    if slots == [] then f == 1
    else
      var s := slots[|slots| - 1];
      && s < |sizes| && f == factor[s] * sizes[s]
      && LaidOut(slots[..|slots| - 1], sizes, factor, factor[s])
  }

  lemma {:induction false} LaidOutKept(slots: seq<nat>, sizes: seq<nat>, factor: seq<nat>, f: nat, k: nat, v: nat)
    requires |sizes| == |factor| && LaidOut(slots, sizes, factor, f) && k < |factor|
    requires forall i | 0 <= i < |slots| :: slots[i] != k
    ensures LaidOut(slots, sizes, factor[k := v], f)
  {
    if slots != [] {
      LaidOutKept(slots[..|slots| - 1], sizes, factor, factor[slots[|slots| - 1]], k, v);
    }
  }

  lemma LaidOutStep(slots: seq<nat>, sizes: seq<nat>, factor: seq<nat>, f: nat, k: nat)
    requires |sizes| == |factor| && LaidOut(slots, sizes, factor, f) && k < |factor|
    requires forall i | 0 <= i < |slots| :: slots[i] != k
    ensures f * sizes[k] >= 0 && LaidOut(slots + [k], sizes, factor[k := f], f * sizes[k])
  {
    LaidOutKept(slots, sizes, factor, f, k, f);
    assert (slots + [k])[..|slots|] == slots;
    Positive(f, sizes[k]);
  }

  lemma Positive(x: nat, y: nat)
    ensures x * y >= 0
  {
  }

  lemma {:induction false} LaidOutInRange(slots: seq<nat>, sizes: seq<nat>, factor: seq<nat>, f: nat, i: nat)
    requires |sizes| == |factor| && LaidOut(slots, sizes, factor, f) && i < |slots|
    ensures slots[i] < |sizes|
  {
    var n := |slots| - 1;
    if i < n { LaidOutInRange(slots[..n], sizes, factor, factor[slots[n]], i); }
  }

  lemma LaidOutAllInRange(slots: seq<nat>, sizes: seq<nat>, factor: seq<nat>, f: nat)
    requires |sizes| == |factor| && LaidOut(slots, sizes, factor, f)
    ensures forall i | 0 <= i < |slots| :: slots[i] < |sizes|
  {
    forall i | 0 <= i < |slots|
      ensures slots[i] < |sizes|
    {
      LaidOutInRange(slots, sizes, factor, f, i);
    }
  }

  lemma {:induction false} LaidOutProduct(slots: seq<nat>, sizes: seq<nat>, factor: seq<nat>, f: nat)
    requires |sizes| == |factor| && LaidOut(slots, sizes, factor, f)
    requires forall i | 0 <= i < |slots| :: slots[i] < |sizes|
    ensures f == Product(Pick(sizes, slots))
  {
    if slots != [] {
      var n := |slots| - 1;
      LaidOutProduct(slots[..n], sizes, factor, factor[slots[n]]);
      assert Pick(sizes, slots)[..n] == Pick(sizes, slots[..n]);
    }
  }

  lemma {:induction false} LaidOutAt(slots: seq<nat>, sizes: seq<nat>, factor: seq<nat>, f: nat, i: nat)
    requires |sizes| == |factor| && LaidOut(slots, sizes, factor, f) && i < |slots|
    requires forall j | 0 <= j < |slots| :: slots[j] < |sizes|
    ensures factor[slots[i]] == Product(Pick(sizes, slots)[..i])
  {
    var n := |slots| - 1;
    assert Pick(sizes, slots)[..i] == Pick(sizes, slots[..n])[..i];
    if i < n {
      LaidOutAt(slots[..n], sizes, factor, factor[slots[n]], i);
    } else {
      LaidOutProduct(slots[..n], sizes, factor, factor[slots[n]]);
      assert Pick(sizes, slots[..n])[..n] == Pick(sizes, slots[..n]);
    }
  }

  lemma LaidOutMeans(slots: seq<nat>, sizes: seq<nat>, factor: seq<nat>, f: nat)
    requires |sizes| == |factor| && LaidOut(slots, sizes, factor, f)
    ensures forall i | 0 <= i < |slots| :: slots[i] < |sizes|
    ensures f == Product(Pick(sizes, slots))
    ensures forall i | 0 <= i < |slots| :: factor[slots[i]] == Product(Pick(sizes, slots)[..i])
  {
    LaidOutAllInRange(slots, sizes, factor, f);
    LaidOutProduct(slots, sizes, factor, f);
    forall i | 0 <= i < |slots|
      ensures factor[slots[i]] == Product(Pick(sizes, slots)[..i])
    {
      LaidOutAt(slots, sizes, factor, f, i);
    }
  }

  /** The groups not laid out before slot i: the leading one, the second pawns, those from man k on. */
  ghost function Pending(e: Entry, enc: Scheme, norm: seq<nat>, order: nat, order2: nat, i: nat, k: nat): multiset<nat>
    requires Chain(norm, k)
  {
    Before(e, enc, order, order2, i) + multiset(GroupStarts(norm, k))
  }

  ghost function Before(e: Entry, enc: Scheme, order: nat, order2: nat, i: nat): multiset<nat> {
    (if i <= order then multiset{0} else multiset{})
    + (if MorePawns(e, enc) && i <= order2 then multiset{Lead(e, enc)} else multiset{})
  }

  /** How many groups of neighbouring like pieces there are from man k on. */
  function Runs(pieces: seq<nat>, k: nat): nat
    decreases |pieces| - k
  {
    if k >= |pieces| then 0
    else if k + 1 < |pieces| && pieces[k + 1] == pieces[k] then Runs(pieces, k + 1)
    else 1 + Runs(pieces, k + 1)
  }

  lemma {:induction false} OneRun(pieces: seq<nat>, k: nat, end: nat)
    requires k < end <= |pieces| && forall i | k <= i < end :: pieces[i] == pieces[k]
    requires end < |pieces| ==> pieces[end] != pieces[k]
    ensures Runs(pieces, k) == 1 + Runs(pieces, end)
    decreases end - k
  {
    if k + 1 < end { OneRun(pieces, k + 1, end); }
  }

  lemma {:induction false} RunsAreGroups(norm: seq<nat>, pieces: seq<nat>, k: nat)
    requires |norm| == |pieces| && Chain(norm, k) && GroupsAlike(norm, pieces, k)
    ensures |GroupStarts(norm, k)| == Runs(pieces, k)
    decreases |norm| - k
  {
    if k < |norm| {
      OneRun(pieces, k, k + norm[k]);
      RunsAreGroups(norm, pieces, k + norm[k]);
    }
  }

  /** The file's contract: each order names a slot that the loop reaches, and not the same one. */
  predicate Orders(e: Entry, enc: Scheme, pieces: seq<nat>, order: nat, order2: nat) {
    var slots := (if MorePawns(e, enc) then 2 else 1) + Runs(pieces, Base(e, enc));
    && order < slots
    && (if MorePawns(e, enc) then order2 < slots && order != order2 else order2 == 15)
  }

  lemma AllPending(e: Entry, enc: Scheme, norm: seq<nat>, order: nat, order2: nat)
    requires Shape(e, enc, norm)
    ensures Chain(norm, Base(e, enc))
    ensures Pending(e, enc, norm, order, order2, 0, Base(e, enc)) == multiset(Starts(e, enc, norm))
  {
  }

  lemma {:induction false} StartsAtLeast(norm: seq<nat>, k: nat, x: nat)
    requires Chain(norm, k)
    ensures multiset(GroupStarts(norm, k))[x] <= if x >= k then 1 else 0
    decreases |norm| - k
  {
    if k < |norm| {
      StartsAtLeast(norm, k + norm[k], x);
      assert GroupStarts(norm, k) == [k] + GroupStarts(norm, k + norm[k]);
    }
  }

  lemma StartsOnce(e: Entry, enc: Scheme, norm: seq<nat>, x: nat)
    requires Shape(e, enc, norm)
    ensures multiset(Starts(e, enc, norm))[x] <= 1
  {
    StartsAtLeast(norm, Lead(e, enc), x);
  }

  /** slots and pending share out the groups. */
  ghost predicate Shares(slots: seq<nat>, pending: multiset<nat>, all: seq<nat>) {
    multiset(slots) + pending == multiset(all)
  }

  lemma ShareCount(slots: seq<nat>, pending: multiset<nat>, all: seq<nat>)
    requires Shares(slots, pending, all)
    ensures |slots| + |pending| == |all|
  {
    assert |multiset(slots) + pending| == |multiset(all)|;
  }

  ghost predicate Takes(before: multiset<nat>, after: multiset<nat>, x: nat) {
    before == after + multiset{x}
  }

  lemma NewSlot(e: Entry, enc: Scheme, norm: seq<nat>, slots: seq<nat>, pending: multiset<nat>, rest: multiset<nat>,
                x: nat)
    requires Shape(e, enc, norm) && Shares(slots, pending, Starts(e, enc, norm))
    requires Takes(pending, rest, x)
    ensures forall i | 0 <= i < |slots| :: slots[i] != x
    ensures Shares(slots + [x], rest, Starts(e, enc, norm))
  {
    StartsOnce(e, enc, norm, x);
    forall i | 0 <= i < |slots|
      ensures slots[i] != x
    {
      assert multiset(slots)[slots[i]] >= 1;
    }
  }

  lemma ShapeOfGroups(e: Entry, enc: Scheme, pieces: seq<nat>, norm: seq<nat>)
    requires |pieces| == |norm| == e.num <= 7 && 1 <= Lead(e, enc) && Base(e, enc) <= e.num
    requires Chain(norm, Base(e, enc)) && GroupsAlike(norm, pieces, Base(e, enc))
    requires norm[0] == Lead(e, enc) && (MorePawns(e, enc) ==> norm[Lead(e, enc)] == e.pawns1)
    ensures Shape(e, enc, norm)
    ensures |Starts(e, enc, norm)| == (if MorePawns(e, enc) then 2 else 1) + Runs(pieces, Base(e, enc))
  {
    RunsAreGroups(norm, pieces, Base(e, enc));
    AllPending(e, enc, norm, 0, 0);
  }

  /** The sizes of the groups, by their first men: the leading men, the second pawns, then runs of
      like pieces. */
  method InitGroups(e: Entry, enc: Scheme, pieces: seq<nat>) returns (norm: seq<nat>)
    requires |pieces| == e.num <= 7 && 1 <= Lead(e, enc) && Base(e, enc) <= e.num
    ensures Shape(e, enc, norm) && Chain(norm, Base(e, enc)) && GroupsAlike(norm, pieces, Base(e, enc))
    ensures |Starts(e, enc, norm)| == (if MorePawns(e, enc) then 2 else 1) + Runs(pieces, Base(e, enc))
  {
    norm := seq(e.num, _ => 0);
    norm := norm[0 := Lead(e, enc)];
    if MorePawns(e, enc) {
      norm := norm[Lead(e, enc) := e.pawns1];
    }
    norm := GroupPieces(pieces, Base(e, enc), norm);
    ShapeOfGroups(e, enc, pieces, norm);
  }

  /** How the layout loop stands before slot i. */
  ghost predicate Laying(e: Entry, enc: Scheme, norm: seq<nat>, t: nat, order: nat, order2: nat,
                         i: nat, k: nat, slots: seq<nat>, factor: seq<nat>, f: nat)
  {
    && Shape(e, enc, norm) && BlockExists(enc, t) && |factor| == e.num
    && Base(e, enc) <= k <= e.num && Chain(norm, k) && |slots| == i
    && Shares(slots, Pending(e, enc, norm, order, order2, i, k), Starts(e, enc, norm))
    && LaidOut(slots, SizeVector(e, enc, norm, t), factor, f)
  }

  /** Laying out the group at man x in slot i. */
  lemma LayOne(e: Entry, enc: Scheme, norm: seq<nat>, t: nat, order: nat, order2: nat,
               i: nat, k: nat, slots: seq<nat>, factor: seq<nat>, f: nat, x: nat, k': nat)
    requires Laying(e, enc, norm, t, order, order2, i, k, slots, factor, f)
    requires x < e.num && k <= k' <= e.num && Chain(norm, k')
    requires Takes(Pending(e, enc, norm, order, order2, i, k), Pending(e, enc, norm, order, order2, i + 1, k'), x)
    ensures f * Size(e, enc, norm, t, x) >= 0
    ensures Laying(e, enc, norm, t, order, order2, i + 1, k', slots + [x], factor[x := f], f * Size(e, enc, norm, t, x))
  {
    NewSlot(e, enc, norm, slots, Pending(e, enc, norm, order, order2, i, k),
            Pending(e, enc, norm, order, order2, i + 1, k'), x);
    LaidOutStep(slots, SizeVector(e, enc, norm, t), factor, f, x);
  }

  /** Which group slot i takes. */
  lemma PendingLead(e: Entry, enc: Scheme, norm: seq<nat>, order: nat, order2: nat, i: nat, k: nat)
    requires Chain(norm, k) && i == order && (MorePawns(e, enc) ==> order != order2)
    ensures Takes(Pending(e, enc, norm, order, order2, i, k), Pending(e, enc, norm, order, order2, i + 1, k), 0)
  {
    assert Before(e, enc, order, order2, i) == Before(e, enc, order, order2, i + 1) + multiset{0};
  }

  lemma PendingPawns(e: Entry, enc: Scheme, norm: seq<nat>, order: nat, order2: nat, i: nat, k: nat)
    requires Chain(norm, k) && i == order2 && i != order && MorePawns(e, enc)
    ensures Takes(Pending(e, enc, norm, order, order2, i, k), Pending(e, enc, norm, order, order2, i + 1, k),
                  Lead(e, enc))
  {
    assert Before(e, enc, order, order2, i) == Before(e, enc, order, order2, i + 1) + multiset{Lead(e, enc)};
  }

  lemma PendingGroup(e: Entry, enc: Scheme, norm: seq<nat>, order: nat, order2: nat, i: nat, k: nat)
    requires Chain(norm, k) && i != order && (MorePawns(e, enc) ==> i != order2) && k < |norm|
    ensures Takes(Pending(e, enc, norm, order, order2, i, k),
                  Pending(e, enc, norm, order, order2, i + 1, k + norm[k]), k)
  {
    FirstStart(norm, k);
    Later(Before(e, enc, order, order2, i), multiset(GroupStarts(norm, k + norm[k])), k);
  }

  lemma FirstStart(norm: seq<nat>, k: nat)
    requires Chain(norm, k) && k < |norm|
    ensures multiset(GroupStarts(norm, k)) == multiset{k} + multiset(GroupStarts(norm, k + norm[k]))
  {
    assert GroupStarts(norm, k) == [k] + GroupStarts(norm, k + norm[k]);
  }

  lemma Later(a: multiset<nat>, b: multiset<nat>, k: nat)
    ensures Takes(a + (multiset{k} + b), a + b, k)
  {
  }

  /** The loop reaches every slot: when it stops, nothing is pending. */
  lemma NothingPending(e: Entry, enc: Scheme, norm: seq<nat>, pieces: seq<nat>, t: nat, order: nat, order2: nat,
                       i: nat, k: nat, slots: seq<nat>, factor: seq<nat>, f: nat)
    requires Laying(e, enc, norm, t, order, order2, i, k, slots, factor, f)
    requires Orders(e, enc, pieces, order, order2)
    requires |Starts(e, enc, norm)| == (if MorePawns(e, enc) then 2 else 1) + Runs(pieces, Base(e, enc))
    ensures !(k < e.num || i == order || i == order2) ==> Pending(e, enc, norm, order, order2, i, k) == multiset{}
    ensures k < e.num || i == order || i == order2 ==>
              |Starts(e, enc, norm)| > 8 || (i < |Starts(e, enc, norm)| && SlotOpen(e, enc, norm, order, order2, i, k))
  {
    ShareCount(slots, Pending(e, enc, norm, order, order2, i, k), Starts(e, enc, norm));
  }

  lemma StartsAtMost(e: Entry, enc: Scheme, norm: seq<nat>)
    requires Shape(e, enc, norm)
    ensures |Starts(e, enc, norm)| <= 8
  {
    GroupStartsAtMost(norm, Lead(e, enc));
  }

  lemma {:induction false} GroupStartsAtMost(norm: seq<nat>, k: nat)
    requires Chain(norm, k)
    ensures |GroupStarts(norm, k)| <= |norm| - k
    decreases |norm| - k
  {
    if k < |norm| { GroupStartsAtMost(norm, k + norm[k]); }
  }

  /** The number of placements the group in the next slot allows. */
  method GroupSize(e: Entry, enc: Scheme, norm: seq<nat>, ghost t: nat, k: nat) returns (size: nat)
    requires Shape(e, enc, norm) && BlockExists(enc, t) && 0 < k < e.num && 1 <= norm[k] && k + norm[k] <= e.num
    ensures size == Size(e, enc, norm, t, k)
  {
    size := Subfactor(norm[k], Free(e, enc, k));
  }

  /** Slot i is for the leading men, the second pawns or the next group of pieces: the group's first
      man, and where the next pieces start. */
  function NextStart(e: Entry, enc: Scheme, norm: seq<nat>, order: nat, order2: nat, i: nat, k: nat): (nat, nat)
    requires i == order || i == order2 || k < |norm|
  {
    if i == order then (0, k) else if i == order2 then (Lead(e, enc), k) else (k, k + norm[k])
  }

  /** What lets the loop go on at slot i. */
  ghost predicate SlotOpen(e: Entry, enc: Scheme, norm: seq<nat>, order: nat, order2: nat, i: nat, k: nat) {
    && Shape(e, enc, norm) && Base(e, enc) <= k <= e.num && Chain(norm, k)
    && (k < e.num || i == order || i == order2)
    && if MorePawns(e, enc) then order != order2 else i < order2
  }

  lemma NextInRange(e: Entry, enc: Scheme, norm: seq<nat>, order: nat, order2: nat, i: nat, k: nat)
    requires SlotOpen(e, enc, norm, order, order2, i, k)
    ensures var (x, k') := NextStart(e, enc, norm, order, order2, i, k);
            x < e.num && k <= k' <= e.num && Chain(norm, k') && 1 <= norm[x] && x + norm[x] <= e.num
              && (x == 0 <==> i == order)
  {
  }

  lemma NextTaken(e: Entry, enc: Scheme, norm: seq<nat>, order: nat, order2: nat, i: nat, k: nat)
    requires SlotOpen(e, enc, norm, order, order2, i, k)
    ensures var (x, k') := NextStart(e, enc, norm, order, order2, i, k);
            Chain(norm, k')
            && Takes(Pending(e, enc, norm, order, order2, i, k), Pending(e, enc, norm, order, order2, i + 1, k'), x)
  {
    if i == order {
      PendingLead(e, enc, norm, order, order2, i, k);
    } else if i == order2 {
      PendingPawns(e, enc, norm, order, order2, i, k);
    } else {
      PendingGroup(e, enc, norm, order, order2, i, k);
    }
  }

  /** Gives slot i to the leading men, the second pawns or the next group of pieces. */
  method LaySlot(e: Entry, enc: Scheme, norm: seq<nat>, ghost t: nat, order: nat, order2: nat, leadSize: nat,
                 i: nat, k: nat, factor: seq<nat>, f: nat, ghost slots: seq<nat>)
    returns (k': nat, factor': seq<nat>, f': nat, ghost slots': seq<nat>)
    requires Laying(e, enc, norm, t, order, order2, i, k, slots, factor, f)
    requires SlotOpen(e, enc, norm, order, order2, i, k) && leadSize == LeadSize(e, enc, t)
    ensures Laying(e, enc, norm, t, order, order2, i + 1, k', slots', factor', f')
  {
    NextTaken(e, enc, norm, order, order2, i, k);
    var x, m;
    x, k', m := NextGroup(e, enc, norm, t, order, order2, leadSize, i, k);
    LayOne(e, enc, norm, t, order, order2, i, k, slots, factor, f, x, k');
    factor', f', slots' := factor[x := f], f * m, slots + [x];
  }

  /** The group slot i takes, where the next pieces start, and the group's size. */
  method NextGroup(e: Entry, enc: Scheme, norm: seq<nat>, ghost t: nat, order: nat, order2: nat, leadSize: nat,
                   i: nat, k: nat)
    returns (x: nat, k': nat, m: nat)
    requires SlotOpen(e, enc, norm, order, order2, i, k)
    requires BlockExists(enc, t) && leadSize == LeadSize(e, enc, t)
    ensures (x, k') == NextStart(e, enc, norm, order, order2, i, k)
    ensures x < e.num && k <= k' <= e.num && Chain(norm, k') && m == Size(e, enc, norm, t, x)
  {
    NextInRange(e, enc, norm, order, order2, i, k);
    if i == order {
      return 0, k, leadSize;
    } else if i == order2 {
      x, k' := norm[0], k;
    } else {
      x, k' := k, k + norm[k];
    }
    m := GroupSize(e, enc, norm, t, x);
  }

  lemma LaidOutFactors(e: Entry, enc: Scheme, ei: EncInfo, t: nat, slots: seq<nat>, f: nat)
    requires Shape(e, enc, ei.norm) && BlockExists(enc, t) && |ei.factor| == e.num
    requires multiset(slots) == multiset(Starts(e, enc, ei.norm))
    requires LaidOut(slots, SizeVector(e, enc, ei.norm, t), ei.factor, f)
    ensures Factors(e, enc, ei, t, slots) && f == TableSize(e, enc, ei, t, slots)
  {
    LaidOutMeans(slots, SizeVector(e, enc, ei.norm, t), ei.factor, f);
  }

  /** Lays out group after group until every slot is taken. */
  method LayOut(e: Entry, enc: Scheme, norm: seq<nat>, ghost pieces: seq<nat>, order: nat, order2: nat, ghost t: nat,
                leadSize: nat)
    returns (factor: seq<nat>, f: nat, ghost slots: seq<nat>)
    requires Shape(e, enc, norm) && BlockExists(enc, t) && leadSize == LeadSize(e, enc, t)
    requires Orders(e, enc, pieces, order, order2)
    requires |Starts(e, enc, norm)| == (if MorePawns(e, enc) then 2 else 1) + Runs(pieces, Base(e, enc))
    ensures |factor| == e.num && multiset(slots) == multiset(Starts(e, enc, norm))
    ensures LaidOut(slots, SizeVector(e, enc, norm, t), factor, f)
  {
    factor := seq(e.num, _ => 0);
    var i: nat, k: nat := 0, Base(e, enc);
    f, slots := 1, [];
    AllPending(e, enc, norm, order, order2);
    StartsAtMost(e, enc, norm);
    while k < e.num || i == order || i == order2
      invariant Laying(e, enc, norm, t, order, order2, i, k, slots, factor, f)
      decreases |Starts(e, enc, norm)| - i
    {
      NothingPending(e, enc, norm, pieces, t, order, order2, i, k, slots, factor, f);
      k, factor, f, slots := LaySlot(e, enc, norm, t, order, order2, leadSize, i, k, factor, f, slots);
      i := i + 1;
    }
    NothingPending(e, enc, norm, pieces, t, order, order2, i, k, slots, factor, f);
  }

  /** The groups and factors of the table of block t, and its size. leadSize is how many placements
      the leading men have in that block. */
  method InitEncInfo(e: Entry, enc: Scheme, pieces: seq<nat>, order: nat, order2: nat, ghost t: nat, leadSize: nat)
    returns (ei: EncInfo, size: nat, ghost slots: seq<nat>)
    requires |pieces| == e.num <= 7 && 1 <= Lead(e, enc) && Base(e, enc) <= e.num
    requires BlockExists(enc, t) && leadSize == LeadSize(e, enc, t)
    requires Orders(e, enc, pieces, order, order2)
    ensures Shape(e, enc, ei.norm) && |ei.factor| == e.num
    ensures Chain(ei.norm, Base(e, enc)) && GroupsAlike(ei.norm, pieces, Base(e, enc))
    ensures Factors(e, enc, ei, t, slots)
    ensures size == TableSize(e, enc, ei, t, slots)
  {
    var norm := InitGroups(e, enc, pieces);
    ei, size, slots := LayOutTable(e, enc, norm, pieces, order, order2, t, leadSize);
  }

  /** The factors and the size, the groups being known. */
  method LayOutTable(e: Entry, enc: Scheme, norm: seq<nat>, ghost pieces: seq<nat>, order: nat, order2: nat,
                     ghost t: nat, leadSize: nat)
    returns (ei: EncInfo, size: nat, ghost slots: seq<nat>)
    requires Shape(e, enc, norm) && BlockExists(enc, t) && leadSize == LeadSize(e, enc, t)
    requires Orders(e, enc, pieces, order, order2)
    requires |Starts(e, enc, norm)| == (if MorePawns(e, enc) then 2 else 1) + Runs(pieces, Base(e, enc))
    ensures ei.norm == norm && |ei.factor| == e.num
    ensures Factors(e, enc, ei, t, slots)
    ensures size == TableSize(e, enc, ei, t, slots)
  {
    var factor;
    factor, size, slots := LayOut(e, enc, norm, pieces, order, order2, t, leadSize);
    ei := EncInfo(factor, norm);
    LaidOutFactors(e, enc, ei, t, slots, size);
  }
}
