/** The pair grammar of a compressed table: every symbol is a leaf value or the
    concatenation of two other symbols. */
module PairGrammar {
  import opened Bits

  type Symbol = nat

  const LEAF_MARK := 0x0fff

  /** The two 12-bit halves of a three-byte symbol pattern. */
  function Left(pat: seq<byte>, s: Symbol): Symbol
    requires 3 * s + 2 < |pat|
  {
    (pat[3 * s + 1] as int % 16) * 256 + pat[3 * s] as int
  }

  function Right(pat: seq<byte>, s: Symbol): Symbol
    requires 3 * s + 2 < |pat|
  {
    pat[3 * s + 2] as int * 16 + pat[3 * s + 1] as int / 16
  }

  /** A pattern as one number, its first byte lowest. */
  function Pattern(pat: seq<byte>, s: Symbol): nat
    requires 3 * s + 2 < |pat|
  {
    pat[3 * s] as int + 256 * pat[3 * s + 1] as int + 65536 * pat[3 * s + 2] as int
  }

  /** The halves are the low and the high twelve bits of the pattern. */
  lemma HalvesOfPattern(pat: seq<byte>, s: Symbol)
    requires 3 * s + 2 < |pat|
    ensures Left(pat, s) < 4096 && Right(pat, s) < 4096
    ensures Left(pat, s) + 4096 * Right(pat, s) == Pattern(pat, s)
    ensures Left(pat, s) == Pattern(pat, s) % 4096 && Right(pat, s) == Pattern(pat, s) / 4096
  {
  }

  predicate IsLeaf(pat: seq<byte>, s: Symbol)
    requires 3 * s + 2 < |pat|
  {
    Right(pat, s) == LEAF_MARK
  }

  /** Symbol s is a leaf, or both its parts are symbols that rank below it. */
  ghost predicate SplitsDownward(pat: seq<byte>, rank: seq<nat>, s: Symbol)
    requires |pat| == 3 * |rank| && s < |rank|
  {
    IsLeaf(pat, s) ||
    (&& Left(pat, s) < |rank| && rank[Left(pat, s)] < rank[s]
     && Right(pat, s) < |rank| && rank[Right(pat, s)] < rank[s])
  }

  /** rank witnesses that no symbol is part of its own expansion. */
  ghost predicate Acyclic(pat: seq<byte>, rank: seq<nat>) {
    && |pat| == 3 * |rank|
    && forall s: Symbol | s < |rank| :: SplitsDownward(pat, rank, s)
  }

  /** The leaves a symbol stands for, in order. */
  ghost function Expand(pat: seq<byte>, rank: seq<nat>, s: Symbol): (leaves: seq<Symbol>)
    requires Acyclic(pat, rank) && s < |rank|
    ensures |leaves| >= 1
    decreases rank[s]
  {
    assert SplitsDownward(pat, rank, s);
    if IsLeaf(pat, s) then [s]
    else Expand(pat, rank, Left(pat, s)) + Expand(pat, rank, Right(pat, s))
  }

  /** A symbol whose high twelve bits are all set stands for itself; any other, for what its low half
      stands for followed by what its high half stands for. */
  lemma ExpandsByHalves(pat: seq<byte>, rank: seq<nat>, s: Symbol)
    requires Acyclic(pat, rank) && s < |rank|
    ensures Pattern(pat, s) / 4096 == 0xfff ==> Expand(pat, rank, s) == [s]
    ensures Pattern(pat, s) / 4096 != 0xfff ==>
              var low, high := Pattern(pat, s) % 4096, Pattern(pat, s) / 4096;
              low < |rank| && high < |rank| && Expand(pat, rank, s) == Expand(pat, rank, low) + Expand(pat, rank, high)
  {
    assert SplitsDownward(pat, rank, s);
    HalvesOfPattern(pat, s);
  }

  /** The witness does not matter: any two rankings give the same expansion. */
  lemma {:induction false} ExpandIgnoresRank(pat: seq<byte>, r1: seq<nat>, r2: seq<nat>, s: Symbol)
    requires Acyclic(pat, r1) && Acyclic(pat, r2) && s < |r1|
    ensures Expand(pat, r1, s) == Expand(pat, r2, s)
    decreases r1[s]
  {
    assert SplitsDownward(pat, r1, s);
    if !IsLeaf(pat, s) {
      ExpandIgnoresRank(pat, r1, r2, Left(pat, s));
      ExpandIgnoresRank(pat, r1, r2, Right(pat, s));
    }
  }

  /** The format limits an expansion to 256 leaves, so that its length minus one fits a byte. */
  ghost predicate Grammar(pat: seq<byte>, rank: seq<nat>) {
    && Acyclic(pat, rank)
    && forall s: Symbol | s < |rank| :: |Expand(pat, rank, s)| <= 256
  }

  ghost predicate LengthsKnown(pat: seq<byte>, rank: seq<nat>, symLen: array<byte>, known: array<bool>)
    requires Acyclic(pat, rank)
    reads symLen, known
  {
    && symLen.Length == known.Length == |rank|
    && forall s: Symbol | s < |rank| && known[s] :: symLen[s] as int + 1 == |Expand(pat, rank, s)|
  }

  lemma PartLengths(pat: seq<byte>, rank: seq<nat>, s: Symbol)
    requires Grammar(pat, rank) && s < |rank| && !IsLeaf(pat, s)
    ensures SplitsDownward(pat, rank, s)
    ensures |Expand(pat, rank, Left(pat, s))| + |Expand(pat, rank, Right(pat, s))| == |Expand(pat, rank, s)| <= 256
  {
    assert SplitsDownward(pat, rank, s);
  }

  /** Fills in the length of s and of everything s is made of. */
  method CalcSymLen(pat: seq<byte>, symLen: array<byte>, known: array<bool>, s: Symbol, ghost rank: seq<nat>)
    requires Grammar(pat, rank) && s < |rank|
    requires LengthsKnown(pat, rank, symLen, known)
    modifies symLen, known
    ensures LengthsKnown(pat, rank, symLen, known) && known[s]
    ensures forall t: Symbol | t < |rank| && old(known[t]) :: known[t]
    decreases rank[s], 0
  {
    if Right(pat, s) == LEAF_MARK {
      symLen[s] := 0;
    } else {
      PartLengths(pat, rank, s);
      var s1, s2 := Left(pat, s), Right(pat, s);
      CalcIfUnknown(pat, symLen, known, s1, rank);
      CalcIfUnknown(pat, symLen, known, s2, rank);
      symLen[s] := (symLen[s1] as int + symLen[s2] as int + 1) % 256;
    }
    known[s] := true;
  }

  method CalcIfUnknown(pat: seq<byte>, symLen: array<byte>, known: array<bool>, s: Symbol, ghost rank: seq<nat>)
    requires Grammar(pat, rank) && s < |rank|
    requires LengthsKnown(pat, rank, symLen, known)
    modifies symLen, known
    ensures LengthsKnown(pat, rank, symLen, known) && known[s]
    ensures forall t: Symbol | t < |rank| && old(known[t]) :: known[t]
    decreases rank[s], 1
  {
    if !known[s] { CalcSymLen(pat, symLen, known, s, rank); }
  }

  /** The length table holds, for every symbol, its expansion length minus one. */
  ghost predicate SymLenTable(pat: seq<byte>, rank: seq<nat>, symLen: seq<byte>)
    requires Acyclic(pat, rank)
  {
    && |symLen| == |rank|
    && forall s: Symbol | s < |rank| :: symLen[s] as int + 1 == |Expand(pat, rank, s)|
  }

  method BuildSymLen(pat: seq<byte>, numSyms: nat, ghost rank: seq<nat>) returns (symLen: seq<byte>)
    requires Grammar(pat, rank) && numSyms == |rank|
    ensures SymLenTable(pat, rank, symLen)
  {
    var lens := new byte[numSyms](_ => 0);
    var known := new bool[numSyms](_ => false);
    for s := 0 to numSyms
      invariant LengthsKnown(pat, rank, lens, known)
      invariant forall t | 0 <= t < s :: known[t]
    {
      CalcIfUnknown(pat, lens, known, s, rank);
    }
    symLen := lens[..];
  }

  /** Walks down the grammar to one leaf of an expansion. */
  method Descend(pat: seq<byte>, symLen: seq<byte>, symbol: Symbol, litIdx: nat, ghost rank: seq<nat>)
    returns (leaf: Symbol)
    requires Acyclic(pat, rank) && SymLenTable(pat, rank, symLen)
    requires symbol < |rank| && litIdx < |Expand(pat, rank, symbol)|
    ensures leaf == Expand(pat, rank, symbol)[litIdx]
    ensures leaf < |rank| && IsLeaf(pat, leaf)
  {
    var sym: Symbol, lit: nat := symbol, litIdx;
    while symLen[sym] != 0
      invariant sym < |rank| && lit < |Expand(pat, rank, sym)|
      invariant Expand(pat, rank, sym)[lit] == Expand(pat, rank, symbol)[litIdx]
      decreases rank[sym]
    {
      assert SplitsDownward(pat, rank, sym) && !IsLeaf(pat, sym);
      var s1 := Left(pat, sym);
      if lit < symLen[s1] as int + 1 {
        sym := s1;
      } else {
        lit := lit - (symLen[s1] as int + 1);
        sym := Right(pat, sym);
      }
    }
    leaf := sym;
  }
}
