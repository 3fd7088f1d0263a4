/** The canonical Huffman code of a compressed table. Longer codewords have smaller values; the
    symbols of one length are numbered consecutively, and offset[i] is the first symbol whose
    codeword has minLen + i bits. */
module CanonicalCode {
  import opened Bits

  datatype Code = Code(minLen: nat, offset: seq<nat>, numSyms: nat)

  /** How many codewords have minLen + i bits. */
  function Count(c: Code, i: nat): int
    requires i < |c.offset|
  {
    (if i == 0 then c.numSyms else c.offset[i - 1]) - c.offset[i]
  }

  /** The part of the code space used by the n shortest lengths, in units of the longest codeword. */
  function KraftSum(c: Code, n: nat): int
    requires n <= |c.offset|
  {
    if n == 0 then 0 else KraftSum(c, n - 1) + Shl(Count(c, n - 1), |c.offset| - n)
  }

  /** The file contract: lengths are 1 to 32 bits, the shortest one is used, the lengths cover all
      symbols, and the code is complete (Kraft's equality). */
  ghost predicate Complete(c: Code) {
    && |c.offset| >= 1
    && 1 <= c.minLen && c.minLen + |c.offset| - 1 <= 32
    && c.offset[|c.offset| - 1] == 0
    && (forall i: nat | i < |c.offset| :: Count(c, i) >= 0)
    && Count(c, 0) >= 1
    && KraftSum(c, |c.offset|) == Pow2(c.minLen + |c.offset| - 1)
  }

  /** The smallest codeword of each length, when codewords are handed out from the shortest length
      down, each length using the top of what is left. */
  function FirstCode(c: Code, i: nat): int
    requires i < |c.offset|
  {
    if i == 0 then Pow2(c.minLen) - Count(c, 0) else 2 * FirstCode(c, i - 1) - Count(c, i)
  }

  lemma {:induction false} FirstCodeIsWhatIsLeft(c: Code, i: nat)
    requires i < |c.offset|
    ensures Shl(FirstCode(c, i), |c.offset| - 1 - i) == Pow2(c.minLen + |c.offset| - 1) - KraftSum(c, i + 1)
  {
    var n := |c.offset| - 1 - i;
    if i == 0 {
      ShlAdd(FirstCode(c, 0), Count(c, 0), n);
      ShlPow2(c.minLen, n);
    } else {
      FirstCodeIsWhatIsLeft(c, i - 1);
      ShlAdd(FirstCode(c, i), Count(c, i), n);
      ShlTwice(FirstCode(c, i - 1), n);
    }
  }

  /** Kraft's equality leaves nothing below the longest codeword. */
  lemma LastCodeIsZero(c: Code)
    requires Complete(c)
    ensures FirstCode(c, |c.offset| - 1) == 0
  {
    FirstCodeIsWhatIsLeft(c, |c.offset| - 1);
  }

  lemma {:induction false} FirstCodeNonNegative(c: Code, i: nat)
    requires Complete(c) && i < |c.offset|
    ensures FirstCode(c, i) >= 0
    decreases |c.offset| - i
  {
    if i == |c.offset| - 1 {
      LastCodeIsZero(c);
    } else {
      FirstCodeNonNegative(c, i + 1);
    }
  }

  lemma {:induction false} FirstCodeFits(c: Code, i: nat)
    requires Complete(c) && i < |c.offset|
    ensures FirstCode(c, i) < Pow2(c.minLen + i)
  {
    if i != 0 {
      FirstCodeFits(c, i - 1);
    }
  }

  /** The left-aligned 64-bit form of FirstCode that the decoder compares with. */
  ghost function Base(c: Code, i: nat): int
    requires i < |c.offset| && c.minLen + i <= WORD
  {
    Shl(FirstCode(c, i), WORD - (c.minLen + i))
  }

  lemma BaseFits(c: Code, i: nat)
    requires Complete(c) && i < |c.offset|
    ensures 0 <= Base(c, i) < Pow2(WORD)
  {
    var n := WORD - (c.minLen + i);
    FirstCodeNonNegative(c, i);
    FirstCodeFits(c, i);
    ShlNonNegative(FirstCode(c, i), n);
    ShlStep(FirstCode(c, i), Pow2(c.minLen + i), n);
    ShlPow2(c.minLen + i, n);
  }

  /** One halving step of the base table is exact. */
  lemma HalvingIsExact(c: Code, i: nat)
    requires Complete(c) && i + 1 < |c.offset|
    ensures FirstCode(c, i) >= 0
    ensures (FirstCode(c, i + 1) + c.offset[i] - c.offset[i + 1]) / 2 == FirstCode(c, i)
  {
    FirstCodeNonNegative(c, i);
  }

  lemma AlignedBase(c: Code, i: nat)
    requires Complete(c) && i < |c.offset|
    ensures FirstCode(c, i) >= 0 && Base(c, i) >= 0
    ensures Low(Shl(FirstCode(c, i), WORD - (c.minLen + i)), WORD) == Base(c, i)
  {
    FirstCodeNonNegative(c, i);
    BaseFits(c, i);
    Cut(0, Base(c, i), WORD);
    ShlZero(WORD);
  }

  lemma {:induction false} ShlZero(n: nat)
    ensures Shl(0, n) == 0
  {
    if n != 0 { ShlZero(n - 1); }
  }

  /** Fills the base table from the longest length upwards; the halvings are exact. */
  method BuildBase(c: Code) returns (base: seq<nat>)
    requires Complete(c)
    ensures |base| == |c.offset|
    ensures forall i: nat | i < |base| :: base[i] == Base(c, i)
  {
    var h := |c.offset|;
    var b := new nat[h](_ => 0);
    LastCodeIsZero(c);
    b[h - 1] := 0;
    var i := h - 2;
    while i >= 0
      invariant -1 <= i <= h - 2
      invariant forall j: nat | i < j < h :: b[j] == FirstCode(c, j)
    {
      HalvingIsExact(c, i);
      b[i] := (b[i + 1] + c.offset[i] - c.offset[i + 1]) / 2;
      i := i - 1;
    }
    AlignBase(c, b);
    base := b[..];
  }

  method AlignBase(c: Code, b: array<nat>)
    requires Complete(c) && b.Length == |c.offset|
    requires forall j: nat | j < b.Length :: b[j] == FirstCode(c, j)
    modifies b
    ensures forall j: nat | j < b.Length :: b[j] == Base(c, j)
  {
    for k := 0 to b.Length
      invariant forall j: nat | j < k :: b[j] == Base(c, j)
      invariant forall j: nat | k <= j < b.Length :: b[j] == FirstCode(c, j)
    {
      b[k] := AlignWord(c, k, b[k]);
    }
  }

  method AlignWord(c: Code, i: nat, word: nat) returns (aligned: nat)
    requires Complete(c) && i < |c.offset| && word == FirstCode(c, i)
    ensures aligned == Base(c, i)
  {
    AlignedBase(c, i);
    aligned := Low(Shl(word, WORD - (c.minLen + i)), WORD);
  }

  // ---------- codewords ----------

  /** Which length a symbol's codeword has (as an index above minLen). */
  function LengthIndex(c: Code, s: nat, from: nat): (i: nat)
    requires from < |c.offset| && c.offset[|c.offset| - 1] == 0
    ensures from <= i < |c.offset| && c.offset[i] <= s
    ensures i > from ==> s < c.offset[i - 1]
    decreases |c.offset| - from
  {
    if s >= c.offset[from] then from else LengthIndex(c, s, from + 1)
  }

  function CodeLength(c: Code, s: nat): nat
    requires |c.offset| >= 1 && c.offset[|c.offset| - 1] == 0
  {
    c.minLen + LengthIndex(c, s, 0)
  }

  function CodeValue(c: Code, s: nat): int
    requires |c.offset| >= 1 && c.offset[|c.offset| - 1] == 0
  {
    var i := LengthIndex(c, s, 0);
    FirstCode(c, i) + (s - c.offset[i])
  }

  lemma CodeValueFits(c: Code, s: nat)
    requires Complete(c) && s < c.numSyms
    ensures 0 <= CodeValue(c, s) < Pow2(CodeLength(c, s))
    ensures var i := LengthIndex(c, s, 0); i > 0 ==> CodeValue(c, s) < 2 * FirstCode(c, i - 1)
  {
    var i := LengthIndex(c, s, 0);
    FirstCodeNonNegative(c, i);
    if i > 0 {
      FirstCodeFits(c, i - 1);
    }
  }

  function CodeWord(c: Code, s: nat): seq<bit>
    requires Complete(c) && s < c.numSyms
  {
    CodeValueFits(c, s);
    ToBits(CodeValue(c, s), CodeLength(c, s))
  }

  lemma {:induction false} BaseDecreases(c: Code, i: nat, j: nat)
    requires Complete(c) && i <= j < |c.offset|
    ensures Base(c, i) >= Base(c, j)
    decreases j
  {
    if i < j {
      var n := WORD - (c.minLen + j);
      BaseDecreases(c, i, j - 1);
      ShlTwice(FirstCode(c, j - 1), n);
      ShlMonotone(FirstCode(c, j), 2 * FirstCode(c, j - 1), n);
    }
  }

  /** A 64-bit window starts with the codeword of s and goes on with rest. */
  ghost predicate StartsWith(c: Code, s: nat, window: int, rest: int)
    requires Complete(c) && s < c.numSyms
  {
    var n := WORD - CodeLength(c, s);
    window == Shl(CodeValue(c, s), n) + rest && 0 <= rest < Pow2(n)
  }

  lemma WindowAboveBase(c: Code, s: nat, window: int, rest: int)
    requires Complete(c) && s < c.numSyms && StartsWith(c, s, window, rest)
    ensures var i := LengthIndex(c, s, 0);
            && window >= Base(c, i)
            && Shr(window - Base(c, i), WORD - CodeLength(c, s)) == s - c.offset[i]
  {
    var i := LengthIndex(c, s, 0);
    var n := WORD - CodeLength(c, s);
    var d := s - c.offset[i];
    ShlAdd(FirstCode(c, i), d, n);
    assert window - Base(c, i) == Shl(d, n) + rest;
    Cut(d, rest, n);
  }

  lemma WindowBelowShorterBase(c: Code, s: nat, window: int, rest: int, j: nat)
    requires Complete(c) && s < c.numSyms && StartsWith(c, s, window, rest)
    requires j < LengthIndex(c, s, 0)
    ensures window < Base(c, j)
  {
    var i := LengthIndex(c, s, 0);
    var n := WORD - CodeLength(c, s);
    CodeValueFits(c, s);
    ShlStep(CodeValue(c, s), 2 * FirstCode(c, i - 1), n);
    ShlTwice(FirstCode(c, i - 1), n);
    BaseDecreases(c, j, i - 1);
  }

  /** What the length scan sees: such a window is below the base of every shorter length and not
      below the base of its own. */
  lemma WindowBounds(c: Code, s: nat, window: int, rest: int)
    requires Complete(c) && s < c.numSyms && StartsWith(c, s, window, rest)
    ensures var i := LengthIndex(c, s, 0);
            && window >= Base(c, i)
            && Shr(window - Base(c, i), WORD - CodeLength(c, s)) == s - c.offset[i]
            && forall j: nat | j < i :: window < Base(c, j)
  {
    WindowAboveBase(c, s, window, rest);
    forall j: nat | j < LengthIndex(c, s, 0)
      ensures window < Base(c, j)
    {
      WindowBelowShorterBase(c, s, window, rest, j);
    }
  }

  /** Reads the symbol a window starts with. */
  method ReadSymbol(c: Code, base: seq<nat>, window: nat, ghost s: nat, ghost rest: int)
    returns (len: nat, sym: nat)
    requires Complete(c) && s < c.numSyms && StartsWith(c, s, window, rest)
    requires |base| == |c.offset| && forall i: nat | i < |base| :: base[i] == Base(c, i)
    ensures sym == s && len == CodeLength(c, s)
  {
    ghost var target := LengthIndex(c, s, 0);
    WindowBounds(c, s, window, rest);
    var l := c.minLen;
    while window < base[l - c.minLen]
      invariant c.minLen <= l <= c.minLen + target
      decreases c.minLen + target - l
    {
      assert window >= Base(c, target);
      l := l + 1;
    }
    assert l == c.minLen + target;
    len := l;
    sym := c.offset[l - c.minLen] + Shr(window - base[l - c.minLen], WORD - l);
  }

  lemma WordStartsWindow(c: Code, s: nat, window: seq<bit>)
    requires Complete(c) && s < c.numSyms
    requires |window| == WORD && CodeWord(c, s) <= window
    ensures StartsWith(c, s, Num(window), Num(window[CodeLength(c, s)..]))
  {
    var w := CodeWord(c, s);
    assert window == w + window[|w|..];
    NumConcat(w, window[|w|..]);
    CodeValueFits(c, s);
    NumToBits(CodeValue(c, s), CodeLength(c, s));
  }

  /** The code is prefix-free: no bit string starts with the codewords of two symbols. */
  lemma PrefixFree(c: Code, s: nat, t: nat, bits: seq<bit>)
    requires Complete(c) && s < c.numSyms && t < c.numSyms
    requires CodeWord(c, s) <= bits && CodeWord(c, t) <= bits
    ensures s == t
  {
    var pad := seq(WORD, _ => 0);
    var window := (bits + pad)[..WORD];
    assert CodeWord(c, s) <= window && CodeWord(c, t) <= window;
    WordStartsWindow(c, s, window);
    WordStartsWindow(c, t, window);
    WindowBounds(c, s, Num(window), Num(window[CodeLength(c, s)..]));
    WindowBounds(c, t, Num(window), Num(window[CodeLength(c, t)..]));
    var i, j := LengthIndex(c, s, 0), LengthIndex(c, t, 0);
    assert i == j;
  }

  // ---------- the order of the codewords ----------

  /** A codeword as the upper end of a 64-bit word, the rest clear. */
  ghost function Aligned(c: Code, s: nat): int
    requires Complete(c) && s < c.numSyms
  {
    Shl(CodeValue(c, s), WORD - CodeLength(c, s))
  }

  /** A length without codewords does not move the base. */
  lemma {:induction false} EmptyLengths(c: Code, j: nat, k: nat)
    requires Complete(c) && j <= k < |c.offset| && c.offset[j] == c.offset[k]
    ensures Base(c, j) == Base(c, k)
    decreases k
  {
    if j < k {
      OffsetsFall(c, j, k - 1);
      assert Count(c, k) >= 0;
      EmptyLengths(c, j, k - 1);
      ShlTwice(FirstCode(c, k - 1), WORD - (c.minLen + k));
    }
  }

  lemma {:induction false} OffsetsFall(c: Code, j: nat, k: nat)
    requires Complete(c) && j <= k < |c.offset|
    ensures c.offset[j] >= c.offset[k]
    decreases k
  {
    if j < k {
      OffsetsFall(c, j, k - 1);
      assert Count(c, k) >= 0;
    }
  }

  lemma LengthIndexIs(c: Code, s: nat, i: nat)
    requires Complete(c) && i < |c.offset| && c.offset[i] <= s && (i > 0 ==> s < c.offset[i - 1])
    ensures LengthIndex(c, s, 0) == i
  {
    var j := LengthIndex(c, s, 0);
    if j < i { OffsetsFall(c, j, i - 1); }
    if i < j { OffsetsFall(c, i, j - 1); }
  }

  /** Where a length begins, its first codeword stands at its base. */
  lemma FirstOfLength(c: Code, s: nat, k: nat)
    requires Complete(c) && s < c.numSyms && k < |c.offset| && c.offset[k] == s
    ensures Aligned(c, s) == Base(c, k)
  {
    var j := LengthIndex(c, s, 0);
    if j > k {
      OffsetsFall(c, k, j - 1);
      assert false;
    }
    OffsetsFall(c, j, k);
    EmptyLengths(c, j, k);
  }

  lemma EndOfWord(c: Code, s: nat)
    requires Complete(c) && s < c.numSyms
    ensures Aligned(c, s) + Pow2(WORD - CodeLength(c, s)) == Shl(CodeValue(c, s) + 1, WORD - CodeLength(c, s))
  {
    ShlAdd(CodeValue(c, s), 1, WORD - CodeLength(c, s));
    ShlOne(WORD - CodeLength(c, s));
  }

  /** The last codeword of the shortest length ends the code space. */
  lemma EndOfShortest(c: Code, s: nat)
    requires Complete(c) && s + 1 == c.numSyms && LengthIndex(c, s, 0) == 0
    ensures Shl(CodeValue(c, s) + 1, WORD - CodeLength(c, s)) == Pow2(WORD)
  {
    ShlPow2(c.minLen, WORD - c.minLen);
  }

  /** The last codeword of another length ends where the next shorter length begins. */
  lemma EndOfLength(c: Code, s: nat)
    requires Complete(c) && s < c.numSyms
    requires var i := LengthIndex(c, s, 0); i > 0 && s + 1 == c.offset[i - 1]
    ensures s + 1 < c.numSyms
    ensures Shl(CodeValue(c, s) + 1, WORD - CodeLength(c, s)) == Aligned(c, s + 1)
  {
    var i := LengthIndex(c, s, 0);
    NotTheEnd(c, i - 1);
    ShlTwice(FirstCode(c, i - 1), WORD - CodeLength(c, s));
    FirstOfLength(c, s + 1, i - 1);
  }

  lemma NotTheEnd(c: Code, k: nat)
    requires Complete(c) && k < |c.offset|
    ensures c.offset[k] < c.numSyms
  {
    OffsetsFall(c, 0, k);
    assert Count(c, 0) >= 1;
  }

  /** In the order of the symbols the codewords fill the code space from zero on, without gaps: each
      symbol's words end where the next symbol's begin. */
  lemma CodesTile(c: Code, s: nat)
    requires Complete(c) && s < c.numSyms
    ensures s == 0 ==> Aligned(c, s) == 0
    ensures Aligned(c, s) + Pow2(WORD - CodeLength(c, s))
         == if s + 1 < c.numSyms then Aligned(c, s + 1) else Pow2(WORD)
  {
    if s == 0 { ZeroComesFirst(c); }
    EndOfWord(c, s);
    var i := LengthIndex(c, s, 0);
    if s + 1 < if i == 0 then c.numSyms else c.offset[i - 1] {
      LengthIndexIs(c, s + 1, i);
    } else if i == 0 {
      EndOfShortest(c, s);
    } else {
      EndOfLength(c, s);
    }
  }

  lemma ZeroComesFirst(c: Code)
    requires Complete(c) && 0 < c.numSyms
    ensures Aligned(c, 0) == 0
  {
    var h := |c.offset| - 1;
    FirstOfLength(c, 0, h);
    LastCodeIsZero(c);
    ShlZero(WORD - (c.minLen + h));
  }
}
