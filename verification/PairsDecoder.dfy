/** Random access into a table stored as blocks of canonically coded pair symbols. */
module PairsDecoder {
  import opened Bits
  import opened PairGrammar
  import opened CanonicalCode

  /** One entry of the index table: a block and a position inside it. */
  datatype Sample = Sample(block: nat, offset: nat)

  /** The first two bytes of a value; callers read no more. */
  datatype Value = Value(b0: byte, b1: byte)

  /** The parsed header of a table section. A table with one value has only its flags and that value. */
  datatype Header = Header(flags: byte, single: byte, blockSize: nat, idxBits: nat, code: Code, symPat: seq<byte>)

  datatype PairsData = PairsData(
    blockSize: nat,
    idxBits: nat,
    code: Code,
    base: seq<nat>,
    symLen: seq<byte>,
    symPat: seq<byte>,
    indexTable: seq<Sample>,
    sizeTable: seq<nat>,
    data: seq<byte>,
    constValue: Value)

  // ---------- what the file means ----------

  function SymbolValue(pat: seq<byte>, s: Symbol): Value
    requires 3 * s + 2 < |pat|
  {
    Value(pat[3 * s], pat[3 * s + 1])
  }

  ghost predicate Symbols(rank: seq<nat>, syms: seq<Symbol>) {
    forall i: nat | i < |syms| :: syms[i] < |rank|
  }

  /** The leaves of a run of symbols, each expanded in order. */
  ghost function ExpandAll(pat: seq<byte>, rank: seq<nat>, syms: seq<Symbol>): (leaves: seq<Symbol>)
    requires Acyclic(pat, rank) && Symbols(rank, syms)
  {
    if syms == [] then [] else Expand(pat, rank, syms[0]) + ExpandAll(pat, rank, syms[1..])
  }

  /** The leaves of all blocks in order: the full decompression of the table. */
  ghost function ExpandBlocks(pat: seq<byte>, rank: seq<nat>, blocks: seq<seq<Symbol>>): seq<Symbol>
    requires Acyclic(pat, rank) && forall b: nat | b < |blocks| :: Symbols(rank, blocks[b])
  {
    if blocks == [] then [] else ExpandAll(pat, rank, blocks[0]) + ExpandBlocks(pat, rank, blocks[1..])
  }

  /** The bits of a run of symbols. */
  ghost function Encoding(c: Code, syms: seq<Symbol>): seq<bit>
    requires Complete(c) && forall i: nat | i < |syms| :: syms[i] < c.numSyms
  {
    if syms == [] then [] else CodeWord(c, syms[0]) + Encoding(c, syms[1..])
  }

  /** How many values the blocks before b hold according to the size table. */
  function BlockStart(sizes: seq<nat>, b: nat): nat
    requires b <= |sizes|
  {
    if b == 0 then 0 else BlockStart(sizes, b - 1) + sizes[b - 1] + 1
  }

  // ---------- the file contract ----------

  /** Block b's bytes start here. */
  function BlockAddress(d: PairsData, b: nat): (a: nat) {
    ShlNonNegative(b, d.blockSize);
    Shl(b, d.blockSize)
  }

  ghost predicate Decodable(d: PairsData, rank: seq<nat>) {
    && Grammar(d.symPat, rank) && Complete(d.code) && |rank| == d.code.numSyms
    && SymLenTable(d.symPat, rank, d.symLen)
    && |d.base| == |d.code.offset| && forall i: nat | i < |d.base| :: d.base[i] == Base(d.code, i)
  }

  /** The bits of block b start with the codewords of syms, and syms expand to as many values as the
      size table says. The decoder reads a word ahead, so the mapping must go on for eight bytes
      behind the block. */
  ghost predicate BlockHolds(d: PairsData, rank: seq<nat>, b: nat, syms: seq<Symbol>)
    requires Decodable(d, rank)
  {
    var start := BlockAddress(d, b);
    && Symbols(rank, syms)
    && b < |d.sizeTable| && |ExpandAll(d.symPat, rank, syms)| == d.sizeTable[b] + 1
    && start + Pow2(d.blockSize) + 8 <= |d.data|
    && |Encoding(d.code, syms)| <= 8 * Pow2(d.blockSize)
    && Encoding(d.code, syms) <= StreamBits(d.data)[8 * start..]
  }

  ghost predicate SampleHolds(samples: seq<Sample>, sizes: seq<nat>, idxBits: nat, i: nat)
    requires i < |samples| && idxBits >= 1
  {
    && samples[i].block <= |sizes|
    && BlockStart(sizes, samples[i].block) + samples[i].offset == Shl(i, idxBits) + Pow2(idxBits - 1)
  }

  /** A sample points into the middle of the values it stands for: 2^idxBits of them each. */
  lemma SampleIsMiddle(samples: seq<Sample>, sizes: seq<nat>, idxBits: nat, i: nat)
    requires i < |samples| && idxBits >= 1 && SampleHolds(samples, sizes, idxBits, i)
    ensures var n := Pow2(idxBits);
            BlockStart(sizes, samples[i].block) + samples[i].offset == i * n + n / 2
  {
    ShlIsTimes(i, idxBits);
  }

  /** Blocks are 2^blockSize bytes long. */
  lemma BlocksAreEven(d: PairsData, b: nat)
    ensures BlockAddress(d, b) == b * Pow2(d.blockSize)
  {
    ShlIsTimes(b, d.blockSize);
  }

  /** The table stores exactly the given symbols, block by block. */
  ghost predicate Stores(d: PairsData, rank: seq<nat>, blocks: seq<seq<Symbol>>) {
    && Decodable(d, rank)
    && 1 <= d.idxBits <= 30 && |d.indexTable| <= 0x1_0000_0000
    && (forall i: nat | i < |d.indexTable| :: SampleHolds(d.indexTable, d.sizeTable, d.idxBits, i))
    && |blocks| <= |d.sizeTable|
    && forall b: nat | b < |blocks| :: BlockHolds(d, rank, b, blocks[b])
  }

  ghost function Contents(d: PairsData, rank: seq<nat>, blocks: seq<seq<Symbol>>): seq<Symbol>
    requires Stores(d, rank, blocks)
  {
    StoredBlocksAreSized(d, rank, blocks);
    ExpandBlocks(d.symPat, rank, blocks)
  }

  /** The table a file stores is determined by the file. */
  lemma StoredOnce(d: PairsData, rank: seq<nat>, blocks: seq<seq<Symbol>>, blocks': seq<seq<Symbol>>)
    requires Stores(d, rank, blocks) && Stores(d, rank, blocks') && |blocks| == |blocks'|
    ensures blocks == blocks'
  {
    forall b: nat | b < |blocks|
      ensures blocks[b] == blocks'[b]
    {
      assert BlockHolds(d, rank, b, blocks[b]) && BlockHolds(d, rank, b, blocks'[b]);
      ParseOnce(d, rank, StreamBits(d.data)[8 * BlockAddress(d, b)..], blocks[b], blocks'[b]);
    }
  }

  lemma {:induction false} ParseOnce(d: PairsData, rank: seq<nat>, bits: seq<bit>, s: seq<Symbol>, t: seq<Symbol>)
    requires Decodable(d, rank) && Symbols(rank, s) && Symbols(rank, t)
    requires Encoding(d.code, s) <= bits && Encoding(d.code, t) <= bits
    requires |ExpandAll(d.symPat, rank, s)| == |ExpandAll(d.symPat, rank, t)|
    ensures s == t
    decreases |s|
  {
    if s == [] || t == [] {
    } else {
      NextCodeWord(d.code, bits, 0, |bits|, s);
      NextCodeWord(d.code, bits, 0, |bits|, t);
      assert bits[0..] == bits;
      PrefixFree(d.code, s[0], t[0], bits);
      ParseOnce(d, rank, bits[CodeLength(d.code, s[0])..], s[1..], t[1..]);
    }
  }

  // ---------- preparing a table ----------

  method SetupPairs(h: Header, isWdl: bool, samples: seq<Sample>, sizes: seq<nat>, data: seq<byte>,
                    ghost rank: seq<nat>)
    returns (d: PairsData)
    requires h.flags < 0x80 ==> Grammar(h.symPat, rank) && Complete(h.code) && |rank| == h.code.numSyms
    ensures h.flags >= 0x80 ==> d.idxBits == 0 && d.constValue == Value(if isWdl then h.single else 0, 0)
    ensures h.flags < 0x80 ==>
              && Decodable(d, rank)
              && d.blockSize == h.blockSize && d.idxBits == h.idxBits && d.code == h.code && d.symPat == h.symPat
              && d.indexTable == samples && d.sizeTable == sizes && d.data == data
  {
    if h.flags >= 0x80 {
      return PairsData(h.blockSize, 0, h.code, [], [], h.symPat, samples, sizes, data,
                       Value(if isWdl then h.single else 0, 0));
    }
    var symLen := BuildSymLen(h.symPat, h.code.numSyms, rank);
    var base := BuildBase(h.code);
    d := PairsData(h.blockSize, h.idxBits, h.code, base, symLen, h.symPat, samples, sizes, data, Value(0, 0));
  }

  // ---------- finding the block ----------

  lemma {:induction false} BlockStartMonotone(sizes: seq<nat>, a: nat, b: nat)
    requires a <= b <= |sizes|
    ensures BlockStart(sizes, a) + (b - a) <= BlockStart(sizes, b)
    decreases b
  {
    if a < b {
      BlockStartMonotone(sizes, a, b - 1);
    }
  }

  /** Walks from the sampled block to the one holding value idx. */
  method FindBlock(samples: seq<Sample>, sizes: seq<nat>, idxBits: nat, idx: nat, ghost limit: nat)
    returns (block: nat, litIdx: nat)
    requires 1 <= idxBits && limit <= |sizes| && idx < BlockStart(sizes, limit)
    requires Shr(idx, idxBits) < |samples| <= 0x1_0000_0000
    requires forall i: nat | i < |samples| :: SampleHolds(samples, sizes, idxBits, i)
    ensures block < limit && litIdx <= sizes[block]
    ensures BlockStart(sizes, block) + litIdx == idx
  {
    LowKeepsSmall(Shr(idx, idxBits));
    var mainIdx := Low(Shr(idx, idxBits), 32);
    var lit: int := Low(idx, idxBits) - Pow2(idxBits - 1);
    ShrLow(idx, idxBits);
    assert SampleHolds(samples, sizes, idxBits, mainIdx);
    block := samples[mainIdx].block;
    lit := lit + samples[mainIdx].offset;
    assert BlockStart(sizes, block) + lit == idx;
    if lit < 0 {
      while lit < 0
        invariant block <= |sizes|
        invariant BlockStart(sizes, block) + lit == idx
        invariant lit >= 0 ==> block < |sizes| && lit <= sizes[block]
        decreases block
      {
        block := block - 1;
        lit := lit + sizes[block] + 1;
      }
      InsideTable(sizes, block, lit, limit);
    } else {
      InsideTable(sizes, block, lit, limit);
      while lit > sizes[block]
        invariant lit >= 0 && block < limit
        invariant BlockStart(sizes, block) + lit == idx
        decreases limit - block
      {
        lit := lit - (sizes[block] + 1);
        block := block + 1;
        InsideTable(sizes, block, lit, limit);
      }
    }
    litIdx := lit;
  }

  lemma LowKeepsSmall(x: nat)
    requires x < 0x1_0000_0000
    ensures Low(x, 32) == x
  {
    assert Pow2(8) == 256;
    ShlPow2(8, 8); ShlByByte(0x100);
    ShlPow2(16, 8); ShlByByte(0x1_0000);
    ShlPow2(24, 8); ShlByByte(0x100_0000);
    Cut(0, x, 32);
    ShlZero(32);
  }

  lemma InsideTable(sizes: seq<nat>, block: nat, lit: int, limit: nat)
    requires block <= |sizes| && limit <= |sizes| && lit >= 0
    requires BlockStart(sizes, block) + lit < BlockStart(sizes, limit)
    ensures block < limit
  {
    if limit <= block {
      BlockStartMonotone(sizes, limit, block);
    }
  }

  // ---------- reading symbols through the 64-bit buffer ----------

  /** The buffer holds the stream bits from pos on, left aligned, its empty low bits clear. */
  ghost predicate Buffered(bits: seq<bit>, pos: nat, end: nat, code: nat, empty: nat) {
    && pos <= end <= |bits| && empty <= WORD
    && end - pos == WORD - empty
    && code == Shl(Num(bits[pos..end]), empty)
  }

  lemma BufferStartsWith(c: Code, s: Symbol, bits: seq<bit>, pos: nat, end: nat, code: nat, empty: nat)
    requires Complete(c) && s < c.numSyms
    requires Buffered(bits, pos, end, code, empty) && empty < 32
    requires CodeWord(c, s) <= bits[pos..]
    ensures CodeLength(c, s) <= 32
    ensures StartsWith(c, s, code, Shl(Num(bits[pos + CodeLength(c, s)..end]), empty))
  {
    var r := bits[pos + CodeLength(c, s)..end];
    BufferSplits(c, s, bits, pos, end);
    LeadingPart(CodeValue(c, s), Num(r), |r|, empty);
  }

  lemma BufferSplits(c: Code, s: Symbol, bits: seq<bit>, pos: nat, end: nat)
    requires Complete(c) && s < c.numSyms
    requires pos + 32 <= end <= |bits| && CodeWord(c, s) <= bits[pos..]
    ensures CodeLength(c, s) <= 32 && CodeValue(c, s) >= 0
    ensures var r := bits[pos + CodeLength(c, s)..end];
            Num(bits[pos..end]) == Shl(CodeValue(c, s), |r|) + Num(r)
  {
    var l := CodeLength(c, s);
    var w, r := CodeWord(c, s), bits[pos + l..end];
    assert bits[pos..end] == w + r by {
      assert bits[pos..][..l] == w;
    }
    NumConcat(w, r);
    CodeValueFits(c, s);
    NumToBits(CodeValue(c, s), l);
  }

  /** A number whose n low bits are r, left aligned over e more bits, splits there. */
  lemma LeadingPart(v: nat, r: nat, n: nat, e: nat)
    requires r < Pow2(n)
    ensures Shl(Shl(v, n) + r, e) == Shl(v, n + e) + Shl(r, e)
    ensures 0 <= Shl(r, e) < Pow2(n + e)
  {
    ShlAdd(Shl(v, n), r, e);
    ShlShl(v, n, e);
    ShlNonNegative(r, e);
    ShlStep(r, Pow2(n), e);
    ShlPow2(n, e);
  }

  /** Shifting out l bits. */
  lemma Consume(bits: seq<bit>, pos: nat, end: nat, code: nat, empty: nat, l: nat)
    requires Buffered(bits, pos, end, code, empty) && empty + l <= WORD
    ensures Shl(code, l) >= 0
    ensures Buffered(bits, pos + l, end, Low(Shl(code, l), WORD), empty + l)
  {
    var w, r := bits[pos..pos + l], bits[pos + l..end];
    assert bits[pos..end] == w + r;
    NumConcat(w, r);
    ShiftOut(Num(w), Num(r), |r|, empty, l);
  }

  lemma ShiftOut(v: nat, r: nat, n: nat, e: nat, l: nat)
    requires r < Pow2(n) && n + e + l == WORD
    ensures Shl(Shl(Shl(v, n) + r, e), l) >= 0
    ensures Low(Shl(Shl(Shl(v, n) + r, e), l), WORD) == Shl(r, e + l)
  {
    ShlShl(Shl(v, n) + r, e, l);
    LeadingPart(v, r, n, e + l);
    Cut(v, Shl(r, e + l), WORD);
  }

  /** OR-ing in the next 32 bits of the stream. */
  lemma Refill(bits: seq<bit>, pos: nat, end: nat, code: nat, empty: nat, word: nat)
    requires Buffered(bits, pos, end, code, empty) && empty >= 32
    requires end + 32 <= |bits| && word == Num(bits[end..end + 32])
    ensures Shl(word, empty - 32) >= 0
    ensures Buffered(bits, pos, end + 32, Or(code, Shl(word, empty - 32)), empty - 32)
  {
    var a, b := bits[pos..end], bits[end..end + 32];
    assert bits[pos..end + 32] == a + b;
    NumConcat(a, b);
    OrIn(Num(a), word, empty);
  }

  lemma OrIn(a: nat, word: nat, e: nat)
    requires word < Pow2(32) && e >= 32
    ensures Shl(word, e - 32) >= 0 && Shl(a, e) >= 0
    ensures Or(Shl(a, e), Shl(word, e - 32)) == Shl(Shl(a, 32) + word, e - 32)
  {
    LeadingPart(a, word, 32, e - 32);
    OrDisjoint(a, e, Shl(word, e - 32));
  }

  /** The stream goes on with the codewords of todo, and they end inside the block. */
  ghost predicate Pending(c: Code, bits: seq<bit>, pos: nat, blockEnd: nat, todo: seq<Symbol>)
    requires Complete(c)
  {
    && (forall i: nat | i < |todo| :: todo[i] < c.numSyms)
    && pos + |Encoding(c, todo)| <= blockEnd <= |bits|
    && Encoding(c, todo) <= bits[pos..]
  }

  lemma NextCodeWord(c: Code, bits: seq<bit>, pos: nat, blockEnd: nat, todo: seq<Symbol>)
    requires Complete(c) && Pending(c, bits, pos, blockEnd, todo) && todo != []
    ensures CodeWord(c, todo[0]) <= bits[pos..]
    ensures Pending(c, bits, pos + CodeLength(c, todo[0]), blockEnd, todo[1..])
  {
    var w, r := CodeWord(c, todo[0]), Encoding(c, todo[1..]);
    assert Encoding(c, todo) == w + r;
    assert bits[pos..][..|w|] == w;
    assert bits[pos..][|w|..] == bits[pos + |w|..];
  }

  /** Takes the first eight bytes of a block into the buffer. */
  method Fill(data: seq<byte>, start: nat) returns (code: nat)
    requires start + 8 <= |data|
    ensures Buffered(StreamBits(data), 8 * start, 8 * (start + 8), code, 0)
  {
    code := BigEndian(data[start..start + 8]);
    BigEndianIsNum(data[start..start + 8]);
    StreamBitsSlice(data, start, start + 8);
  }

  /** Drops l bits from the buffer and takes in the next four bytes once there is room for them. */
  method Advance(data: seq<byte>, code: nat, empty: nat, ptr: nat, l: nat, ghost pos: nat)
    returns (code': nat, empty': nat, ptr': nat)
    requires Buffered(StreamBits(data), pos, 8 * ptr, code, empty) && empty < 32 && l <= 32
    requires pos + l <= 8 * (|data| - 8)
    ensures empty' < 32 && Buffered(StreamBits(data), pos + l, 8 * ptr', code', empty')
  {
    Consume(StreamBits(data), pos, 8 * ptr, code, empty, l);
    code', empty', ptr' := Low(Shl(code, l), WORD), empty + l, ptr;
    if empty' >= 32 {
      code', empty', ptr' := TopUp(data, code', empty', ptr, pos + l);
    }
  }

  /** Takes the next four bytes into a buffer that has room for them. */
  method TopUp(data: seq<byte>, code: nat, empty: nat, ptr: nat, ghost pos: nat)
    returns (code': nat, empty': nat, ptr': nat)
    requires Buffered(StreamBits(data), pos, 8 * ptr, code, empty) && 32 <= empty < WORD
    requires ptr + 4 <= |data|
    ensures Buffered(StreamBits(data), pos, 8 * ptr', code', empty') && empty' < 32
  {
    var word := BigEndian(data[ptr..ptr + 4]);
    BigEndianIsNum(data[ptr..ptr + 4]);
    StreamBitsSlice(data, ptr, ptr + 4);
    Refill(StreamBits(data), pos, 8 * ptr, code, empty, word);
    empty' := empty - 32;
    code' := Or(code, Shl(word, empty'));
    ptr' := ptr + 4;
  }

  /** The codeword at the front of the buffer. */
  method NextSymbol(d: PairsData, code: nat, empty: nat, ptr: nat,
                    ghost rank: seq<nat>, ghost pos: nat, ghost blockEnd: nat, ghost todo: seq<Symbol>)
    returns (l: nat, sym: Symbol)
    requires Decodable(d, rank) && todo != []
    requires empty < 32 && Buffered(StreamBits(d.data), pos, 8 * ptr, code, empty)
    requires Pending(d.code, StreamBits(d.data), pos, blockEnd, todo)
    ensures sym == todo[0] && l <= 32
    ensures Pending(d.code, StreamBits(d.data), pos + l, blockEnd, todo[1..])
  {
    ghost var bits := StreamBits(d.data);
    NextCodeWord(d.code, bits, pos, blockEnd, todo);
    BufferStartsWith(d.code, todo[0], bits, pos, 8 * ptr, code, empty);
    l, sym := ReadSymbol(d.code, d.base, code, todo[0],
      Shl(Num(bits[pos + CodeLength(d.code, todo[0])..8 * ptr]), empty));
  }

  /** leaf is the rest-th value of what is still to be read. */
  ghost predicate Wanted(pat: seq<byte>, rank: seq<nat>, todo: seq<Symbol>, rest: nat, leaf: Symbol)
    requires Acyclic(pat, rank)
  {
    Symbols(rank, todo) && rest < |ExpandAll(pat, rank, todo)| && ExpandAll(pat, rank, todo)[rest] == leaf
  }

  lemma WantedNext(pat: seq<byte>, rank: seq<nat>, todo: seq<Symbol>, rest: nat, leaf: Symbol)
    requires Acyclic(pat, rank) && Wanted(pat, rank, todo, rest, leaf)
    ensures todo != [] && todo[0] < |rank|
    ensures var first := Expand(pat, rank, todo[0]);
            if rest < |first| then first[rest] == leaf
            else Wanted(pat, rank, todo[1..], rest - |first|, leaf)
  {
  }

  /** Reads the block's symbols until the one that covers litIdx. */
  method FindSymbol(d: PairsData, block: nat, litIdx: nat, ghost rank: seq<nat>, ghost syms: seq<Symbol>)
    returns (sym: Symbol, rest: nat)
    requires Decodable(d, rank) && BlockHolds(d, rank, block, syms)
    requires litIdx <= d.sizeTable[block]
    ensures sym < |rank| && rest < |Expand(d.symPat, rank, sym)|
    ensures Expand(d.symPat, rank, sym)[rest] == ExpandAll(d.symPat, rank, syms)[litIdx]
  {
    var start := BlockAddress(d, block);
    ghost var blockEnd := 8 * (start + Pow2(d.blockSize));
    ghost var pos: nat, todo := 8 * start, syms;
    ghost var leaf := ExpandAll(d.symPat, rank, syms)[litIdx];
    var code := Fill(d.data, start);
    var empty: nat, ptr: nat := 0, start + 8;
    rest := litIdx;
    while true
      invariant empty < 32 && Buffered(StreamBits(d.data), pos, 8 * ptr, code, empty)
      invariant Pending(d.code, StreamBits(d.data), pos, blockEnd, todo)
      invariant Wanted(d.symPat, rank, todo, rest, leaf)
      decreases |todo|
    {
      WantedNext(d.symPat, rank, todo, rest, leaf);
      var l: nat;
      l, sym := NextSymbol(d, code, empty, ptr, rank, pos, blockEnd, todo);
      var length := d.symLen[sym] as int + 1;
      assert length == |Expand(d.symPat, rank, todo[0])|;
      if rest < length { break; }
      code, empty, ptr := Advance(d.data, code, empty, ptr, l, pos);
      rest, pos, todo := rest - length, pos + l, todo[1..];
    }
  }

  // ---------- the whole lookup ----------

  /** The size table fits the blocks. */
  ghost predicate Sized(pat: seq<byte>, rank: seq<nat>, blocks: seq<seq<Symbol>>, sizes: seq<nat>)
    requires Acyclic(pat, rank)
  {
    && |blocks| <= |sizes|
    && forall i: nat | i < |blocks| :: Symbols(rank, blocks[i]) && |ExpandAll(pat, rank, blocks[i])| == sizes[i] + 1
  }

  lemma {:induction false} ExpandBlocksLength(pat: seq<byte>, rank: seq<nat>, blocks: seq<seq<Symbol>>, sizes: seq<nat>)
    requires Acyclic(pat, rank) && Sized(pat, rank, blocks, sizes)
    ensures |ExpandBlocks(pat, rank, blocks)| == BlockStart(sizes, |blocks|)
    decreases |blocks|
  {
    if |blocks| > 0 {
      SnocExpand(pat, rank, blocks);
      ExpandBlocksLength(pat, rank, blocks[..|blocks| - 1], sizes);
    }
  }

  /** Where the values of one block end up in the full decompression. */
  lemma {:induction false} ExpandBlocksAt(pat: seq<byte>, rank: seq<nat>, blocks: seq<seq<Symbol>>, sizes: seq<nat>,
                                          b: nat, lit: nat)
    requires Acyclic(pat, rank) && Sized(pat, rank, blocks, sizes)
    requires b < |blocks| && lit <= sizes[b]
    ensures BlockStart(sizes, b) + lit < |ExpandBlocks(pat, rank, blocks)|
    ensures ExpandBlocks(pat, rank, blocks)[BlockStart(sizes, b) + lit] == ExpandAll(pat, rank, blocks[b])[lit]
    decreases |blocks|
  {
    var n := |blocks| - 1;
    SnocExpand(pat, rank, blocks);
    ExpandBlocksLength(pat, rank, blocks[..n], sizes);
    if b < n {
      ExpandBlocksAt(pat, rank, blocks[..n], sizes, b, lit);
    }
  }

  lemma StoredBlocksAreSized(d: PairsData, rank: seq<nat>, blocks: seq<seq<Symbol>>)
    requires Stores(d, rank, blocks)
    ensures Sized(d.symPat, rank, blocks, d.sizeTable)
  {
    forall i: nat | i < |blocks|
      ensures Symbols(rank, blocks[i]) && |ExpandAll(d.symPat, rank, blocks[i])| == d.sizeTable[i] + 1
    {
      assert BlockHolds(d, rank, i, blocks[i]);
    }
  }

  lemma {:induction false} SnocExpand(pat: seq<byte>, rank: seq<nat>, blocks: seq<seq<Symbol>>)
    requires Acyclic(pat, rank) && |blocks| > 0 && forall b: nat | b < |blocks| :: Symbols(rank, blocks[b])
    ensures ExpandBlocks(pat, rank, blocks) ==
            ExpandBlocks(pat, rank, blocks[..|blocks| - 1]) + ExpandAll(pat, rank, blocks[|blocks| - 1])
    decreases |blocks|
  {
    if |blocks| > 1 {
      SnocExpand(pat, rank, blocks[1..]);
      assert blocks[1..][..|blocks| - 2] == blocks[..|blocks| - 1][1..];
    }
  }

  /** Block and position of a value really hold that value. */
  lemma LocatedValue(d: PairsData, rank: seq<nat>, blocks: seq<seq<Symbol>>, block: nat, lit: nat)
    requires Stores(d, rank, blocks) && block < |blocks| && lit <= d.sizeTable[block]
    ensures BlockHolds(d, rank, block, blocks[block])
    ensures BlockStart(d.sizeTable, block) + lit < |Contents(d, rank, blocks)|
    ensures Contents(d, rank, blocks)[BlockStart(d.sizeTable, block) + lit]
         == ExpandAll(d.symPat, rank, blocks[block])[lit]
  {
    StoredBlocksAreSized(d, rank, blocks);
    ExpandBlocksAt(d.symPat, rank, blocks, d.sizeTable, block, lit);
    assert BlockHolds(d, rank, block, blocks[block]);
  }

  /** The idx-th value of the decompressed table, found without decompressing it. */
  method DecompressPairs(d: PairsData, idx: nat, ghost rank: seq<nat>, ghost blocks: seq<seq<Symbol>>)
    returns (v: Value)
    requires d.idxBits != 0 ==> Stores(d, rank, blocks)
    requires d.idxBits != 0 ==> idx < |Contents(d, rank, blocks)| && Shr(idx, d.idxBits) < |d.indexTable|
    ensures d.idxBits == 0 ==> v == d.constValue
    ensures d.idxBits != 0 ==>
              var leaf := Contents(d, rank, blocks)[idx];
              leaf < |rank| && v.b0 == d.symPat[3 * leaf] && v.b1 == d.symPat[3 * leaf + 1]
  {
    if d.idxBits == 0 { return d.constValue; }
    ContentsLength(d, rank, blocks);
    var block, lit := FindBlock(d.indexTable, d.sizeTable, d.idxBits, idx, |blocks|);
    LocatedValue(d, rank, blocks, block, lit);
    var sym, rest := FindSymbol(d, block, lit, rank, blocks[block]);
    var leaf := Descend(d.symPat, d.symLen, sym, rest, rank);
    v := SymbolValue(d.symPat, leaf);
  }

  lemma ContentsLength(d: PairsData, rank: seq<nat>, blocks: seq<seq<Symbol>>)
    requires Stores(d, rank, blocks)
    ensures |Contents(d, rank, blocks)| == BlockStart(d.sizeTable, |blocks|)
  {
    StoredBlocksAreSized(d, rank, blocks);
    ExpandBlocksLength(d.symPat, rank, blocks, d.sizeTable);
  }
}
