/** Unsigned machine words as natural numbers: shifts, masks, and bit strings read as numbers.
    The shifts are recursive doublings and halvings, which keeps every proof linear. */
module Bits {

  type bit = x: int | 0 <= x <= 1
  type byte = x: int | 0 <= x < 256

  const WORD: nat := 64

  /** x << n, without an upper word bound. */
  function Shl(x: int, n: nat): int {
    if n == 0 then x else 2 * Shl(x, n - 1)
  }

  /** x >> n. */
  function Shr(x: nat, n: nat): nat {
    if n == 0 then x else Shr(x / 2, n - 1)
  }

  /** The n low bits of x. */
  function Low(x: nat, n: nat): (r: nat)
    ensures r < Pow2(n)
  {
    if n == 0 then 0 else 2 * Low(x / 2, n - 1) + x % 2
  }

  function Pow2(n: nat): (r: nat)
    ensures r >= 1
  {
    if n == 0 then 1 else 2 * Pow2(n - 1)
  }

  lemma {:induction false} ShlAdd(x: int, y: int, n: nat)
    ensures Shl(x + y, n) == Shl(x, n) + Shl(y, n)
  {
    if n != 0 { ShlAdd(x, y, n - 1); }
  }

  lemma {:induction false} ShlShl(x: int, m: nat, n: nat)
    ensures Shl(Shl(x, m), n) == Shl(x, m + n)
  {
    if n != 0 { ShlShl(x, m, n - 1); }
  }

  lemma {:induction false} ShlTwice(x: int, n: nat)
    ensures Shl(2 * x, n) == 2 * Shl(x, n) == Shl(x, n + 1)
  {
    if n != 0 { ShlTwice(x, n - 1); }
  }

  lemma {:induction false} ShlOne(n: nat)
    ensures Shl(1, n) == Pow2(n)
  {
    if n != 0 { ShlOne(n - 1); }
  }

  lemma {:induction false} ShlPow2(m: nat, n: nat)
    ensures Shl(Pow2(m), n) == Pow2(m + n)
  {
    if n != 0 { ShlPow2(m, n - 1); }
  }

  lemma {:induction false} ShlIsTimes(x: int, n: nat)
    ensures Shl(x, n) == x * Pow2(n)
  {
    if n != 0 {
      ShlIsTimes(x, n - 1);
      assert 2 * (x * Pow2(n - 1)) == x * (2 * Pow2(n - 1));
    }
  }

  lemma {:induction false} ShlMonotone(x: int, y: int, n: nat)
    requires x <= y
    ensures Shl(x, n) <= Shl(y, n)
  {
    if n != 0 { ShlMonotone(x, y, n - 1); }
  }

  lemma {:induction false} ShlNonNegative(x: nat, n: nat)
    ensures Shl(x, n) >= x
  {
    if n != 0 { ShlNonNegative(x, n - 1); }
  }

  /** Whole steps of 2^n keep their order with anything smaller than a step added. */
  lemma ShlStep(x: int, y: int, n: nat)
    requires x < y
    ensures Shl(x, n) + Pow2(n) <= Shl(y, n)
  {
    ShlAdd(x, 1, n);
    ShlOne(n);
    ShlMonotone(x + 1, y, n);
  }

  lemma {:induction false} ShrLow(x: nat, n: nat)
    ensures Shl(Shr(x, n), n) + Low(x, n) == x
  {
    if n != 0 {
      ShrLow(x / 2, n - 1);
      ShlTwice(Shr(x, n), n - 1);
    }
  }

  /** Cutting a word at bit n gives back its two parts. */
  lemma {:induction false} Cut(q: nat, r: nat, n: nat)
    requires r < Pow2(n)
    ensures Shl(q, n) >= 0
    ensures Shr(Shl(q, n) + r, n) == q && Low(Shl(q, n) + r, n) == r
  {
    ShlNonNegative(q, n);
    if n != 0 {
      ShlNonNegative(q, n - 1);
      Cut(q, r / 2, n - 1);
      assert (Shl(q, n) + r) / 2 == Shl(q, n - 1) + r / 2;
    }
  }

  /** A bit string, most significant bit first, as a number. */
  function Num(bs: seq<bit>): (r: nat)
    ensures r < Pow2(|bs|)
  {
    if |bs| == 0 then 0 else 2 * Num(bs[..|bs| - 1]) + bs[|bs| - 1]
  }

  lemma {:induction false} NumConcat(a: seq<bit>, b: seq<bit>)
    ensures Num(a + b) == Shl(Num(a), |b|) + Num(b)
    decreases |b|
  {
    if b == [] {
      assert a + b == a;
    } else {
      assert (a + b)[..|a + b| - 1] == a + b[..|b| - 1];
      NumConcat(a, b[..|b| - 1]);
    }
  }

  /** The n low bits of v, most significant first. */
  function ToBits(v: nat, n: nat): (bs: seq<bit>)
    ensures |bs| == n
  {
    if n == 0 then [] else ToBits(v / 2, n - 1) + [v % 2]
  }

  lemma {:induction false} NumToBits(v: nat, n: nat)
    requires v < Pow2(n)
    ensures Num(ToBits(v, n)) == v
    decreases n
  {
    if n != 0 {
      NumToBits(v / 2, n - 1);
      assert ToBits(v, n)[..n - 1] == ToBits(v / 2, n - 1);
    }
  }

  /** Bytes in memory order as one bit string. */
  function StreamBits(data: seq<byte>): (bs: seq<bit>)
    ensures |bs| == 8 * |data|
  {
    if |data| == 0 then [] else StreamBits(data[..|data| - 1]) + ToBits(data[|data| - 1], 8)
  }

  lemma {:induction false} StreamBitsConcat(a: seq<byte>, b: seq<byte>)
    ensures StreamBits(a + b) == StreamBits(a) + StreamBits(b)
    decreases |b|
  {
    if b == [] {
      assert a + b == a;
    } else {
      assert (a + b)[..|a + b| - 1] == a + b[..|b| - 1];
      StreamBitsConcat(a, b[..|b| - 1]);
    }
  }

  /** The bits of a number, the highest first. */
  lemma {:induction false} BitAt(v: nat, n: nat, j: nat)
    requires j < n
    ensures ToBits(v, n)[j] == Shr(v, n - 1 - j) % 2
    decreases n
  {
    if j < n - 1 { BitAt(v / 2, n - 1, j); }
  }

  /** Bytes follow each other in the stream as in memory, the highest bit of each first. */
  lemma {:induction false} StreamBitAt(data: seq<byte>, i: nat, j: nat)
    requires i < |data| && j < 8
    ensures StreamBits(data)[8 * i + j] == Shr(data[i], 7 - j) % 2
    decreases |data|
  {
    var n := |data| - 1;
    if i < n {
      StreamBitAt(data[..n], i, j);
    } else {
      BitAt(data[n], 8, j);
    }
  }

  lemma StreamBitsSlice(data: seq<byte>, lo: nat, hi: nat)
    requires lo <= hi <= |data|
    ensures StreamBits(data)[8 * lo..8 * hi] == StreamBits(data[lo..hi])
  {
    assert data == data[..lo] + data[lo..hi] + data[hi..];
    StreamBitsConcat(data[..lo] + data[lo..hi], data[hi..]);
    StreamBitsConcat(data[..lo], data[lo..hi]);
  }

  /** The big-endian number stored in some bytes (a from_be load). */
  function BigEndian(bs: seq<byte>): nat {
    if |bs| == 0 then 0 else 256 * BigEndian(bs[..|bs| - 1]) + bs[|bs| - 1]
  }

  lemma ShlByByte(x: int)
    ensures Shl(x, 8) == 256 * x
  {
    assert Shl(x, 1) == 2 * x;
    assert Shl(x, 2) == 4 * x;
    ShlShl(x, 2, 2);
    assert Shl(4 * x, 2) == 16 * x;
    ShlShl(x, 4, 2);
    assert Shl(16 * x, 2) == 64 * x;
    ShlShl(x, 6, 2);
    assert Shl(64 * x, 2) == 256 * x;
  }

  lemma {:induction false} BigEndianIsNum(bs: seq<byte>)
    ensures BigEndian(bs) == Num(StreamBits(bs))
    decreases |bs|
  {
    if bs == [] {
    } else {
      var last: byte := bs[|bs| - 1];
      var init := StreamBits(bs[..|bs| - 1]);
      BigEndianIsNum(bs[..|bs| - 1]);
      assert Pow2(8) == 256;
      ShlByByte(Num(init));
      NumConcat(init, ToBits(last, 8));
      NumToBits(last, 8);
    }
  }

  /** Bitwise OR of two unsigned words. */
  function Or(a: nat, b: nat): nat
    decreases a
  {
    if a == 0 then b
    else 2 * Or(a / 2, b / 2) + (if a % 2 == 1 || b % 2 == 1 then 1 else 0)
  }

  /** OR-ing a word into bits that are known to be clear adds it. */
  lemma {:induction false} OrDisjoint(hi: nat, k: nat, lo: nat)
    requires lo < Pow2(k)
    ensures Shl(hi, k) >= 0 && Or(Shl(hi, k), lo) == Shl(hi, k) + lo
    decreases k
  {
    ShlNonNegative(hi, k);
    if k == 0 {
      OrZero(hi);
    } else {
      OrDisjoint(hi, k - 1, lo / 2);
    }
  }

  lemma {:induction false} OrZero(a: nat)
    ensures Or(a, 0) == a
  {
    if a != 0 {
      OrZero(a / 2);
    }
  }
}
