/** Planes of 64 bits, the three bit tricks that mirror them, and transforming planes and back. */
module BitPlanes {

  type Mask = bv64

  const ALL: Mask := 0xFFFFFFFFFFFFFFFF

  // ---------- the three tricks ----------

  function ReverseBitsInBytes(v: Mask): Mask {
    var a := ((v >> 1) & 0x5555555555555555) | ((v & 0x5555555555555555) << 1);
    var b := ((a >> 2) & 0x3333333333333333) | ((a & 0x3333333333333333) << 2);
    ((b >> 4) & 0x0F0F0F0F0F0F0F0F) | ((b & 0x0F0F0F0F0F0F0F0F) << 4)
  }

  function ReverseBytesInBytes(v: Mask): Mask {
    var a := ((v & 0x00000000FFFFFFFF) << 32) | ((v & 0xFFFFFFFF00000000) >> 32);
    var b := ((a & 0x0000FFFF0000FFFF) << 16) | ((a & 0xFFFF0000FFFF0000) >> 16);
    ((b & 0x00FF00FF00FF00FF) << 8) | ((b & 0xFF00FF00FF00FF00) >> 8)
  }

  function TransposeBitsInBytes(v: Mask): Mask {
    var a := ((v & 0xAA00AA00AA00AA00) >> 9) | ((v & 0x0055005500550055) << 9) | (v & 0x55AA55AA55AA55AA);
    var b := ((a & 0xCCCC0000CCCC0000) >> 18) | ((a & 0x0000333300003333) << 18) | (a & 0x3333CCCC3333CCCC);
    ((b & 0xF0F0F0F000000000) >> 36) | ((b & 0x000000000F0F0F0F) << 36) | (b & 0x0F0F0F0FF0F0F0F0)
  }

  /** Whether the bit with number s is set; square (file, rank) has the number 8 * rank + file. */
  predicate Bit(v: Mask, s: Mask) { s < 64 && (v >> s) & 1 == 1 }

  lemma FlipMovesBits(v: Mask, s: Mask)
    requires s < 64
    ensures Bit(ReverseBitsInBytes(v), s) == Bit(v, s ^ 7)
  {
  }

  lemma MirrorMovesBits(v: Mask, s: Mask)
    requires s < 64
    ensures Bit(ReverseBytesInBytes(v), s) == Bit(v, s ^ 56)
  {
  }

  /** The bit across the diagonal from h1 to a8. */
  function Across(s: Mask): (t: Mask)
    ensures s < 64 ==> t < 64
  {
    63 - (((s & 7) << 3) | (s >> 3))
  }

  lemma TransposeMovesBits(v: Mask, s: Mask)
    requires s < 64
    ensures Bit(TransposeBitsInBytes(v), s) == Bit(v, Across(s))
  {
  }

  /** Each trick undoes itself. */
  lemma Involutions(v: Mask)
    ensures ReverseBitsInBytes(ReverseBitsInBytes(v)) == v
    ensures ReverseBytesInBytes(ReverseBytesInBytes(v)) == v
    ensures TransposeBitsInBytes(TransposeBitsInBytes(v)) == v
  {
  }

  lemma FourTurns(v: Mask)
    ensures ReverseBitsInBytes(ReverseBytesInBytes(ReverseBitsInBytes(ReverseBytesInBytes(v)))) == v
  {
  }

  lemma FourTurnsAcross(v: Mask)
    ensures TransposeBitsInBytes(ReverseBytesInBytes(TransposeBitsInBytes(ReverseBitsInBytes(v)))) == v
  {
  }

  /** Mirroring files and mirroring ranks may be exchanged. */
  lemma FlipMirror(v: Mask)
    ensures ReverseBitsInBytes(ReverseBytesInBytes(v)) == ReverseBytesInBytes(ReverseBitsInBytes(v))
  {
    FourTurns(v);
    Involutions(ReverseBytesInBytes(ReverseBitsInBytes(ReverseBytesInBytes(v))));
    Involutions(ReverseBitsInBytes(ReverseBytesInBytes(v)));
  }

  /** Transposing exchanges mirroring files for mirroring ranks. */
  lemma TransposeFlip(v: Mask)
    ensures TransposeBitsInBytes(ReverseBitsInBytes(v)) == ReverseBytesInBytes(TransposeBitsInBytes(v))
  {
    FourTurnsAcross(v);
    Involutions(ReverseBytesInBytes(TransposeBitsInBytes(ReverseBitsInBytes(v))));
    Involutions(TransposeBitsInBytes(ReverseBitsInBytes(v)));
  }

  lemma TransposeMirror(v: Mask)
    ensures TransposeBitsInBytes(ReverseBytesInBytes(v)) == ReverseBitsInBytes(TransposeBitsInBytes(v))
  {
    Involutions(v);
    TransposeFlip(TransposeBitsInBytes(v));
    Involutions(ReverseBitsInBytes(TransposeBitsInBytes(v)));
  }

  // ---------- transforms ----------

  /** Which mirrorings to do, in this order. */
  datatype Transform = Transform(flip: bool, mirror: bool, transpose: bool)

  function Transformed(t: Transform, v: Mask): Mask {
    var a := if t.flip then ReverseBitsInBytes(v) else v;
    var b := if t.mirror then ReverseBytesInBytes(a) else a;
    if t.transpose then TransposeBitsInBytes(b) else b
  }

  function Undone(t: Transform, v: Mask): Mask {
    var a := if t.transpose then TransposeBitsInBytes(v) else v;
    var b := if t.mirror then ReverseBytesInBytes(a) else a;
    if t.flip then ReverseBitsInBytes(b) else b
  }

  /** A plane after the two mirrorings. */
  function Mirrored(t: Transform, v: Mask): Mask {
    var a := if t.flip then ReverseBitsInBytes(v) else v;
    if t.mirror then ReverseBytesInBytes(a) else a
  }

  /** The square whose bit the two mirrorings bring to square s. */
  function MirrorOrigin(t: Transform, s: Mask): Mask {
    var b := if t.mirror then s ^ 56 else s;
    if t.flip then b ^ 7 else b
  }

  /** The square whose bit a transform brings to square s. */
  function Origin(t: Transform, s: Mask): Mask {
    MirrorOrigin(t, if t.transpose then Across(s) else s)
  }

  lemma MirroredBits(t: Transform, v: Mask, s: Mask)
    requires s < 64
    ensures MirrorOrigin(t, s) < 64 && Bit(Mirrored(t, v), s) == Bit(v, MirrorOrigin(t, s))
  {
    FlippedThenMirrored(t, v, if t.flip then ReverseBitsInBytes(v) else v, s, if t.mirror then s ^ 56 else s);
  }

  lemma FlippedThenMirrored(t: Transform, v: Mask, a: Mask, s: Mask, x: Mask)
    requires s < 64 && a == (if t.flip then ReverseBitsInBytes(v) else v) && x == (if t.mirror then s ^ 56 else s)
    ensures x < 64 && MirrorOrigin(t, s) < 64 && Bit(Mirrored(t, v), s) == Bit(v, MirrorOrigin(t, s))
  {
    MaybeMirrored(t.mirror, a, s);
    MaybeFlipped(t.flip, v, x);
  }

  /** A transform moves the bits of a plane, one to one. */
  lemma TransformedBits(t: Transform, v: Mask, s: Mask)
    requires s < 64
    ensures Origin(t, s) < 64 && Bit(Transformed(t, v), s) == Bit(v, Origin(t, s))
  {
    MaybeTransposed(t.transpose, Mirrored(t, v), s);
    MirroredBits(t, v, if t.transpose then Across(s) else s);
  }

  lemma MaybeFlipped(flip: bool, v: Mask, s: Mask)
    requires s < 64
    ensures var o := if flip then s ^ 7 else s;
            o < 64 && Bit(if flip then ReverseBitsInBytes(v) else v, s) == Bit(v, o)
  {
    FlipMovesBits(v, s);
    StillSquare(s);
  }

  lemma MaybeMirrored(mirror: bool, v: Mask, s: Mask)
    requires s < 64
    ensures var o := if mirror then s ^ 56 else s;
            o < 64 && Bit(if mirror then ReverseBytesInBytes(v) else v, s) == Bit(v, o)
  {
    MirrorMovesBits(v, s);
    StillSquare(s);
  }

  lemma MaybeTransposed(transpose: bool, v: Mask, s: Mask)
    requires s < 64
    ensures var o := if transpose then Across(s) else s;
            o < 64 && Bit(if transpose then TransposeBitsInBytes(v) else v, s) == Bit(v, o)
  {
    TransposeMovesBits(v, s);
  }

  lemma StillSquare(s: Mask)
    requires s < 64
    ensures s ^ 56 < 64 && s ^ 7 < 64
  {
  }

  lemma UndoneTransformed(t: Transform, v: Mask)
    ensures Undone(t, Transformed(t, v)) == v
  {
    var a := if t.flip then ReverseBitsInBytes(v) else v;
    var b := if t.mirror then ReverseBytesInBytes(a) else a;
    Involutions(v);
    Involutions(a);
    Involutions(b);
  }

  /** Empty and full masks are their own images, so skipping them changes nothing. */
  lemma EmptyAndFullStay(t: Transform, v: Mask)
    requires v == 0 || v == ALL
    ensures Transformed(t, v) == v && Undone(t, v) == v
  {
  }

  /** Transforms every plane but the empty and the full ones. */
  method TransformPlanes(planes: array<Mask>, t: Transform)
    modifies planes
    ensures forall i | 0 <= i < planes.Length :: planes[i] == Transformed(t, old(planes[i]))
  {
    for i := 0 to planes.Length
      invariant forall j | 0 <= j < i :: planes[j] == Transformed(t, old(planes[j]))
      invariant forall j | i <= j < planes.Length :: planes[j] == old(planes[j])
    {
      var v := planes[i];
      if v == 0 || v == ALL {
        EmptyAndFullStay(t, v);
      } else {
        if t.flip { v := ReverseBitsInBytes(v); }
        if t.mirror { v := ReverseBytesInBytes(v); }
        if t.transpose { v := TransposeBitsInBytes(v); }
        planes[i] := v;
      }
    }
  }

  /** Takes the transform back, in the opposite order. */
  method UndoPlanes(planes: array<Mask>, t: Transform)
    modifies planes
    ensures forall i | 0 <= i < planes.Length :: planes[i] == Undone(t, old(planes[i]))
  {
    for i := 0 to planes.Length
      invariant forall j | 0 <= j < i :: planes[j] == Undone(t, old(planes[j]))
      invariant forall j | i <= j < planes.Length :: planes[j] == old(planes[j])
    {
      var v := planes[i];
      if v == 0 || v == ALL {
        EmptyAndFullStay(t, v);
      } else {
        if t.transpose { v := TransposeBitsInBytes(v); }
        if t.mirror { v := ReverseBytesInBytes(v); }
        if t.flip { v := ReverseBitsInBytes(v); }
        planes[i] := v;
      }
    }
  }

  /** Transforming and taking it back restores every plane. */
  method RoundTrip(planes: array<Mask>, t: Transform)
    modifies planes
    ensures planes[..] == old(planes[..])
  {
    ghost var before := planes[..];
    TransformPlanes(planes, t);
    assert forall i | 0 <= i < planes.Length :: planes[i] == Transformed(t, before[i]);
    UndoPlanes(planes, t);
    forall i | 0 <= i < planes.Length
      ensures planes[i] == before[i]
    {
      UndoneTransformed(t, before[i]);
    }
  }

  predicate OneBit(v: Mask) { v != 0 && v & (v - 1) == 0 }

  lemma OneBitKept(v: Mask)
    requires OneBit(v)
    ensures OneBit(ReverseBitsInBytes(v)) && OneBit(ReverseBytesInBytes(v)) && OneBit(TransposeBitsInBytes(v))
  {
  }
}
