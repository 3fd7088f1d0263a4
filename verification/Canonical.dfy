/** Choosing a board symmetry so that symmetric positions are encoded alike. */
module Canonical {
  import opened BitPlanes

  // ---------- folding by symmetries, in general ----------

  /** Things that can be flipped, mirrored and transposed, and what is asked about them. */
  datatype World<!K> = World(flip: K -> K, mirror: K -> K, transpose: K -> K,
                             ok: K -> bool, left: K -> bool, high: K -> bool,
                             upper: K -> bool, diagonal: K -> bool, order: K -> int)

  /** The three symmetries act like those of the square. */
  ghost predicate Symmetries<K(!new)>(w: World<K>) {
    && (forall k :: w.flip(w.flip(k)) == k && w.mirror(w.mirror(k)) == k && w.transpose(w.transpose(k)) == k)
    && (forall k :: w.flip(w.mirror(k)) == w.mirror(w.flip(k)))
    && (forall k :: w.transpose(w.flip(k)) == w.mirror(w.transpose(k)))
    && (forall k :: w.transpose(w.mirror(k)) == w.flip(w.transpose(k)))
    && (forall k | w.ok(k) :: w.ok(w.flip(k)) && w.ok(w.mirror(k)) && w.ok(w.transpose(k)))
  }

  ghost predicate FlipHalves<K(!new)>(w: World<K>) {
    forall k | w.ok(k) :: w.left(w.flip(k)) == !w.left(k) && w.high(w.flip(k)) == w.high(k)
  }

  ghost predicate MirrorHalves<K(!new)>(w: World<K>) {
    forall k | w.ok(k) :: w.left(w.mirror(k)) == w.left(k) && w.high(w.mirror(k)) == !w.high(k)
  }

  ghost predicate TransposeHalves<K(!new)>(w: World<K>) {
    forall k | w.ok(k) :: w.left(w.transpose(k)) == w.high(k) && w.high(w.transpose(k)) == w.left(k)
  }

  ghost predicate TransposeCorners<K(!new)>(w: World<K>) {
    && (forall k | w.ok(k) && !w.left(k) && !w.high(k) ::
          (w.upper(w.transpose(k)) <==> !w.upper(k) && !w.diagonal(k)) && w.diagonal(w.transpose(k)) == w.diagonal(k))
    && (forall k | w.ok(k) :: !(w.upper(k) && w.diagonal(k)))
  }

  ghost predicate OrderTurns<K(!new)>(w: World<K>) {
    && (forall k :: w.order(w.transpose(k)) == -w.order(k))
    && (forall k | w.order(k) == 0 :: w.transpose(k) == k)
  }

  /** How the symmetries move the king between halves and triangles, and turn the order round. */
  ghost predicate Halves<K(!new)>(w: World<K>) {
    FlipHalves(w) && MirrorHalves(w) && TransposeHalves(w) && TransposeCorners(w) && OrderTurns(w)
  }

  /** The king into the right half, then into the lower half. */
  function Turned<K>(w: World<K>, k: K): K {
    var a := if w.left(k) then w.flip(k) else k;
    if w.high(a) then w.mirror(a) else a
  }

  /** Below the diagonal, or on it with the smaller board first. */
  function Folded<K>(w: World<K>, n: K): K {
    if w.upper(n) || (w.diagonal(n) && w.order(n) > 0) then w.transpose(n) else n
  }

  function Canon<K>(w: World<K>, k: K): K { Folded(w, Turned(w, k)) }

  lemma TurnedIsLow<K(!new)>(w: World<K>, k: K)
    requires Symmetries(w) && Halves(w) && w.ok(k)
    ensures w.ok(Turned(w, k)) && !w.left(Turned(w, k)) && !w.high(Turned(w, k))
  {
  }

  lemma TurnedFlips<K(!new)>(w: World<K>, k: K)
    requires Symmetries(w) && Halves(w) && w.ok(k)
    ensures Turned(w, w.flip(k)) == Turned(w, k)
    ensures Turned(w, w.mirror(k)) == Turned(w, k)
  {
  }

  lemma TurnedTransposes<K(!new)>(w: World<K>, k: K)
    requires Symmetries(w) && Halves(w) && w.ok(k)
    ensures Turned(w, w.transpose(k)) == w.transpose(Turned(w, k))
  {
  }

  lemma FoldedTransposes<K(!new)>(w: World<K>, n: K)
    requires Symmetries(w) && Halves(w) && w.ok(n) && !w.left(n) && !w.high(n)
    ensures Folded(w, w.transpose(n)) == Folded(w, n)
  {
  }

  /** Every symmetry leads to the same canonical form. */
  lemma CanonIsInvariant<K(!new)>(w: World<K>, k: K)
    requires Symmetries(w) && Halves(w) && w.ok(k)
    ensures Canon(w, w.flip(k)) == Canon(w, k)
    ensures Canon(w, w.mirror(k)) == Canon(w, k)
    ensures Canon(w, w.transpose(k)) == Canon(w, k)
  {
    TurnedFlips(w, k);
    TurnedTransposes(w, k);
    TurnedIsLow(w, k);
    FoldedTransposes(w, Turned(w, k));
  }

  /** The canonical form has the king in the lower triangle of its quarter; on the diagonal it is the
      smaller of the two boards. */
  lemma CanonIsLowest<K(!new)>(w: World<K>, k: K)
    requires Symmetries(w) && Halves(w) && w.ok(k)
    ensures var n := Canon(w, k);
            && w.ok(n) && !w.left(n) && !w.high(n) && !w.upper(n)
            && (w.diagonal(n) ==> w.order(n) <= w.order(w.transpose(n)))
  {
    TurnedIsLow(w, k);
  }

  // ---------- boards without pawns ----------

  /** The masks that are compared, in the order in which they are. */
  datatype Men<V> = Men(all: V, ours: V, kings: V, queens: V, rooks: V, knights: V, bishops: V)

  /** What masks can do: the three tricks, intersection, comparison, and the tests on a king's bit. */
  datatype Tricks<!V> = Tricks(flip: V -> V, mirror: V -> V, transpose: V -> V, meet: (V, V) -> V, minus: (V, V) -> V,
                               sign: (V, V) -> int,
                               one: V -> bool, left: V -> bool, high: V -> bool, upper: V -> bool, diagonal: V -> bool)

  function OnMen<V>(f: V -> V, m: Men<V>): Men<V> {
    Men(f(m.all), f(m.ours), f(m.kings), f(m.queens), f(m.rooks), f(m.knights), f(m.bishops))
  }

  function OurKing<V>(t: Tricks<V>, m: Men<V>): V { t.meet(m.kings, m.ours) }

  /** The first difference between the masks and their transposes decides. */
  function FirstOf(x: int, y: int): int { if x != 0 then x else y }

  function Order<V>(t: Tricks<V>, m: Men<V>): int {
    FirstOf(Ahead(t, m.all), FirstOf(Ahead(t, m.ours), FirstOf(Ahead(t, m.kings), FirstOf(Ahead(t, m.queens),
      FirstOf(Ahead(t, m.rooks), FirstOf(Ahead(t, m.knights), Ahead(t, m.bishops)))))))
  }

  function Ahead<V>(t: Tricks<V>, v: V): int { t.sign(v, t.transpose(v)) }

  function Boards<V>(t: Tricks<V>): World<Men<V>> {
    World(m => OnMen(t.flip, m), m => OnMen(t.mirror, m), m => OnMen(t.transpose, m), m => t.one(OurKing(t, m)),
          m => t.left(OurKing(t, m)), m => t.high(OurKing(t, m)),
          m => t.upper(OurKing(t, m)), m => t.diagonal(OurKing(t, m)), m => Order(t, m))
  }

  /** The tricks act like the symmetries of the square. */
  ghost predicate SquareLaws<V(!new)>(t: Tricks<V>) {
    && (forall v :: t.flip(t.flip(v)) == v && t.mirror(t.mirror(v)) == v && t.transpose(t.transpose(v)) == v)
    && (forall v :: t.flip(t.mirror(v)) == t.mirror(t.flip(v)))
    && (forall v :: t.transpose(t.flip(v)) == t.mirror(t.transpose(v)))
    && (forall v :: t.transpose(t.mirror(v)) == t.flip(t.transpose(v)))
  }

  /** f may be applied before or after intersecting and subtracting. */
  ghost predicate Spreads<V(!new)>(t: Tricks<V>, f: V -> V) {
    (forall v, w :: f(t.meet(v, w)) == t.meet(f(v), f(w))) && forall v, w :: f(t.minus(v, w)) == t.minus(f(v), f(w))
  }

  ghost predicate SignLaw<V(!new)>(t: Tricks<V>) {
    forall v, w :: t.sign(w, v) == -t.sign(v, w) && (t.sign(v, w) == 0 ==> v == w)
  }

  ghost predicate MeetLaws<V(!new)>(t: Tricks<V>) {
    Spreads(t, t.flip) && Spreads(t, t.mirror) && Spreads(t, t.transpose) && SignLaw(t)
  }

  ghost predicate FlipsKing<V(!new)>(t: Tricks<V>) {
    forall k | t.one(k) :: t.one(t.flip(k)) && t.left(t.flip(k)) == !t.left(k) && t.high(t.flip(k)) == t.high(k)
  }

  ghost predicate MirrorsKing<V(!new)>(t: Tricks<V>) {
    forall k | t.one(k) :: t.one(t.mirror(k)) && t.left(t.mirror(k)) == t.left(k) && t.high(t.mirror(k)) == !t.high(k)
  }

  ghost predicate TransposesKing<V(!new)>(t: Tricks<V>) {
    forall k | t.one(k) ::
      t.one(t.transpose(k)) && t.left(t.transpose(k)) == t.high(k) && t.high(t.transpose(k)) == t.left(k)
  }

  ghost predicate TransposesTriangles<V(!new)>(t: Tricks<V>) {
    && (forall k | t.one(k) && !t.left(k) && !t.high(k) ::
          (t.upper(t.transpose(k)) <==> !t.upper(k) && !t.diagonal(k)) && t.diagonal(t.transpose(k)) == t.diagonal(k))
    && (forall k | t.one(k) :: !(t.upper(k) && t.diagonal(k)))
  }

  ghost predicate KingLaws<V(!new)>(t: Tricks<V>) {
    FlipsKing(t) && MirrorsKing(t) && TransposesKing(t) && TransposesTriangles(t)
  }

  lemma AheadTurnsRound<V(!new)>(t: Tricks<V>, v: V)
    requires SquareLaws(t) && MeetLaws(t)
    ensures Ahead(t, t.transpose(v)) == -Ahead(t, v)
    ensures Ahead(t, v) == 0 ==> t.transpose(v) == v
  {
  }

  lemma OrderTurnsRound<V(!new)>(t: Tricks<V>, m: Men<V>)
    requires SquareLaws(t) && MeetLaws(t)
    ensures Order(t, OnMen(t.transpose, m)) == -Order(t, m)
    ensures Order(t, m) == 0 ==> OnMen(t.transpose, m) == m
  {
    AheadTurnsRound(t, m.all);
    AheadTurnsRound(t, m.ours);
    AheadTurnsRound(t, m.kings);
    AheadTurnsRound(t, m.queens);
    AheadTurnsRound(t, m.rooks);
    AheadTurnsRound(t, m.knights);
    AheadTurnsRound(t, m.bishops);
  }

  lemma MenTurn<V(!new)>(t: Tricks<V>, m: Men<V>)
    requires SquareLaws(t)
    ensures OnMen(t.flip, OnMen(t.flip, m)) == m && OnMen(t.mirror, OnMen(t.mirror, m)) == m
    ensures OnMen(t.transpose, OnMen(t.transpose, m)) == m
    ensures OnMen(t.flip, OnMen(t.mirror, m)) == OnMen(t.mirror, OnMen(t.flip, m))
    ensures OnMen(t.transpose, OnMen(t.flip, m)) == OnMen(t.mirror, OnMen(t.transpose, m))
    ensures OnMen(t.transpose, OnMen(t.mirror, m)) == OnMen(t.flip, OnMen(t.transpose, m))
  {
  }

  lemma KingTurns<V(!new)>(t: Tricks<V>, m: Men<V>)
    requires MeetLaws(t)
    ensures OurKing(t, OnMen(t.flip, m)) == t.flip(OurKing(t, m))
    ensures OurKing(t, OnMen(t.mirror, m)) == t.mirror(OurKing(t, m))
    ensures OurKing(t, OnMen(t.transpose, m)) == t.transpose(OurKing(t, m))
  {
  }

  lemma BoardSymmetries<V(!new)>(t: Tricks<V>)
    requires SquareLaws(t) && MeetLaws(t) && KingLaws(t)
    ensures Symmetries(Boards(t))
  {
    forall m: Men<V>
      ensures OnMen(t.flip, OnMen(t.flip, m)) == m && OnMen(t.mirror, OnMen(t.mirror, m)) == m
      ensures OnMen(t.transpose, OnMen(t.transpose, m)) == m
      ensures OnMen(t.flip, OnMen(t.mirror, m)) == OnMen(t.mirror, OnMen(t.flip, m))
      ensures OnMen(t.transpose, OnMen(t.flip, m)) == OnMen(t.mirror, OnMen(t.transpose, m))
      ensures OnMen(t.transpose, OnMen(t.mirror, m)) == OnMen(t.flip, OnMen(t.transpose, m))
      ensures t.one(OurKing(t, m)) ==> t.one(OurKing(t, OnMen(t.flip, m))) && t.one(OurKing(t, OnMen(t.mirror, m)))
                                       && t.one(OurKing(t, OnMen(t.transpose, m)))
    {
      MenTurn(t, m);
      KingTurns(t, m);
    }
  }

  lemma BoardsFlip<V(!new)>(t: Tricks<V>)
    requires MeetLaws(t) && FlipsKing(t)
    ensures FlipHalves(Boards(t))
  {
    forall m: Men<V> {:trigger OnMen(t.flip, m)}
      ensures OurKing(t, OnMen(t.flip, m)) == t.flip(OurKing(t, m))
    {
      KingTurns(t, m);
    }
  }

  lemma BoardsMirror<V(!new)>(t: Tricks<V>)
    requires MeetLaws(t) && MirrorsKing(t)
    ensures MirrorHalves(Boards(t))
  {
    forall m: Men<V> {:trigger OnMen(t.mirror, m)}
      ensures OurKing(t, OnMen(t.mirror, m)) == t.mirror(OurKing(t, m))
    {
      KingTurns(t, m);
    }
  }

  lemma BoardsTranspose<V(!new)>(t: Tricks<V>)
    requires MeetLaws(t) && TransposesKing(t)
    ensures TransposeHalves(Boards(t))
  {
    forall m: Men<V> {:trigger OnMen(t.transpose, m)}
      ensures OurKing(t, OnMen(t.transpose, m)) == t.transpose(OurKing(t, m))
    {
      KingTurns(t, m);
    }
  }

  lemma BoardsCorners<V(!new)>(t: Tricks<V>)
    requires MeetLaws(t) && TransposesTriangles(t)
    ensures TransposeCorners(Boards(t))
  {
    forall m: Men<V> {:trigger OnMen(t.transpose, m)} | t.one(OurKing(t, m))
      ensures var k, k' := OurKing(t, m), OurKing(t, OnMen(t.transpose, m));
              !t.left(k) && !t.high(k) ==>
                (t.upper(k') <==> !t.upper(k) && !t.diagonal(k)) && t.diagonal(k') == t.diagonal(k)
    {
      KingTurns(t, m);
    }
    forall m: Men<V> {:trigger OurKing(t, m)} | t.one(OurKing(t, m))
      ensures !(t.upper(OurKing(t, m)) && t.diagonal(OurKing(t, m)))
    {
    }
  }

  lemma BoardsOrder<V(!new)>(t: Tricks<V>)
    requires SquareLaws(t) && MeetLaws(t)
    ensures OrderTurns(Boards(t))
  {
    forall m: Men<V>
      ensures Order(t, OnMen(t.transpose, m)) == -Order(t, m)
      ensures Order(t, m) == 0 ==> OnMen(t.transpose, m) == m
    {
      OrderTurnsRound(t, m);
    }
  }

  lemma BoardHalves<V(!new)>(t: Tricks<V>)
    requires SquareLaws(t) && MeetLaws(t) && KingLaws(t)
    ensures Halves(Boards(t))
  {
    BoardsFlip(t);
    BoardsMirror(t);
    BoardsTranspose(t);
    BoardsCorners(t);
    BoardsOrder(t);
  }

  /** All eight symmetric images of a board without pawns have one canonical form. */
  lemma BoardsFold<V(!new)>(t: Tricks<V>, m: Men<V>)
    requires SquareLaws(t) && MeetLaws(t) && KingLaws(t) && t.one(OurKing(t, m))
    ensures Canon(Boards(t), OnMen(t.flip, m)) == Canon(Boards(t), m)
    ensures Canon(Boards(t), OnMen(t.mirror, m)) == Canon(Boards(t), m)
    ensures Canon(Boards(t), OnMen(t.transpose, m)) == Canon(Boards(t), m)
  {
    BoardSymmetries(t);
    BoardHalves(t);
    CanonIsInvariant(Boards(t), m);
  }

  // ---------- the planes ----------

  /** Our men and theirs, one plane for each kind of piece. */
  function PlanesOf<V>(t: Tricks<V>, m: Men<V>): seq<V> {
    var theirs := t.minus(m.all, m.ours);
    [t.meet(m.ours, m.knights), t.meet(m.ours, m.bishops), t.meet(m.ours, m.rooks),
     t.meet(m.ours, m.queens), t.meet(m.ours, m.kings),
     t.meet(theirs, m.knights), t.meet(theirs, m.bishops), t.meet(theirs, m.rooks),
     t.meet(theirs, m.queens), t.meet(theirs, m.kings)]
  }

  function Each<V>(f: V -> V, planes: seq<V>): (moved: seq<V>)
    ensures |moved| == |planes| && forall i | 0 <= i < |planes| :: moved[i] == f(planes[i])
  {
    seq(|planes|, i requires 0 <= i < |planes| => f(planes[i]))
  }

  /** Moving the planes is the same as moving the board. */
  lemma PlanesMove<V(!new)>(t: Tricks<V>, f: V -> V, m: Men<V>)
    requires Spreads(t, f)
    ensures Each(f, PlanesOf(t, m)) == PlanesOf(t, OnMen(f, m))
  {
  }

  // ---------- choosing ----------

  function Turns<V>(t: Tricks<V>, c: Transform): V -> V {
    v =>
      var a := if c.flip then t.flip(v) else v;
      var b := if c.mirror then t.mirror(a) else a;
      if c.transpose then t.transpose(b) else b
  }

  /** The transform of a board without pawns and castling rights. */
  function Choice<V>(t: Tricks<V>, m: Men<V>): Transform {
    var flip := t.left(OurKing(t, m));
    var a := if flip then OnMen(t.flip, m) else m;
    var mirror := t.high(OurKing(t, a));
    var n := if mirror then OnMen(t.mirror, a) else a;
    Transform(flip, mirror, t.upper(OurKing(t, n)) || (t.diagonal(OurKing(t, n)) && Order(t, n) > 0))
  }

  /** A board moved by a transform, one trick after the other. */
  function Image<V>(t: Tricks<V>, c: Transform, m: Men<V>): Men<V> {
    var a := if c.flip then OnMen(t.flip, m) else m;
    var b := if c.mirror then OnMen(t.mirror, a) else a;
    if c.transpose then OnMen(t.transpose, b) else b
  }

  lemma TurnsAreImages<V(!new)>(t: Tricks<V>, c: Transform, m: Men<V>)
    ensures OnMen(Turns(t, c), m) == Image(t, c, m)
  {
  }

  lemma TurnedBoard<V(!new)>(t: Tricks<V>, m: Men<V>)
    ensures var a := if t.left(OurKing(t, m)) then OnMen(t.flip, m) else m;
            Turned(Boards(t), m) == if t.high(OurKing(t, a)) then OnMen(t.mirror, a) else a
  {
  }

  lemma FoldedBoard<V(!new)>(t: Tricks<V>, n: Men<V>)
    ensures Folded(Boards(t), n) ==
            if t.upper(OurKing(t, n)) || (t.diagonal(OurKing(t, n)) && Order(t, n) > 0) then OnMen(t.transpose, n)
            else n
  {
  }

  lemma ChoiceIsCanon<V(!new)>(t: Tricks<V>, m: Men<V>)
    ensures Image(t, Choice(t, m), m) == Canon(Boards(t), m)
  {
    TurnedBoard(t, m);
    FoldedBoard(t, Turned(Boards(t), m));
  }

  lemma ChoiceLeadsToCanon<V(!new)>(t: Tricks<V>, m: Men<V>)
    ensures OnMen(Turns(t, Choice(t, m)), m) == Canon(Boards(t), m)
  {
    TurnsAreImages(t, Choice(t, m), m);
    ChoiceIsCanon(t, m);
  }

  /** The chosen transform takes the board to one whose king stands in the lower triangle; with the king
      on the diagonal, the board does not compare higher than its transpose. */
  lemma ChoiceIsLowest<V(!new)>(t: Tricks<V>, m: Men<V>)
    requires SquareLaws(t) && MeetLaws(t) && KingLaws(t) && t.one(OurKing(t, m))
    ensures var n := OnMen(Turns(t, Choice(t, m)), m);
            && t.one(OurKing(t, n)) && !t.left(OurKing(t, n)) && !t.high(OurKing(t, n)) && !t.upper(OurKing(t, n))
            && (t.diagonal(OurKing(t, n)) ==> Order(t, n) <= 0)
  {
    ChoiceLeadsToCanon(t, m);
    BoardSymmetries(t);
    BoardHalves(t);
    CanonIsLowest(Boards(t), m);
    OrderTurnsRound(t, Canon(Boards(t), m));
  }

  lemma TurnsSpread<V(!new)>(t: Tricks<V>, c: Transform)
    requires MeetLaws(t)
    ensures Spreads(t, Turns(t, c))
  {
  }

  /** The encoded planes of a board without pawns and castling rights. */
  function Encoded<V>(t: Tricks<V>, m: Men<V>): seq<V> {
    Each(Turns(t, Choice(t, m)), PlanesOf(t, m))
  }

  /** A board and its mirror images are encoded alike. */
  lemma EncodedAlike<V(!new)>(t: Tricks<V>, m: Men<V>)
    requires SquareLaws(t) && MeetLaws(t) && KingLaws(t) && t.one(OurKing(t, m))
    ensures Encoded(t, OnMen(t.flip, m)) == Encoded(t, m)
    ensures Encoded(t, OnMen(t.mirror, m)) == Encoded(t, m)
    ensures Encoded(t, OnMen(t.transpose, m)) == Encoded(t, m)
  {
    BoardsFold(t, m);
    EncodedIsCanon(t, m);
    EncodedIsCanon(t, OnMen(t.flip, m));
    EncodedIsCanon(t, OnMen(t.mirror, m));
    EncodedIsCanon(t, OnMen(t.transpose, m));
  }

  lemma OneTrickEncodedAlike<V(!new)>(t: Tricks<V>, f: V -> V, m: Men<V>)
    requires SquareLaws(t) && MeetLaws(t) && KingLaws(t) && t.one(OurKing(t, m))
    requires f == t.flip || f == t.mirror || f == t.transpose
    ensures Encoded(t, OnMen(f, m)) == Encoded(t, m) && t.one(OurKing(t, OnMen(f, m)))
  {
    EncodedAlike(t, m);
    KingTurns(t, m);
  }

  /** All eight images are encoded alike. */
  lemma ImagesEncodedAlike<V(!new)>(t: Tricks<V>, c: Transform, m: Men<V>)
    requires SquareLaws(t) && MeetLaws(t) && KingLaws(t) && t.one(OurKing(t, m))
    ensures Encoded(t, Image(t, c, m)) == Encoded(t, m)
  {
    var a := if c.flip then OnMen(t.flip, m) else m;
    var b := if c.mirror then OnMen(t.mirror, a) else a;
    if c.flip { OneTrickEncodedAlike(t, t.flip, m); }
    if c.mirror { OneTrickEncodedAlike(t, t.mirror, a); }
    if c.transpose { OneTrickEncodedAlike(t, t.transpose, b); }
  }

  lemma EncodedIsCanon<V(!new)>(t: Tricks<V>, m: Men<V>)
    requires MeetLaws(t)
    ensures Encoded(t, m) == PlanesOf(t, Canon(Boards(t), m))
  {
    var c := Choice(t, m);
    TurnsSpread(t, c);
    PlanesMove(t, Turns(t, c), m);
    ChoiceLeadsToCanon(t, m);
  }

  // ---------- the chooser ----------

  /** The transform of any board: none with castling rights, only a flip with pawns. */
  function Chosen<V>(t: Tricks<V>, canCastle: bool, hasPawns: bool, m: Men<V>): Transform {
    if canCastle then Transform(false, false, false)
    else if hasPawns then Transform(t.left(OurKing(t, m)), false, false)
    else Choice(t, m)
  }

  /** Compares a mask, flipped and mirrored as chosen so far, with its transpose. */
  method CompareTransposing<V>(t: Tricks<V>, board: V, c: Transform) returns (outcome: int)
    ensures outcome == Ahead(t, Turns(t, c.(transpose := false))(board))
  {
    var value := board;
    if c.flip { value := t.flip(value); }
    if c.mirror { value := t.mirror(value); }
    var alternative := t.transpose(value);
    outcome := t.sign(value, alternative);
  }

  method ChooseTransform<V(!new)>(t: Tricks<V>, canCastle: bool, hasPawns: bool, m: Men<V>) returns (c: Transform)
    requires MeetLaws(t)
    ensures c == Chosen(t, canCastle, hasPawns, m)
  {
    c := Transform(false, false, false);
    if canCastle { return; }
    var ourKing := t.meet(m.kings, m.ours);
    if t.left(ourKing) {
      c := c.(flip := true);
      ourKing := t.flip(ourKing);
    }
    if hasPawns { return; }
    if t.high(ourKing) {
      c := c.(mirror := true);
      ourKing := t.mirror(ourKing);
    }
    assert ourKing == OurKing(t, OnMen(Turns(t, c), m));
    if t.upper(ourKing) {
      c := c.(transpose := true);
    } else if t.diagonal(ourKing) {
      var outcome := FirstDifference(t, m, c);
      if outcome > 0 { c := c.(transpose := true); }
    }
  }

  /** The first of the comparisons that does not come out even. */
  method FirstDifference<V>(t: Tricks<V>, m: Men<V>, c: Transform) returns (outcome: int)
    requires !c.transpose
    ensures outcome == Order(t, OnMen(Turns(t, c), m))
  {
    outcome := CompareTransposing(t, m.all, c);
    if outcome != 0 { return; }
    outcome := CompareTransposing(t, m.ours, c);
    if outcome != 0 { return; }
    outcome := CompareTransposing(t, m.kings, c);
    if outcome != 0 { return; }
    outcome := CompareTransposing(t, m.queens, c);
    if outcome != 0 { return; }
    outcome := CompareTransposing(t, m.rooks, c);
    if outcome != 0 { return; }
    outcome := CompareTransposing(t, m.knights, c);
    if outcome != 0 { return; }
    outcome := CompareTransposing(t, m.bishops, c);
  }

  /** With pawns, a plane of a board and the flipped plane of the flipped board are encoded alike. */
  lemma FlippedPawnBoardsAlike<V(!new)>(t: Tricks<V>, m: Men<V>, plane: V)
    requires SquareLaws(t) && MeetLaws(t) && KingLaws(t) && t.one(OurKing(t, m))
    ensures Turns(t, Chosen(t, false, true, OnMen(t.flip, m)))(t.flip(plane))
            == Turns(t, Chosen(t, false, true, m))(plane)
  {
    KingTurns(t, m);
  }
}
