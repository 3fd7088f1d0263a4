/** The positions of a game, and how often the last one has occurred before. */
module PositionHistories {
  import opened Squares
  import opened ChessRules
  import opened Boards
  import opened Pseudolegal
  import opened Plies
  import opened Potential

  datatype Position = Position(board: Board, rule50: nat, repetitions: nat, cycleLength: nat, ply: nat)

  type Positions = seq<Position>

  // ---------- what the counters mean ----------

  /** Moves the history may be given. */
  predicate Playable(b: Board, m: Move) { PseudoLegal(b, m) && StaysOffTheirKing(b, m) }

  function After(p: Position, m: Move): Position {
    Position(Mirror(Applied(p.board, m)), if Zeroing(p.board, m) then 0 else p.rule50 + 1, 0, 0, p.ply + 1)
  }

  /** q comes after p by this move, whatever its repetition counters. */
  predicate IsPly(p: Position, m: Move, q: Position) {
    Playable(p.board, m) && q.(repetitions := 0, cycleLength := 0) == After(p, m)
  }

  /** q comes from p by some move, on well-formed boards. */
  ghost predicate Follows(p: Position, q: Position) {
    Consistent(p.board) && Consistent(q.board) && exists m :: IsPly(p, m, q)
  }

  /** A relation between a position and the next one. */
  type Relation = (Position, Position) -> bool

  ghost function Following(): Relation { (p, q) => Follows(p, q) }

  ghost predicate PlyAt(rel: Relation, ps: Positions, i: nat)
    requires 0 < i < |ps|
  {
    rel(ps[i - 1], ps[i])
  }

  /** Each position is related to the next. */
  ghost predicate Game(rel: Relation, ps: Positions) {
    ps != [] && forall i {:trigger PlyAt(rel, ps, i)} | 0 < i < |ps| :: PlyAt(rel, ps, i)
  }

  /** How many of the first n positions have this board. */
  function Occurrences(ps: Positions, n: nat, b: Board): nat
    requires n <= |ps|
  {
    if n == 0 then 0 else Occurrences(ps, n - 1, b) + if ps[n - 1].board == b then 1 else 0
  }

  /** How often position i occurred before; the first may bring a count with it. */
  function Repeats(ps: Positions, i: nat): nat
    requires i < |ps|
  {
    Occurrences(ps, i, ps[i].board) + if ps[i].board == ps[0].board then ps[0].repetitions else 0
  }

  /** The distance from position i back to the nearest position with its board, or 0. */
  ghost predicate IsCycle(ps: Positions, i: nat, length: nat)
    requires i < |ps|
  {
    if length == 0 then Occurrences(ps, i, ps[i].board) == 0
    else
      && length <= i && ps[i - length].board == ps[i].board
      && forall j | i - length < j < i :: ps[j].board != ps[i].board
  }

  /** Every position but the first knows how often it occurred before. */
  ghost predicate Counted(ps: Positions) {
    forall i {:trigger CountedAt(ps, i)} | 0 < i < |ps| :: CountedAt(ps, i)
  }

  ghost predicate CountedAt(ps: Positions, i: nat)
    requires i < |ps|
  {
    ps[i].repetitions == Repeats(ps, i) && IsCycle(ps, i, ps[i].cycleLength)
  }

  // ---------- positions that cannot recur ----------

  /** What a position shows of how far the game has got. */
  datatype Mark = Mark(potential: int, rule50: nat, flipped: bool)

  ghost function MarkOf(p: Position): Mark { Mark(PotentialOf(p.board), p.rule50, p.board.flipped) }

  /** One ply: the potential never grows, and falls when the fifty-move count restarts. */
  ghost predicate MarksPly(x: Mark, y: Mark) {
    && y.potential <= x.potential && y.flipped != x.flipped
    && (if y.rule50 == 0 then y.potential < x.potential else y.rule50 == x.rule50 + 1)
  }

  /** What is needed of a relation: plies use up the game, two plies never lead back, and the
      repetition counters do not matter. */
  ghost predicate Sound(rel: Relation) {
    && (forall p, q {:trigger rel(p, q)} | rel(p, q) :: MarksPly(MarkOf(p), MarkOf(q)))
    && (forall p, q, r {:trigger rel(p, q), rel(q, r)} | rel(p, q) && rel(q, r) :: p.board != r.board)
  }

  lemma PlyMarks(p: Position, q: Position)
    requires Follows(p, q)
    ensures MarksPly(MarkOf(p), MarkOf(q))
  {
    var m :| IsPly(p, m, q);
    MoveMarks(p, m, q);
  }

  lemma MoveMarks(p: Position, m: Move, q: Position)
    requires Consistent(p.board) && IsPly(p, m, q)
    ensures MarksPly(MarkOf(p), MarkOf(q))
  {
    ZeroingDrops(p.board, m);
  }

  ghost predicate MarksGame(marks: seq<Mark>) {
    forall i | 0 < i < |marks| :: MarksPly(marks[i - 1], marks[i])
  }

  ghost function Marks(rel: Relation, ps: Positions): (marks: seq<Mark>)
    requires Sound(rel) && Game(rel, ps)
    ensures |marks| == |ps| && MarksGame(marks)
    ensures forall i, j | 0 <= i < |ps| && 0 <= j < |ps| && ps[i].board == ps[j].board ::
              marks[i].potential == marks[j].potential && marks[i].flipped == marks[j].flipped
    ensures forall i | 0 <= i < |ps| :: marks[i].rule50 == ps[i].rule50
  {
    MarksFit(rel, ps);
    seq(|ps|, i requires 0 <= i < |ps| => MarkOf(ps[i]))
  }

  lemma MarksFit(rel: Relation, ps: Positions)
    requires Sound(rel) && Game(rel, ps)
    ensures forall i | 0 < i < |ps| :: MarksPly(MarkOf(ps[i - 1]), MarkOf(ps[i]))
  {
    forall i | 0 < i < |ps|
      ensures MarksPly(MarkOf(ps[i - 1]), MarkOf(ps[i]))
    {
      assert PlyAt(rel, ps, i);
    }
  }

  lemma {:induction false} PotentialFalls(marks: seq<Mark>, i: nat, j: nat)
    requires MarksGame(marks) && i <= j < |marks|
    ensures marks[j].potential <= marks[i].potential
    ensures ((j - i) % 2 == 0) == (marks[j].flipped == marks[i].flipped)
    decreases j
  {
    if i < j {
      PotentialFalls(marks, i, j - 1);
      assert MarksPly(marks[j - 1], marks[j]);
    }
  }

  /** The count of plies since the last restart points at the restart. */
  lemma {:induction false} RestartAt(marks: seq<Mark>, j: nat)
    requires MarksGame(marks) && j < |marks| && marks[j].rule50 < j
    ensures marks[j - marks[j].rule50].rule50 == 0
    decreases j
  {
    if marks[j].rule50 > 0 {
      assert MarksPly(marks[j - 1], marks[j]);
      RestartAt(marks, j - 1);
    }
  }

  /** Before the fifty-move count last restarted, no position is the same. */
  lemma PotentialFell(marks: seq<Mark>, i: nat, k: nat, j: nat)
    requires MarksGame(marks) && i < k <= j < |marks| && marks[k].rule50 < k - i
    ensures marks[j].potential < marks[i].potential
  {
    RestartAt(marks, k);
    var r := k - marks[k].rule50;
    PotentialFalls(marks, i, r - 1);
    assert MarksPly(marks[r - 1], marks[r]);
    PotentialFalls(marks, r, j);
  }

  lemma TooFarBack(rel: Relation, ps: Positions, i: nat, k: nat, j: nat)
    requires Sound(rel) && Game(rel, ps) && i < k <= j < |ps| && ps[k].rule50 < k - i
    ensures ps[i].board != ps[j].board
  {
    PotentialFell(Marks(rel, ps), i, k, j);
  }

  /** Two plies never lead back: the man that moved first is gone from its square, or a right to
      castle is lost. */
  lemma NoRecurrenceAfterTwo(b: Board, m: Move, n: Move)
    requires Consistent(b) && Playable(b, m) && Playable(Mirror(Applied(b, m)), n)
    ensures Mirror(Applied(Mirror(Applied(b, m)), n)) != b
  {
    var c := Mirror(Applied(b, m));
    PlyKeepsConsistent(b, m);
    if Zeroing(c, n) {
      ZeroingDrops(b, m);
      ZeroingDrops(c, n);
    } else if m.special.Castle? {
      ListedMove(b, m);
      assert !c.castlings.they00 && !c.castlings.they000;
      RightsOnlyLost(c, n);
      CastlingUsesRight(b, m);
    } else {
      ListedIsPlain(b, m);
      TheirsStay(c, n);
      MoverLeaves(b, m, Applied(c, n));
    }
  }

  lemma CastlingUsesRight(b: Board, m: Move)
    requires PseudoLegal(b, m) && m.special.Castle?
    ensures b.castlings.we00 || b.castlings.we000
  {
  }

  lemma MoverLeaves(b: Board, m: Move, d: Board)
    requires Plain(b, m) && d.theirs == Mirrored(Applied(b, m).ours)
    ensures Mirror(d).ours != b.ours
  {
    assert m.from !in Applied(b, m).ours;
    assert FlipRank(FlipRank(m.from)) == m.from;
    assert m.from !in Mirror(d).ours;
  }

  lemma TheirsStay(c: Board, n: Move)
    requires Consistent(c) && Playable(c, n) && !Zeroing(c, n)
    ensures Applied(c, n).theirs == c.theirs
  {
    ListedMove(c, n);
  }

  lemma RightsOnlyLost(c: Board, n: Move)
    ensures (!c.castlings.they00 ==> !Applied(c, n).castlings.they00)
            && (!c.castlings.they000 ==> !Applied(c, n).castlings.they000)
  {
  }

  lemma NotTwoPlies(p: Position, q: Position, r: Position)
    requires Follows(p, q) && Follows(q, r)
    ensures p.board != r.board
  {
    var m :| IsPly(p, m, q);
    var n :| IsPly(q, n, r);
    NoRecurrenceAfterTwo(p.board, m, n);
  }

  lemma FollowingIsSound()
    ensures Sound(Following())
  {
    forall p, q | Following()(p, q)
      ensures MarksPly(MarkOf(p), MarkOf(q))
    {
      PlyMarks(p, q);
    }
    forall p, q, r | Following()(p, q) && Following()(q, r)
      ensures p.board != r.board
    {
      NotTwoPlies(p, q, r);
    }
  }

  lemma NotTwoPliesAgo(rel: Relation, ps: Positions, j: nat)
    requires Sound(rel) && Game(rel, ps) && 2 <= j < |ps|
    ensures ps[j - 2].board != ps[j].board
  {
    assert PlyAt(rel, ps, j - 1) && PlyAt(rel, ps, j);
  }

  lemma NotOddPliesAgo(rel: Relation, ps: Positions, i: nat, j: nat)
    requires Sound(rel) && Game(rel, ps) && i < j < |ps| && (j - i) % 2 == 1
    ensures ps[i].board != ps[j].board
  {
    PotentialFalls(Marks(rel, ps), i, j);
  }

  // ---------- counting ----------

  lemma {:induction false} NoneAmong(ps: Positions, lo: nat, n: nat, b: Board)
    requires lo <= n <= |ps| && forall i | lo <= i < n :: ps[i].board != b
    ensures Occurrences(ps, n, b) == Occurrences(ps, lo, b)
    decreases n
  {
    if lo < n { NoneAmong(ps, lo, n - 1, b); }
  }

  /** The nearest equal position passes its own count on. */
  lemma FoundAt(rel: Relation, ps: Positions, i: nat, j: nat)
    requires Sound(rel) && Game(rel, ps) && i < j < |ps| && Counted(ps[..j]) && ps[i].board == ps[j].board
    requires forall k | i < k < j :: ps[k].board != ps[j].board
    ensures Repeats(ps, j) == 1 + ps[i].repetitions && IsCycle(ps, j, j - i)
  {
    NoneAmong(ps, i + 1, j, ps[j].board);
    if i > 0 {
      OccurrencesOfPrefix(ps, j, i, ps[i].board);
      assert CountedAt(ps[..j], i) && ps[..j][i] == ps[i];
      RepeatsOfPrefix(ps, j, i);
    }
  }

  lemma {:induction false} OccurrencesOfPrefix(ps: Positions, j: nat, n: nat, b: Board)
    requires n <= j <= |ps|
    ensures Occurrences(ps[..j], n, b) == Occurrences(ps, n, b)
  {
    if n > 0 { OccurrencesOfPrefix(ps, j, n - 1, b); }
  }

  lemma NoneFound(ps: Positions, j: nat)
    requires j < |ps| && 0 < j && forall k | 0 <= k < j :: ps[k].board != ps[j].board
    ensures Repeats(ps, j) == 0 && IsCycle(ps, j, 0)
  {
    NoneAmong(ps, 0, j, ps[j].board);
  }

  lemma NoneInLastThree(rel: Relation, ps: Positions, n: nat)
    requires Sound(rel) && Game(rel, ps) && n < |ps|
    ensures forall k | 0 <= k && n - 4 < k < n :: ps[k].board != ps[n].board
  {
    forall k | 0 <= k && n - 4 < k < n
      ensures ps[k].board != ps[n].board
    {
      if k == n - 2 { NotTwoPliesAgo(rel, ps, n); } else { NotOddPliesAgo(rel, ps, k, n); }
    }
  }

  /** With the count restarted fewer than four plies ago nothing can have occurred before. */
  lemma RecentRestart(rel: Relation, ps: Positions, n: nat)
    requires Sound(rel) && Game(rel, ps) && 0 < n < |ps| && ps[n].rule50 < 4
    ensures Repeats(ps, n) == 0 && IsCycle(ps, n, 0)
  {
    NoneInLastThree(rel, ps, n);
    forall k | 0 <= k < n
      ensures ps[k].board != ps[n].board
    {
      if k <= n - 4 { TooFarBack(rel, ps, k, n, n); }
    }
    NoneFound(ps, n);
  }

  /** At a position that itself comes right after a restart, the search may stop. */
  lemma EarlyStop(rel: Relation, ps: Positions, idx: nat, n: nat)
    requires Sound(rel) && Game(rel, ps) && idx < n < |ps| && (n - idx) % 2 == 0 && ps[idx].rule50 < 2
    requires forall k | idx <= k < n :: ps[k].board != ps[n].board
    ensures Repeats(ps, n) == 0 && IsCycle(ps, n, 0)
  {
    forall k | 0 <= k < idx
      ensures ps[k].board != ps[n].board
    {
      if k == idx - 1 { NotOddPliesAgo(rel, ps, k, n); } else { TooFarBack(rel, ps, k, idx, n); }
    }
    NoneFound(ps, n);
  }

  // ---------- histories that grow and shrink ----------

  lemma RepeatsOfPrefix(ps: Positions, size: nat, i: nat)
    requires i < size <= |ps|
    ensures Repeats(ps[..size], i) == Repeats(ps, i)
    ensures forall length :: IsCycle(ps[..size], i, length) <==> IsCycle(ps, i, length)
  {
    OccurrencesOfPrefix(ps, size, i, ps[i].board);
  }

  lemma PrefixCounted(ps: Positions, size: nat)
    requires 0 < size <= |ps| && Counted(ps)
    ensures Counted(ps[..size])
  {
    var front := ps[..size];
    forall i | 0 < i < size
      ensures CountedAt(front, i)
    {
      assert CountedAt(ps, i);
      RepeatsOfPrefix(ps, size, i);
    }
  }

  lemma PrefixGame(rel: Relation, ps: Positions, size: nat)
    requires 0 < size <= |ps| && Game(rel, ps)
    ensures Game(rel, ps[..size])
  {
    forall i | 0 < i < size
      ensures PlyAt(rel, ps[..size], i)
    {
      assert PlyAt(rel, ps, i);
    }
  }

  lemma Extended(rel: Relation, before: Positions, next: Position)
    requires Game(rel, before) && rel(before[|before| - 1], next)
    ensures Game(rel, before + [next])
  {
    var ps := before + [next];
    forall i | 0 < i < |ps|
      ensures PlyAt(rel, ps, i)
    {
      if i < |before| { assert PlyAt(rel, before, i); }
    }
  }

  /** Only boards are counted, so the last counters may be filled in afterwards. */
  lemma {:induction false} OccurrencesIgnoreCounters(ps: Positions, qs: Positions, n: nat, b: Board)
    requires |ps| == |qs| && n <= |ps| && forall i | 0 <= i < n :: ps[i].board == qs[i].board
    ensures Occurrences(ps, n, b) == Occurrences(qs, n, b)
  {
    if n > 0 { OccurrencesIgnoreCounters(ps, qs, n - 1, b); }
  }

  lemma FollowsAfter(p: Position, m: Move, repetitions: nat, cycleLength: nat)
    requires Consistent(p.board) && Playable(p.board, m)
    ensures Following()(p, After(p, m).(repetitions := repetitions, cycleLength := cycleLength))
  {
    PlyKeepsConsistent(p.board, m);
    assert IsPly(p, m, After(p, m).(repetitions := repetitions, cycleLength := cycleLength));
  }

  lemma ConsistentNext(p: Position, q: Position)
    requires Following()(p, q)
    ensures Consistent(q.board)
  {
  }

  lemma LastIsConsistent(ps: Positions)
    requires Game(Following(), ps) && Consistent(ps[0].board)
    ensures Consistent(ps[|ps| - 1].board)
  {
    if |ps| > 1 {
      assert PlyAt(Following(), ps, |ps| - 1);
      ConsistentNext(ps[|ps| - 2], ps[|ps| - 1]);
    }
  }

  lemma CountsKept(ps: Positions, qs: Positions)
    requires |ps| == |qs| > 1 && Counted(ps[..|ps| - 1]) && qs[..|ps| - 1] == ps[..|ps| - 1]
    requires var n := |ps| - 1;
             qs[n].board == ps[n].board && qs[n].repetitions == Repeats(ps, n) && IsCycle(ps, n, qs[n].cycleLength)
    ensures Counted(qs)
  {
    var n := |ps| - 1;
    forall i | 0 < i < |qs|
      ensures CountedAt(qs, i)
    {
      if i < n { CountKept(ps, qs, i); } else { LastCountKept(ps, qs); }
    }
  }

  lemma CountKept(ps: Positions, qs: Positions, i: nat)
    requires |ps| == |qs| && 0 < i < |ps| - 1 && Counted(ps[..|ps| - 1]) && qs[..|ps| - 1] == ps[..|ps| - 1]
    ensures CountedAt(qs, i)
  {
    RepeatsOfPrefix(qs, |ps| - 1, i);
    assert CountedAt(ps[..|ps| - 1], i) && qs[i] == qs[..|ps| - 1][i];
  }

  lemma LastCountKept(ps: Positions, qs: Positions)
    requires |ps| == |qs| > 1 && qs[..|ps| - 1] == ps[..|ps| - 1]
    requires var n := |ps| - 1;
             qs[n].board == ps[n].board && qs[n].repetitions == Repeats(ps, n) && IsCycle(ps, n, qs[n].cycleLength)
    ensures CountedAt(qs, |ps| - 1)
  {
    var n := |ps| - 1;
    forall j | 0 <= j < n
      ensures qs[j] == ps[j]
    {
      assert qs[..n][j] == ps[..n][j];
    }
    OccurrencesIgnoreCounters(ps, qs, n, qs[n].board);
  }

  // ---------- the search back ----------

  /** Looking back from position n, two plies at a time from idx on: how often it occurred, and how
      far back. */
  function LookBack(ps: Positions, n: nat, idx: int): (nat, nat)
    requires idx < n < |ps|
    decreases idx + 2
  {
    if idx < 0 then (0, 0)
    else if ps[idx].board == ps[n].board then (1 + ps[idx].repetitions, n - idx)
    else if ps[idx].rule50 < 2 then (0, 0)
    else LookBack(ps, n, idx - 2)
  }

  lemma {:induction false} LookBackCounts(rel: Relation, ps: Positions, n: nat, idx: int)
    requires idx < n && 0 < n < |ps| && -2 <= idx && Sound(rel) && Game(rel, ps) && Counted(ps[..n])
             && (n - idx) % 2 == 0
    requires forall k | 0 <= k && idx < k < n :: ps[k].board != ps[n].board
    ensures LookBack(ps, n, idx).0 == Repeats(ps, n) && IsCycle(ps, n, LookBack(ps, n, idx).1)
    decreases idx + 2
  {
    if idx < 0 {
      NoneFound(ps, n);
    } else if ps[idx].board == ps[n].board {
      FoundAt(rel, ps, idx, n);
    } else if ps[idx].rule50 < 2 {
      EarlyStop(rel, ps, idx, n);
    } else {
      NoneInNextTwo(rel, ps, n, idx);
      LookBackCounts(rel, ps, n, idx - 2);
    }
  }

  lemma NoneInNextTwo(rel: Relation, ps: Positions, n: nat, idx: int)
    requires 0 <= idx < n < |ps| && Sound(rel) && Game(rel, ps) && (n - idx) % 2 == 0
    requires forall k | 0 <= k && idx <= k < n :: ps[k].board != ps[n].board
    ensures forall k | 0 <= k && idx - 2 < k < n :: ps[k].board != ps[n].board
  {
    if idx > 0 { NotOddPliesAgo(rel, ps, idx - 1, n); }
  }

  lemma LastCounts(rel: Relation, ps: Positions, n: nat)
    requires 0 < n < |ps| && Sound(rel) && Game(rel, ps) && Counted(ps[..n])
    ensures ps[n].rule50 < 4 ==> Repeats(ps, n) == 0 && IsCycle(ps, n, 0)
    ensures ps[n].rule50 >= 4 ==> LookBack(ps, n, n - 4).0 == Repeats(ps, n) && IsCycle(ps, n, LookBack(ps, n, n - 4).1)
  {
    if ps[n].rule50 < 4 {
      RecentRestart(rel, ps, n);
    } else {
      NoneInLastThree(rel, ps, n);
      if n - 4 >= -2 { LookBackCounts(rel, ps, n, n - 4); } else { NoneFound(ps, n); }
    }
  }

  // ---------- adding a position ----------

  ghost predicate History(ps: Positions) {
    Game(Following(), ps) && Counted(ps) && Consistent(ps[0].board)
  }

  lemma Uncounted(before: Positions, m: Move)
    requires History(before) && Playable(before[|before| - 1].board, m)
    ensures var ps := before + [After(before[|before| - 1], m)];
            Game(Following(), ps) && ps[..|before|] == before
  {
    LastIsConsistent(before);
    FollowsAfter(before[|before| - 1], m, 0, 0);
    Extended(Following(), before, After(before[|before| - 1], m));
  }

  lemma NowCounted(before: Positions, m: Move, repetitions: nat, cycleLength: nat)
    requires History(before) && Playable(before[|before| - 1].board, m)
    requires var n, ps := |before|, before + [After(before[|before| - 1], m)];
             repetitions == Repeats(ps, n) && IsCycle(ps, n, cycleLength)
    ensures History(before + [After(before[|before| - 1], m).(repetitions := repetitions, cycleLength := cycleLength)])
  {
    var n, next := |before|, After(before[|before| - 1], m);
    var counted := next.(repetitions := repetitions, cycleLength := cycleLength);
    LastIsConsistent(before);
    FollowsAfter(before[n - 1], m, repetitions, cycleLength);
    Extended(Following(), before, counted);
    assert (before + [next])[..n] == before && (before + [counted])[..n] == before;
    CountsKept(before + [next], before + [counted]);
  }

  // ---------- the history object ----------

  class PositionHistory {
    var positions: Positions

    ghost predicate Valid()
      reads this
    {
      History(positions)
    }

    constructor (start: Position)
      requires Consistent(start.board)
      ensures Valid() && positions == [start]
    {
      positions := [start];
    }

    method Reset(board: Board, rule50: nat, ply: nat)
      requires Consistent(board)
      modifies this
      ensures Valid() && positions == [Position(board, rule50, 0, 0, ply)]
    {
      positions := [];
      positions := positions + [Position(board, rule50, 0, 0, ply)];
    }

    method Trim(size: nat)
      requires Valid() && 0 < size <= |positions|
      modifies this
      ensures Valid() && positions == old(positions)[..size]
    {
      PrefixCounted(positions, size);
      PrefixGame(Following(), positions, size);
      positions := positions[..size];
    }

    method Pop()
      requires Valid() && |positions| > 1
      modifies this
      ensures Valid() && positions == old(positions)[..|old(positions)| - 1]
    {
      PrefixCounted(positions, |positions| - 1);
      PrefixGame(Following(), positions, |positions| - 1);
      positions := positions[..|positions| - 1];
    }

    /** Adds the position after a move, with its counters. */
    method Append(m: Move)
      requires Valid() && Playable(positions[|positions| - 1].board, m)
      modifies this
      ensures Valid() && |positions| == |old(positions)| + 1 && positions[..|old(positions)|] == old(positions)
      ensures var n := |old(positions)|;
              && positions[n].(repetitions := 0, cycleLength := 0) == After(old(positions)[n - 1], m)
              && positions[n].board == Mirror(Applied(old(positions)[n - 1].board, m))
              && positions[n].ply == old(positions)[n - 1].ply + 1
              && positions[n].rule50
                 == if Zeroing(old(positions)[n - 1].board, m) then 0 else old(positions)[n - 1].rule50 + 1
    {
      ghost var before := positions;
      var n := |positions|;
      var next := After(positions[n - 1], m);
      Uncounted(before, m);
      positions := positions + [next];
      var repetitions, cycleLength := ComputeLastMoveRepetitions();
      NowCounted(before, m, repetitions, cycleLength);
      positions := positions[n := next.(repetitions := repetitions, cycleLength := cycleLength)];
      assert positions == before + [next.(repetitions := repetitions, cycleLength := cycleLength)];
    }

    /** Looks back two plies at a time, from four plies ago to the last restart of the count. */
    method ComputeLastMoveRepetitions() returns (repetitions: nat, cycleLength: nat)
      requires Game(Following(), positions) && |positions| > 1 && Counted(positions[..|positions| - 1])
      ensures repetitions == Repeats(positions, |positions| - 1)
      ensures IsCycle(positions, |positions| - 1, cycleLength)
    {
      var n := |positions| - 1;
      FollowingIsSound();
      LastCounts(Following(), positions, n);
      repetitions, cycleLength := SearchBack();
    }

    method SearchBack() returns (repetitions: nat, cycleLength: nat)
      requires |positions| > 1
      ensures var n := |positions| - 1;
              (repetitions, cycleLength) == if positions[n].rule50 < 4 then (0, 0) else LookBack(positions, n, n - 4)
    {
      var n := |positions| - 1;
      cycleLength := 0;
      if positions[n].rule50 < 4 { return 0, 0; }
      var idx := n - 4;
      while idx >= 0
        invariant idx < n && LookBack(positions, n, idx) == LookBack(positions, n, n - 4)
        decreases idx + 2
      {
        if positions[idx].board == positions[n].board {
          return 1 + positions[idx].repetitions, n - idx;
        }
        if positions[idx].rule50 < 2 { return 0, 0; }
        idx := idx - 2;
      }
      return 0, 0;
    }

    /** Whether some position since the count last restarted had occurred before. */
    method DidRepeatSinceLastZeroingMove() returns (repeated: bool)
      requires Valid()
      ensures repeated <==> exists i :: 0 <= i < |positions| && positions[i].repetitions > 0
                              && forall j | i < j < |positions| :: positions[j].rule50 > 0
    {
      var i := |positions| - 1;
      while i >= 0
        invariant -1 <= i < |positions|
        invariant forall j | i < j < |positions| :: positions[j].repetitions == 0 && positions[j].rule50 > 0
      {
        if positions[i].repetitions > 0 { return true; }
        if positions[i].rule50 == 0 { return false; }
        i := i - 1;
      }
      return false;
    }
  }
}
