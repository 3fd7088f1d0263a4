/** A linear-probing hash table: where keys may stand, finding and adding them, and closing the gap a
    removed key leaves by shifting later keys back. */
module ProbeTable {
  import opened Wrappers

  datatype Slot<V> = Free | Used(key: nat, value: V, pins: int)

  type Table<V> = seq<Slot<V>>

  function Home(key: nat, n: nat): (h: nat)
    requires n > 0
    ensures h < n
  {
    key % n
  }

  function Next(i: nat, n: nat): nat { if i + 1 >= n then i + 1 - n else i + 1 }

  /** How many steps lead from one slot forward to another, around the end of the table. */
  function Dist(from: nat, to: nat, n: nat): nat
    requires from < n && to < n
  {
    if from <= to then to - from else to - from + n
  }

  /** The steps a probe for the key of slot i takes to reach it. */
  function Offset<V>(t: Table<V>, i: nat): nat
    requires i < |t| && t[i].Used?
  {
    Dist(Home(t[i].key, |t|), i, |t|)
  }

  /** A probe for the key of slot i does not stop at slot e. */
  predicate Passes<V>(t: Table<V>, i: nat, e: nat)
    requires i < |t| && e < |t| && t[i].Used?
  {
    Offset(t, i) < Dist(Home(t[i].key, |t|), e, |t|)
  }

  /** No free slot, other than the hole, lies on the way from a key's home to its slot. */
  ghost predicate Findable<V>(t: Table<V>, hole: int) {
    forall i: nat, e: nat {:trigger Passes(t, i, e)}
      | i < |t| && e < |t| && t[i].Used? && t[e].Free? && e != hole :: Passes(t, i, e)
  }

  predicate SameKey<V>(t: Table<V>, i: nat, j: nat)
    requires i < |t| && j < |t|
  {
    t[i].Used? && t[j].Used? && t[i].key == t[j].key
  }

  ghost predicate UniqueKeys<V>(t: Table<V>) {
    forall i: nat, j: nat {:trigger SameKey(t, i, j)} | i < |t| && j < |t| && SameKey(t, i, j) :: i == j
  }

  ghost predicate WellPlaced<V>(t: Table<V>) {
    |t| > 0 && Findable(t, -1) && UniqueKeys(t)
  }

  /** The table holds exactly these keys, with their values and pins. */
  datatype Cell<V> = Cell(value: V, pins: int)

  ghost predicate Holds<V>(t: Table<V>, cells: map<nat, Cell<V>>) {
    && (forall i: nat | i < |t| && t[i].Used? :: t[i].key in cells && cells[t[i].key] == Cell(t[i].value, t[i].pins))
    && forall k | k in cells :: exists i: nat :: i < |t| && t[i].Used? && t[i].key == k
  }

  // ---------- a free slot ----------

  ghost function KeysBelow<V>(t: Table<V>, n: nat): set<nat>
    requires n <= |t|
  {
    if n == 0 then {} else KeysBelow(t, n - 1) + if t[n - 1].Used? then {t[n - 1].key} else {}
  }

  lemma {:induction false} KeysBelowAre<V>(t: Table<V>, n: nat, k: nat)
    requires n <= |t|
    ensures k in KeysBelow(t, n) <==> exists i: nat :: i < n && t[i].Used? && t[i].key == k
  {
    if n > 0 { KeysBelowAre(t, n - 1, k); }
  }

  lemma {:induction false} AsManyKeys<V>(t: Table<V>, n: nat)
    requires n <= |t| && UniqueKeys(t) && forall i | 0 <= i < n :: t[i].Used?
    ensures |KeysBelow(t, n)| == n
  {
    if n > 0 {
      AsManyKeys(t, n - 1);
      NewKey(t, n - 1);
    }
  }

  /** The key of slot n is in no slot below. */
  lemma NewKey<V>(t: Table<V>, n: nat)
    requires n < |t| && UniqueKeys(t) && t[n].Used?
    ensures t[n].key !in KeysBelow(t, n)
  {
    KeysBelowAre(t, n, t[n].key);
    forall i: nat | i < n
      ensures !(t[i].Used? && t[i].key == t[n].key)
    {
      assert !SameKey(t, i, n);
    }
  }

  /** With fewer keys than slots, some slot is free. */
  lemma FreeSlot<V>(t: Table<V>, cells: map<nat, Cell<V>>) returns (e: nat)
    requires UniqueKeys(t) && Holds(t, cells) && |cells| < |t|
    ensures e < |t| && t[e].Free?
  {
    if forall i | 0 <= i < |t| :: t[i].Used? {
      AsManyKeys(t, |t|);
      forall k | k in KeysBelow(t, |t|)
        ensures k in cells.Keys
      {
        KeysBelowAre(t, |t|, k);
      }
      assert |cells.Keys| == |cells|;
      NoLarger(KeysBelow(t, |t|), cells.Keys);
    }
    var i :| 0 <= i < |t| && !t[i].Used?;
    e := i;
  }

  // ---------- probing ----------

  /** The slots a probe from a key's home has passed in steps steps hold other keys. */
  ghost predicate Probed<V>(t: Table<V>, key: nat, idx: nat, steps: nat) {
    && |t| > 0 && idx < |t| && steps == Dist(Home(key, |t|), idx, |t|)
    && forall i: nat | i < |t| && Dist(Home(key, |t|), i, |t|) < steps :: t[i].Used? && t[i].key != key
  }

  lemma ProbeStarts<V>(t: Table<V>, key: nat)
    requires |t| > 0
    ensures Probed(t, key, Home(key, |t|), 0)
  {
  }

  lemma ProbeGoesOn<V>(t: Table<V>, key: nat, idx: nat, steps: nat, stop: nat)
    requires Probed(t, key, idx, steps) && t[idx].Used? && t[idx].key != key
    requires stop < |t| && (t[stop].Free? || t[stop].key == key)
    ensures Probed(t, key, Next(idx, |t|), steps + 1) && steps < Dist(Home(key, |t|), stop, |t|)
  {
  }

  /** A probe that ends at a free slot has shown that the key is not there. */
  lemma NotThere<V>(t: Table<V>, key: nat, idx: nat, steps: nat)
    requires Findable(t, -1) && Probed(t, key, idx, steps) && t[idx].Free?
    ensures forall i: nat | i < |t| && t[i].Used? :: t[i].key != key
  {
    forall i: nat | i < |t| && t[i].Used?
      ensures t[i].key != key
    {
      assert Passes(t, i, idx);
    }
  }

  /** Where a probe ends tells whether the key is stored, and its value. */
  lemma ProbeDecides<V>(t: Table<V>, cells: map<nat, Cell<V>>, key: nat, idx: nat, steps: nat)
    requires WellPlaced(t) && Holds(t, cells) && Probed(t, key, idx, steps) && (t[idx].Free? || t[idx].key == key)
    ensures t[idx].Used? <==> key in cells
    ensures t[idx].Used? ==> cells[key] == Cell(t[idx].value, t[idx].pins)
  {
    if t[idx].Free? { NotThere(t, key, idx, steps); }
  }

  /** Some slot where a probe for the key must stop. */
  lemma StopSlot<V>(t: Table<V>, cells: map<nat, Cell<V>>, key: nat) returns (stop: nat)
    requires WellPlaced(t) && Holds(t, cells) && (key in cells || |cells| < |t|)
    ensures stop < |t| && (t[stop].Free? || t[stop].key == key)
  {
    if key in cells {
      stop :| stop < |t| && t[stop].Used? && t[stop].key == key;
    } else {
      stop := FreeSlot(t, cells);
    }
  }

  /** Adding a key where its probe ended. */
  lemma Added<V>(t: Table<V>, cells: map<nat, Cell<V>>, key: nat, idx: nat, steps: nat, value: V, pins: int)
    requires WellPlaced(t) && Holds(t, cells) && Probed(t, key, idx, steps) && t[idx].Free?
    ensures key !in cells
    ensures WellPlaced(t[idx := Used(key, value, pins)])
    ensures Holds(t[idx := Used(key, value, pins)], cells[key := Cell(value, pins)])
  {
    NotThere(t, key, idx, steps);
    var r := t[idx := Used(key, value, pins)];
    forall i: nat, e: nat | i < |r| && e < |r| && r[i].Used? && r[e].Free?
      ensures Passes(r, i, e)
    {
      if i != idx { assert Passes(t, i, e); }
    }
    forall i: nat, j: nat | i < |r| && j < |r| && SameKey(r, i, j)
      ensures i == j
    {
      if i != idx && j != idx { assert SameKey(t, i, j); }
    }
    AddedHolds(t, cells, key, idx, value, pins);
  }

  lemma AddedHolds<V>(t: Table<V>, cells: map<nat, Cell<V>>, key: nat, idx: nat, value: V, pins: int)
    requires Holds(t, cells) && idx < |t| && t[idx].Free?
    requires forall i: nat | i < |t| && t[i].Used? :: t[i].key != key
    ensures key !in cells
    ensures Holds(t[idx := Used(key, value, pins)], cells[key := Cell(value, pins)])
  {
    var r, more := t[idx := Used(key, value, pins)], cells[key := Cell(value, pins)];
    forall k | k in more
      ensures exists i: nat :: i < |r| && r[i].Used? && r[i].key == k
    {
      if k == key {
        assert r[idx].key == k;
      } else {
        var i: nat :| i < |t| && t[i].Used? && t[i].key == k;
        assert r[i].key == k;
      }
    }
  }

  /** Changing only the pins of a stored key. */
  lemma Repinned<V>(t: Table<V>, cells: map<nat, Cell<V>>, idx: nat, pins: int)
    requires WellPlaced(t) && Holds(t, cells) && idx < |t| && t[idx].Used?
    ensures WellPlaced(t[idx := t[idx].(pins := pins)])
    ensures Holds(t[idx := t[idx].(pins := pins)], cells[t[idx].key := Cell(t[idx].value, pins)])
  {
    var r := t[idx := t[idx].(pins := pins)];
    forall i: nat, e: nat | i < |r| && e < |r| && r[i].Used? && r[e].Free?
      ensures Passes(r, i, e)
    {
      assert Passes(t, i, e);
    }
    forall i: nat, j: nat | i < |r| && j < |r| && SameKey(r, i, j)
      ensures i == j
    {
      assert SameKey(t, i, j);
    }
    RepinnedHolds(t, cells, idx, pins);
  }

  lemma RepinnedHolds<V>(t: Table<V>, cells: map<nat, Cell<V>>, idx: nat, pins: int)
    requires UniqueKeys(t) && Holds(t, cells) && idx < |t| && t[idx].Used?
    ensures Holds(t[idx := t[idx].(pins := pins)], cells[t[idx].key := Cell(t[idx].value, pins)])
  {
    var r := t[idx := t[idx].(pins := pins)];
    forall i: nat | i < |t| && i != idx
      ensures !(t[i].Used? && t[i].key == t[idx].key)
    {
      assert !SameKey(t, i, idx);
    }
    var same := cells[t[idx].key := Cell(t[idx].value, pins)];
    forall k | k in same
      ensures exists i: nat :: i < |r| && r[i].Used? && r[i].key == k
    {
      var i: nat :| i < |t| && t[i].Used? && t[i].key == k;
      assert r[i].key == k;
    }
  }

  // ---------- closing the gap ----------

  /** Keys whose way is cut by the hole stand at least steps behind it. */
  ghost predicate CutBehind<V>(t: Table<V>, hole: nat, steps: nat)
    requires hole < |t|
  {
    forall i: nat | i < |t| && t[i].Used? && !Passes(t, i, hole) :: Dist(hole, i, |t|) >= steps
  }

  /** While the gap is being closed: next is steps behind the hole. */
  ghost predicate Closing<V>(t: Table<V>, cells: map<nat, Cell<V>>, hole: nat, next: nat, steps: nat) {
    && hole < |t| && next < |t| && t[hole].Free? && 1 <= steps <= |t|
    && (if steps < |t| then Dist(hole, next, |t|) == steps else next == hole)
    && Findable(t, hole) && UniqueKeys(t) && Holds(t, cells) && CutBehind(t, hole, steps)
  }

  function InRange(target: nat, start: nat, end: nat): bool {
    if start <= end then start <= target <= end else target >= start || target <= end
  }

  /** The range test of the shift says whether the hole cuts the way of the key at next. */
  lemma InRangeIsPassing<V>(t: Table<V>, hole: nat, next: nat)
    requires hole < |t| && next < |t| && hole != next && t[next].Used?
    ensures InRange(Home(t[next].key, |t|), hole + 1, next) <==> Passes(t, next, hole)
  {
  }

  /** Freeing a key's slot starts the closing. */
  lemma Removed<V>(t: Table<V>, cells: map<nat, Cell<V>>, idx: nat)
    requires WellPlaced(t) && Holds(t, cells) && idx < |t| && t[idx].Used?
    ensures Closing(t[idx := Free], cells - {t[idx].key}, idx, Next(idx, |t|), 1)
  {
    var r := t[idx := Free];
    forall i: nat, e: nat | i < |r| && e < |r| && r[i].Used? && r[e].Free? && e != idx
      ensures Passes(r, i, e)
    {
      assert Passes(t, i, e);
    }
    forall i: nat, j: nat | i < |r| && j < |r| && SameKey(r, i, j)
      ensures i == j
    {
      assert SameKey(t, i, j);
    }
    RemovedHolds(t, cells, idx);
  }

  lemma RemovedHolds<V>(t: Table<V>, cells: map<nat, Cell<V>>, idx: nat)
    requires UniqueKeys(t) && Holds(t, cells) && idx < |t| && t[idx].Used?
    ensures Holds(t[idx := Free], cells - {t[idx].key})
  {
    var r := t[idx := Free];
    forall i: nat | i < |t| && i != idx
      ensures !(t[i].Used? && t[i].key == t[idx].key)
    {
      assert !SameKey(t, i, idx);
    }
    forall k | k in cells - {t[idx].key}
      ensures exists i: nat :: i < |r| && r[i].Used? && r[i].key == k
    {
      var i: nat :| i < |t| && t[i].Used? && t[i].key == k;
      assert r[i].key == k;
    }
  }

  /** At a free slot the gap is closed. */
  lemma Closed<V>(t: Table<V>, cells: map<nat, Cell<V>>, hole: nat, next: nat, steps: nat)
    requires Closing(t, cells, hole, next, steps) && t[next].Free?
    ensures WellPlaced(t) && Holds(t, cells)
  {
    forall i: nat, e: nat | i < |t| && e < |t| && t[i].Used? && t[e].Free?
      ensures Passes(t, i, e)
    {
      if e == hole && !Passes(t, i, hole) {
        assert next != hole ==> Passes(t, i, next);
      }
    }
  }

  /** A key whose way is clear stays. */
  lemma StepsOver<V>(t: Table<V>, cells: map<nat, Cell<V>>, hole: nat, next: nat, steps: nat)
    requires Closing(t, cells, hole, next, steps) && t[next].Used? && Passes(t, next, hole)
    ensures Closing(t, cells, hole, Next(next, |t|), steps + 1)
  {
    forall i: nat | i < |t| && t[i].Used? && !Passes(t, i, hole)
      ensures Dist(hole, i, |t|) >= steps + 1
    {
    }
  }

  /** A key whose way is cut moves into the hole and leaves its own slot as the hole. */
  lemma ShiftsBack<V>(t: Table<V>, cells: map<nat, Cell<V>>, hole: nat, next: nat, steps: nat)
    requires Closing(t, cells, hole, next, steps) && t[next].Used? && !Passes(t, next, hole)
    ensures Closing(t[hole := t[next]][next := Free], cells, next, Next(next, |t|), 1)
  {
    var r := t[hole := t[next]][next := Free];
    forall i: nat, e: nat | i < |r| && e < |r| && r[i].Used? && r[e].Free? && e != next
      ensures Passes(r, i, e)
    {
      assert Passes(t, if i == hole then next else i, e);
    }
    forall i: nat, j: nat | i < |r| && j < |r| && SameKey(r, i, j)
      ensures i == j
    {
      assert SameKey(t, if i == hole then next else i, if j == hole then next else j);
    }
    ShiftHolds(t, cells, hole, next);
  }

  lemma ShiftHolds<V>(t: Table<V>, cells: map<nat, Cell<V>>, hole: nat, next: nat)
    requires Holds(t, cells) && hole < |t| && next < |t| && hole != next && t[hole].Free? && t[next].Used?
    ensures Holds(t[hole := t[next]][next := Free], cells)
  {
    var r := t[hole := t[next]][next := Free];
    forall k | k in cells
      ensures exists i: nat :: i < |r| && r[i].Used? && r[i].key == k
    {
      var i: nat :| i < |t| && t[i].Used? && t[i].key == k;
      assert r[if i == next then hole else i].key == k;
    }
  }

  /** The steps all probes take together: what shifting back makes smaller. */
  ghost function TotalOffset<V>(t: Table<V>, n: nat): nat
    requires n <= |t|
  {
    if n == 0 then 0 else TotalOffset(t, n - 1) + if t[n - 1].Used? then Offset(t, n - 1) else 0
  }

  ghost function SlotOffset<V>(t: Table<V>, i: nat): nat
    requires i < |t|
  {
    if t[i].Used? then Offset(t, i) else 0
  }

  lemma {:induction false} TotalUpdated<V>(t: Table<V>, n: nat, i: nat, s: Slot<V>)
    requires n <= |t| && i < |t|
    ensures TotalOffset(t[i := s], n) + (if i < n then SlotOffset(t, i) else 0)
         == TotalOffset(t, n) + (if i < n then SlotOffset(t[i := s], i) else 0)
  {
    if n > 0 { TotalUpdated(t, n - 1, i, s); }
  }

  lemma ShiftShortens<V>(t: Table<V>, hole: nat, next: nat)
    requires hole < |t| && next < |t| && hole != next && t[hole].Free? && t[next].Used? && !Passes(t, next, hole)
    ensures TotalOffset(t[hole := t[next]][next := Free], |t|) < TotalOffset(t, |t|)
  {
    var mid := t[hole := t[next]];
    TotalUpdated(t, |t|, hole, t[next]);
    TotalUpdated(mid, |t|, next, Free);
  }
}
