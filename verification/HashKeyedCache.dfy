/** The hash-keyed cache: first in, first out, with values pinned while they are used. */
module HashKeyedCaches {
  import opened Wrappers
  import opened ProbeTable

  /** A value that left the table while pinned. */
  datatype Evicted<V> = Evicted(key: nat, value: V, pins: int)

  /** The slots of a table for this capacity: a load factor of 1.9, and one more. */
  function TableSize(capacity: nat): (n: nat)
    ensures capacity < n && 10 * (n - 1) <= 19 * capacity < 10 * n
  {
    capacity * 19 / 10 + 1
  }

  ghost predicate NoRepeats(order: seq<nat>) {
    order == [] || (order[0] !in order[1..] && NoRepeats(order[1..]))
  }

  ghost function KeySet(order: seq<nat>): set<nat> { set k | k in order }

  lemma {:induction false} KeyCount(order: seq<nat>)
    requires NoRepeats(order)
    ensures |KeySet(order)| == |order|
  {
    if order != [] {
      KeyCount(order[1..]);
      assert KeySet(order) == {order[0]} + KeySet(order[1..]);
    } else {
      assert KeySet(order) == {};
    }
  }

  lemma {:induction false} NoRepeatsPushed(order: seq<nat>, key: nat)
    requires NoRepeats(order) && key !in order
    ensures NoRepeats(order + [key])
  {
    if order != [] {
      NoRepeatsPushed(order[1..], key);
      assert (order + [key])[1..] == order[1..] + [key];
    }
  }

  /** The newest keys, as many as fit. */
  function Newest(order: seq<nat>, capacity: nat): seq<nat> {
    if |order| > capacity then order[|order| - capacity..] else order
  }

  ghost function Only<V>(values: map<nat, V>, order: seq<nat>): map<nat, V> {
    map k | k in values && k in order :: values[k]
  }

  ghost predicate Stored<V>(values: map<nat, V>, l: (nat, V)) {
    l.0 in values && values[l.0] == l.1
  }

  /** The cells the table must hold: each stored value is pinned once for each of its locks. */
  ghost function CellsOf<V>(values: map<nat, V>, locks: multiset<(nat, V)>): (cells: map<nat, Cell<V>>)
    ensures cells.Keys == values.Keys
  {
    map k | k in values :: Cell(values[k], locks[(k, values[k])])
  }

  ghost predicate EvictedEntry<V>(e: Evicted<V>, values: map<nat, V>, locks: multiset<(nat, V)>) {
    e.pins == locks[(e.key, e.value)] > 0 && !Stored(values, (e.key, e.value))
  }

  ghost predicate Listed<V>(evicted: seq<Evicted<V>>, l: (nat, V)) {
    evicted != [] &&
    (var n := |evicted| - 1; (evicted[n].key, evicted[n].value) == l || Listed(evicted[..n], l))
  }

  /** Every evicted value is locked, not stored, and listed once, with all its locks. */
  ghost predicate AllEvicted<V>(evicted: seq<Evicted<V>>, values: map<nat, V>, locks: multiset<(nat, V)>) {
    evicted == [] ||
    (var n := |evicted| - 1;
     && EvictedEntry(evicted[n], values, locks) && !Listed(evicted[..n], (evicted[n].key, evicted[n].value))
     && AllEvicted(evicted[..n], values, locks))
  }

  /** The evicted values are exactly the locked ones that are no longer stored. */
  ghost predicate EvictedValid<V(!new)>(evicted: seq<Evicted<V>>, values: map<nat, V>, locks: multiset<(nat, V)>) {
    AllEvicted(evicted, values, locks) && forall l | l in locks && !Stored(values, l) :: Listed(evicted, l)
  }

  ghost predicate Queued<V>(order: seq<nat>, values: map<nat, V>) {
    NoRepeats(order) && KeySet(order) == values.Keys
  }

  lemma QueuePops<V>(order: seq<nat>, values: map<nat, V>)
    requires Queued(order, values) && order != []
    ensures order[0] in values && Queued(order[1..], values - {order[0]})
  {
    assert order[0] in KeySet(order);
    assert order == [order[0]] + order[1..];
    assert KeySet(order) == {order[0]} + KeySet(order[1..]);
  }

  lemma QueuePushes<V>(order: seq<nat>, values: map<nat, V>, key: nat, value: V)
    requires Queued(order, values) && key !in values
    ensures Queued(order + [key], values[key := value])
  {
    assert key !in KeySet(order);
    NoRepeatsPushed(order, key);
    assert KeySet(order + [key]) == KeySet(order) + {key};
  }

  lemma {:induction false} ListedIsOut<V>(evicted: seq<Evicted<V>>, values: map<nat, V>, locks: multiset<(nat, V)>,
                                          l: (nat, V))
    requires AllEvicted(evicted, values, locks) && Listed(evicted, l)
    ensures l in locks && !Stored(values, l)
  {
    var n := |evicted| - 1;
    if (evicted[n].key, evicted[n].value) != l { ListedIsOut(evicted[..n], values, locks, l); }
  }

  /** Evicted entries stay so when the stored values change for other keys and values. */
  lemma {:induction false} AllEvictedStay<V>(evicted: seq<Evicted<V>>, values: map<nat, V>, locks: multiset<(nat, V)>,
                                             values': map<nat, V>, locks': multiset<(nat, V)>)
    requires AllEvicted(evicted, values, locks)
    requires forall l | Listed(evicted, l) :: !Stored(values', l) && locks'[l] == locks[l]
    ensures AllEvicted(evicted, values', locks')
  {
    if evicted != [] {
      var n := |evicted| - 1;
      assert Listed(evicted, (evicted[n].key, evicted[n].value));
      forall l | Listed(evicted[..n], l)
        ensures !Stored(values', l) && locks'[l] == locks[l]
      {
        assert Listed(evicted, l);
      }
      AllEvictedStay(evicted[..n], values, locks, values', locks');
    }
  }

  /** A value leaves the table: kept aside if locked, gone if not. */
  lemma EvictedGrows<V(!new)>(evicted: seq<Evicted<V>>, values: map<nat, V>, locks: multiset<(nat, V)>, key: nat)
    requires EvictedValid(evicted, values, locks) && key in values
    ensures var l := (key, values[key]);
            EvictedValid(if locks[l]
              == 0 then evicted else evicted + [Evicted(key, values[key], locks[l])], values - {key}, locks)
  {
    var l, rest, n := (key, values[key]), values - {key}, |evicted|;
    var more := evicted + [Evicted(key, values[key], locks[l])];
    forall x | Listed(evicted, x)
      ensures !Stored(rest, x) && x != l
    {
      ListedIsOut(evicted, values, locks, x);
    }
    AllEvictedStay(evicted, values, locks, rest, locks);
    assert more[..n] == evicted && (more[n].key, more[n].value) == l;
    forall x | x in locks && !Stored(rest, x)
      ensures Listed(more, x) && (x != l ==> Listed(evicted, x))
    {
    }
  }

  class HashKeyedCache<V(==, !new)> {
    var capacity: nat
    var size: int
    var alive: int
    /** Keys by age, oldest first. */
    var insertionOrder: seq<nat>
    var evicted: seq<Evicted<V>>
    var hash: array<Slot<V>>

    /** What is stored. */
    ghost var values: map<nat, V>
    /** The pins given out and not yet returned. */
    ghost var locks: multiset<(nat, V)>

    ghost function Cells(): (cells: map<nat, Cell<V>>)
      reads this
      ensures cells.Keys == values.Keys
    {
      CellsOf(values, locks)
    }

    /** The queue lists the stored keys, the evicted values are the locked ones no longer stored, and
        both are counted. */
    ghost predicate Booked()
      reads this
    {
      && Queued(insertionOrder, values) && EvictedValid(evicted, values, locks)
      && size == |insertionOrder| && alive == size + |evicted|
    }

    /** Everything but the limit on the size. */
    ghost predicate Intact()
      reads this, hash
    {
      WellPlaced(hash[..]) && Holds(hash[..], Cells()) && Booked()
    }

    ghost predicate Valid()
      reads this, hash
    {
      Intact() && hash.Length == TableSize(capacity) && size <= capacity
    }

    constructor (capacity: nat)
      ensures Valid() && fresh(hash)
      ensures this.capacity == capacity && insertionOrder == [] && values == map[] && locks == multiset{}
    {
      this.capacity := capacity;
      size, alive, insertionOrder, evicted := 0, 0, [], [];
      hash := new Slot<V>[TableSize(capacity)](_ => Free);
      values, locks := map[], multiset{};
    }

    /** Walks from a key's home to the key or to a free slot. */
    method Probe(key: nat) returns (idx: nat, ghost steps: nat)
      requires WellPlaced(hash[..]) && Holds(hash[..], Cells()) && (key in values || |Cells()| < hash.Length)
      ensures idx < hash.Length && Probed(hash[..], key, idx, steps) && (hash[idx].Free? || hash[idx].key == key)
      ensures hash[idx].Used? <==> key in values
      ensures hash[idx].Used? ==> Cells()[key] == Cell(hash[idx].value, hash[idx].pins)
    {
      ghost var t := hash[..];
      ghost var stop := StopSlot(t, Cells(), key);
      ghost var far := Dist(Home(key, |t|), stop, |t|);
      idx, steps := Home(key, hash.Length), 0;
      ProbeStarts(t, key);
      while hash[idx].Used? && hash[idx].key != key
        invariant idx < hash.Length && Probed(t, key, idx, steps) && steps <= far
        decreases far - steps
      {
        ProbeGoesOn(t, key, idx, steps, stop);
        idx := Next(idx, hash.Length);
        steps := steps + 1;
      }
      ProbeDecides(t, Cells(), key, idx, steps);
    }

    lemma SizeIsCount()
      requires Queued(insertionOrder, values)
      ensures |values| == |Cells()| == |insertionOrder|
    {
      KeyCount(insertionOrder);
      assert |values| == |values.Keys|;
      assert |Cells()| == |Cells().Keys|;
    }

    // ---------- eviction ----------

    /** Shifts later keys back until the gap at hole is closed. */
    method CloseGap(start: nat, ghost cells: map<nat, Cell<V>>)
      requires start < hash.Length && Closing(hash[..], cells, start, Next(start, hash.Length), 1)
      modifies hash
      ensures WellPlaced(hash[..]) && Holds(hash[..], cells)
    {
      var hole: nat, next: nat := start, Next(start, hash.Length);
      ghost var steps := 1;
      while hash[next].Used?
        invariant hole < hash.Length && next < hash.Length && Closing(hash[..], cells, hole, next, steps)
        decreases TotalOffset(hash[..], hash.Length), hash.Length - steps
      {
        ghost var t := hash[..];
        var target := Home(hash[next].key, hash.Length);
        InRangeIsPassing(t, hole, next);
        if !InRange(target, hole + 1, next) {
          SwapSlots(hole, next, cells, steps);
          hole, steps := next, 0;
        } else {
          StepsOver(t, cells, hole, next, steps);
        }
        next := Next(next, hash.Length);
        steps := steps + 1;
      }
      Closed(hash[..], cells, hole, next, steps);
    }

    method SwapSlots(hole: nat, next: nat, ghost cells: map<nat, Cell<V>>, ghost steps: nat)
      requires Closing(hash[..], cells, hole, next, steps) && hash[next].Used? && !Passes(hash[..], next, hole)
      modifies hash
      ensures Closing(hash[..], cells, next, Next(next, hash.Length), 1)
      ensures TotalOffset(hash[..], hash.Length) < TotalOffset(old(hash[..]), hash.Length)
    {
      ghost var t := hash[..];
      ShiftsBack(t, cells, hole, next, steps);
      ShiftShortens(t, hole, next);
      hash[next], hash[hole] := hash[hole], hash[next];
      assert hash[..] == t[hole := t[next]][next := Free];
    }

    /** Removes the oldest key; its value is kept aside while it is locked. */
    method EvictItem()
      requires Intact() && insertionOrder != []
      modifies this, hash
      ensures Intact()
      ensures insertionOrder == old(insertionOrder)[1..] && values == old(values) - {old(insertionOrder)[0]}
      ensures locks == old(locks) && capacity == old(capacity) && hash == old(hash)
    {
      var key := insertionOrder[0];
      QueuePops(insertionOrder, values);
      CellsWithout(values, locks, key);
      var item := TakeOut(key);
      Unbook(item);
    }

    /** Takes the oldest key off the queue, and keeps its value if it is pinned. */
    method Unbook(item: Slot<V>)
      requires Booked() && insertionOrder != [] && insertionOrder[0] in values
      requires var key := insertionOrder[0]; item == Used(key, values[key], locks[(key, values[key])])
      modifies this
      ensures Booked() && hash == old(hash) && locks == old(locks) && capacity == old(capacity)
      ensures insertionOrder == old(insertionOrder)[1..] && values == old(values) - {old(insertionOrder)[0]}
    {
      QueuePops(insertionOrder, values);
      EvictedGrows(evicted, values, locks, item.key);
      size := size - 1;
      values := values - {insertionOrder[0]};
      insertionOrder := insertionOrder[1..];
      if item.pins == 0 {
        alive := alive - 1;
      } else {
        evicted := evicted + [Evicted(item.key, item.value, item.pins)];
      }
    }

    method TakeOut(key: nat) returns (item: Slot<V>)
      requires WellPlaced(hash[..]) && Holds(hash[..], Cells()) && key in values
      modifies hash
      ensures WellPlaced(hash[..]) && Holds(hash[..], Cells() - {key})
      ensures item == Used(key, values[key], locks[(key, values[key])])
    {
      var idx, _ := Probe(key);
      item := hash[idx];
      ghost var t, cells := hash[..], Cells();
      Removed(t, cells, idx);
      hash[idx] := Free;
      assert hash[..] == t[idx := Free];
      CloseGap(idx, cells - {key});
    }

    /** Evicts the oldest keys until at most this many are left. */
    method EvictToCapacity(limit: nat)
      requires Intact()
      modifies this, hash
      ensures Intact() && size <= limit
      ensures insertionOrder == Newest(old(insertionOrder), limit)
      ensures values == Only(old(values), insertionOrder)
      ensures locks == old(locks) && capacity == old(capacity) && hash == old(hash)
    {
      ghost var order, all := insertionOrder, values;
      OnlyAll(order, all);
      while size > limit
        invariant Intact() && hash == old(hash) && locks == old(locks) && capacity == old(capacity)
        invariant insertionOrder == order[|order| - size..] && (size < |order| ==> size >= limit)
        invariant values == Only(all, insertionOrder)
        decreases size
      {
        ghost var before := insertionOrder;
        OnlyPops(all, before);
        EvictItem();
      }
    }

    // ---------- the interface ----------

    /** Stores a value under a key, unless the key is already there. */
    method Insert(key: nat, value: V)
      requires Valid() && (key, value) !in locks
      modifies this, hash
      ensures Valid() && locks == old(locks) && capacity == old(capacity) && hash == old(hash)
      ensures if old(capacity) == 0 || key in old(values) then
                insertionOrder == old(insertionOrder) && values == old(values)
              else
                && insertionOrder == Newest(old(insertionOrder) + [key], capacity)
                && values == Only(old(values)[key := value], insertionOrder)
    {
      if capacity == 0 { return; }
      SizeIsCount();
      var idx, steps := Probe(key);
      if hash[idx].Used? { return; }
      AddSlot(idx, key, value, steps);
      EvictToCapacity(capacity);
    }

    method AddSlot(idx: nat, key: nat, value: V, ghost steps: nat)
      requires Intact() && (key, value) !in locks && key !in values
      requires idx < hash.Length && hash[idx].Free? && Probed(hash[..], key, idx, steps)
      modifies this, hash
      ensures Intact() && locks == old(locks) && capacity == old(capacity) && hash == old(hash)
      ensures insertionOrder == old(insertionOrder) + [key] && values == old(values)[key := value]
    {
      ghost var t := hash[..];
      Added(t, Cells(), key, idx, steps, value, 0);
      CellsWith(values, locks, key, value);
      QueuePushes(insertionOrder, values, key, value);
      EvictedStays(evicted, values, locks, key, value);
      hash[idx] := Used(key, value, 0);
      assert hash[..] == t[idx := Used(key, value, 0)];
      insertionOrder := insertionOrder + [key];
      values := values[key := value];
      size := size + 1;
      alive := alive + 1;
    }

    method ContainsKey(key: nat) returns (found: bool)
      requires Valid()
      ensures found <==> key in values
    {
      SizeIsCount();
      if capacity == 0 { return false; }
      var idx, _ := Probe(key);
      found := hash[idx].Used?;
    }

    /** Finds a key's value and pins it. */
    method LookupAndPin(key: nat) returns (value: Option<V>)
      requires Valid()
      modifies this, hash
      ensures Valid() && hash == old(hash) && capacity == old(capacity)
      ensures insertionOrder == old(insertionOrder) && values == old(values)
      ensures value == if key in values then Some(values[key]) else None
      ensures locks == if key in values then old(locks) + multiset{(key, values[key])} else old(locks)
    {
      SizeIsCount();
      if capacity == 0 { return None; }
      var idx, _ := Probe(key);
      if hash[idx].Used? {
        value := Some(hash[idx].value);
        SetPins(idx, 1);
      } else {
        value := None;
      }
    }

    /** Counts one pin more or less on a stored value. */
    method SetPins(idx: nat, more: int)
      requires Intact() && idx < hash.Length && hash[idx].Used?
      requires more == 1 || (more == -1 && (hash[idx].key, hash[idx].value) in locks)
      modifies this, hash
      ensures Intact() && hash == old(hash) && capacity == old(capacity)
      ensures insertionOrder == old(insertionOrder) && values == old(values) && size == old(size)
      ensures locks == Relocked(old(locks), (old(hash[idx]).key, old(hash[idx]).value), more)
    {
      ghost var l := (hash[idx].key, hash[idx].value);
      SlotStored(idx);
      LocksChange(evicted, values, locks, l, more);
      Repin(idx, hash[idx].pins + more, Cells());
      locks := Relocked(locks, l, more);
    }

    lemma SlotStored(idx: nat)
      requires Holds(hash[..], Cells()) && idx < hash.Length && hash[idx].Used?
      ensures var l := (hash[idx].key, hash[idx].value); Stored(values, l) && hash[idx].pins == locks[l]
    {
    }

    method Repin(idx: nat, pins: int, ghost cells: map<nat, Cell<V>>)
      requires WellPlaced(hash[..]) && Holds(hash[..], cells) && idx < hash.Length && hash[idx].Used?
      modifies hash
      ensures WellPlaced(hash[..])
      ensures Holds(hash[..], cells[old(hash[idx]).key := Cell(old(hash[idx]).value, pins)])
    {
      ghost var t := hash[..];
      Repinned(t, cells, idx, pins);
      hash[idx] := hash[idx].(pins := pins);
      assert hash[..] == t[idx := t[idx].(pins := pins)];
    }

    /** Gives a pin back; an evicted value goes with its last pin. */
    method Unpin(key: nat, value: V)
      requires Valid() && (key, value) in locks
      modifies this, hash
      ensures Valid() && hash == old(hash) && capacity == old(capacity)
      ensures insertionOrder == old(insertionOrder) && values == old(values)
      ensures locks == old(locks) - multiset{(key, value)}
    {
      var i := 0;
      while i < |evicted|
        invariant i <= |evicted| && !Listed(evicted[..i], (key, value))
      {
        if (evicted[i].key, evicted[i].value) == (key, value) {
          UnpinEvicted(i);
          return;
        }
        assert evicted[..i + 1][..i] == evicted[..i];
        i := i + 1;
      }
      assert evicted[..i] == evicted;
      assert Stored(values, (key, value));
      var idx, _ := Probe(key);
      SetPins(idx, -1);
    }

    method UnpinEvicted(i: nat)
      requires Booked() && i < |evicted|
      modifies this
      ensures Booked() && Cells() == old(Cells()) && hash == old(hash) && capacity == old(capacity) && size == old(size)
      ensures insertionOrder == old(insertionOrder) && values == old(values)
      ensures locks == old(locks) - multiset{PairAt(old(evicted), i)}
    {
      ghost var l := PairAt(evicted, i);
      EvictedUnpinned(evicted, values, locks, i);
      CellsUnpinned(values, locks, l);
      if evicted[i].pins == 1 { alive := alive - 1; }
      evicted := Unpinned(evicted, i);
      locks := locks - multiset{l};
    }

    // ---------- the whole table ----------

    /** Changes the capacity: evicts what no longer fits and rehashes the rest. */
    method SetCapacity(capacity: nat)
      requires Valid()
      modifies this, hash
      ensures Valid() && this.capacity == capacity && locks == old(locks) && (hash == old(hash) || fresh(hash))
      ensures insertionOrder == Newest(old(insertionOrder), capacity) && values == Only(old(values), insertionOrder)
    {
      if this.capacity == capacity {
        OnlyAll(insertionOrder, values);
        return;
      }
      EvictToCapacity(capacity);
      this.capacity := capacity;
      hash := NewTable(TableSize(capacity));
    }

    /** A table of n slots with what this one holds. */
    method NewTable(n: nat) returns (newHash: array<Slot<V>>)
      requires Intact() && size < n
      ensures fresh(newHash) && newHash.Length == n && WellPlaced(newHash[..]) && Holds(newHash[..], Cells())
    {
      SizeIsCount();
      newHash := new Slot<V>[n](_ => Free);
      EmptyTable(newHash[..]);
      if size != 0 {
        Rehash(newHash, Cells());
      } else {
        assert Cells() == map[];
      }
    }

    /** Puts every stored key into the new table. */
    method Rehash(newHash: array<Slot<V>>, ghost cells: map<nat, Cell<V>>)
      requires UniqueKeys(hash[..]) && Holds(hash[..], cells) && |cells| < newHash.Length && newHash != hash
      requires forall i | 0 <= i < newHash.Length :: newHash[i].Free?
      modifies newHash
      ensures WellPlaced(newHash[..]) && Holds(newHash[..], cells)
    {
      ghost var t := hash[..];
      EmptyTable(newHash[..]);
      for i := 0 to hash.Length
        invariant WellPlaced(newHash[..]) && Holds(newHash[..], CellsBelow(t, i))
      {
        if hash[i].Used? {
          NextCell(t, cells, i);
          Place(newHash, hash[i], CellsBelow(t, i));
        }
      }
      AllCells(t, cells);
    }

    method Place(table: array<Slot<V>>, item: Slot<V>, ghost cells: map<nat, Cell<V>>)
      requires WellPlaced(table[..]) && Holds(table[..], cells) && item.Used? && item.key !in cells
               && |cells| < table.Length
      modifies table
      ensures WellPlaced(table[..]) && Holds(table[..], cells[item.key := Cell(item.value, item.pins)])
    {
      ghost var before := table[..];
      var idx, steps := ProbeFree(table, item.key, cells);
      Added(before, cells, item.key, idx, steps, item.value, item.pins);
      table[idx] := item;
      assert table[..] == before[idx := item];
    }

    /** Walks from a new key's home to a free slot. */
    method ProbeFree(table: array<Slot<V>>, key: nat, ghost cells: map<nat, Cell<V>>)
      returns (idx: nat, ghost steps: nat)
      requires WellPlaced(table[..]) && Holds(table[..], cells) && key !in cells && |cells| < table.Length
      ensures idx < table.Length && Probed(table[..], key, idx, steps) && table[idx].Free?
    {
      ghost var t := table[..];
      ghost var stop := FreeSlot(t, cells);
      ghost var far := Dist(Home(key, |t|), stop, |t|);
      idx, steps := Home(key, table.Length), 0;
      ProbeStarts(t, key);
      while table[idx].Used?
        invariant idx < table.Length && Probed(t, key, idx, steps) && steps <= far
        decreases far - steps
      {
        ProbeGoesOn(t, key, idx, steps, stop);
        idx := Next(idx, table.Length);
        steps := steps + 1;
      }
    }

    /** Evicts everything. */
    method Clear()
      requires Valid()
      modifies this, hash
      ensures Valid() && insertionOrder == [] && values == map[]
      ensures locks == old(locks) && capacity == old(capacity) && hash == old(hash)
    {
      EvictToCapacity(0);
      assert values == map[];
    }

    /** With every pin returned, nothing is left over at the end. */
    method Destroy()
      requires Valid() && locks == multiset{}
      modifies this, hash
      ensures size == 0 && alive == 0 && evicted == []
    {
      EvictToCapacity(0);
      assert evicted == [];
    }
  }

  /** No value is destroyed while it is locked: it is stored, or kept aside. */
  lemma LockedIsAlive<V(!new)>(cache: HashKeyedCache<V>, l: (nat, V))
    requires cache.Valid() && l in cache.locks
    ensures Stored(cache.values, l) || Listed(cache.evicted, l)
    ensures cache.alive == |cache.values| + |cache.evicted|
  {
    cache.SizeIsCount();
  }

  lemma EmptyTable<V>(t: Table<V>)
    requires |t| > 0 && forall i | 0 <= i < |t| :: t[i].Free?
    ensures WellPlaced(t) && Holds(t, map[])
  {
  }

  /** What the first n slots hold. */
  ghost function CellsBelow<V>(t: Table<V>, n: nat): (cells: map<nat, Cell<V>>)
    requires n <= |t|
  {
    if n == 0 then map[]
    else if t[n - 1].Free? then CellsBelow(t, n - 1)
    else CellsBelow(t, n - 1)[t[n - 1].key := Cell(t[n - 1].value, t[n - 1].pins)]
  }

  lemma {:induction false} CellsBelowAre<V>(t: Table<V>, cells: map<nat, Cell<V>>, n: nat)
    requires n <= |t| && Holds(t, cells)
    ensures CellsBelow(t, n).Keys == KeysBelow(t, n)
    ensures forall k | k in CellsBelow(t, n) :: k in cells && CellsBelow(t, n)[k] == cells[k]
  {
    if n > 0 { CellsBelowAre(t, cells, n - 1); }
  }

  lemma NextCell<V>(t: Table<V>, cells: map<nat, Cell<V>>, i: nat)
    requires UniqueKeys(t) && Holds(t, cells) && i < |t| && t[i].Used?
    ensures t[i].key !in CellsBelow(t, i) && |CellsBelow(t, i)| <= |cells|
  {
    CellsBelowAre(t, cells, i);
    NewKey(t, i);
    var below := CellsBelow(t, i);
    assert |below| == |below.Keys| && |cells| == |cells.Keys|;
    NoLarger(below.Keys, cells.Keys);
  }

  lemma AllCells<V>(t: Table<V>, cells: map<nat, Cell<V>>)
    requires Holds(t, cells)
    ensures CellsBelow(t, |t|) == cells
  {
    CellsBelowAre(t, cells, |t|);
    forall k | k in cells
      ensures k in CellsBelow(t, |t|)
    {
      KeysBelowAre(t, |t|, k);
    }
  }

  // ---------- values and queue ----------

  lemma OnlyAll<V>(order: seq<nat>, values: map<nat, V>)
    requires Queued(order, values)
    ensures Only(values, order) == values
  {
    forall k | k in values
      ensures k in order
    {
      assert k in KeySet(order);
    }
  }

  lemma OnlyPops<V>(all: map<nat, V>, order: seq<nat>)
    requires order != [] && NoRepeats(order)
    ensures Only(all, order[1..]) == Only(all, order) - {order[0]}
  {
    assert order == [order[0]] + order[1..];
  }

  lemma CellsWithout<V>(values: map<nat, V>, locks: multiset<(nat, V)>, key: nat)
    ensures CellsOf(values - {key}, locks) == CellsOf(values, locks) - {key}
  {
  }

  lemma CellsWith<V>(values: map<nat, V>, locks: multiset<(nat, V)>, key: nat, value: V)
    requires (key, value) !in locks
    ensures CellsOf(values[key := value], locks) == CellsOf(values, locks)[key := Cell(value, 0)]
  {
  }

  lemma EvictedStays<V(!new)>(evicted: seq<Evicted<V>>, values: map<nat, V>, locks: multiset<(nat, V)>, key: nat,
                       value: V)
    requires EvictedValid(evicted, values, locks) && key !in values && (key, value) !in locks
    ensures EvictedValid(evicted, values[key := value], locks)
  {
    forall x | Listed(evicted, x)
      ensures !Stored(values[key := value], x)
    {
      ListedIsOut(evicted, values, locks, x);
    }
    AllEvictedStay(evicted, values, locks, values[key := value], locks);
  }

  /** One pin more or less on a stored value changes that cell alone. */
  /** One lock more or less on a value. */
  ghost function Relocked<V>(locks: multiset<(nat, V)>, l: (nat, V), more: int): multiset<(nat, V)> {
    if more == 1 then locks + multiset{l} else locks - multiset{l}
  }

  lemma LocksChange<V(!new)>(evicted: seq<Evicted<V>>, values: map<nat, V>, locks: multiset<(nat, V)>, l: (nat, V),
                      more: int)
    requires EvictedValid(evicted, values, locks) && Stored(values, l) && (more == 1 || (more == -1 && l in locks))
    ensures EvictedValid(evicted, values, Relocked(locks, l, more))
    ensures CellsOf(values, Relocked(locks, l, more)) == CellsOf(values, locks)[l.0 := Cell(l.1, locks[l] + more)]
  {
    EvictedRepinned(evicted, values, locks, Relocked(locks, l, more), l);
  }

  lemma EvictedRepinned<V(!new)>(evicted: seq<Evicted<V>>, values: map<nat, V>, locks: multiset<(nat, V)>,
                                 locks': multiset<(nat, V)>, l: (nat, V))
    requires EvictedValid(evicted, values, locks) && Stored(values, l) && forall x | x != l :: locks'[x] == locks[x]
    ensures EvictedValid(evicted, values, locks')
  {
    forall x | Listed(evicted, x)
      ensures !Stored(values, x) && x != l
    {
      ListedIsOut(evicted, values, locks, x);
    }
    AllEvictedStay(evicted, values, locks, values, locks');
    forall x | x in locks' && !Stored(values, x)
      ensures Listed(evicted, x)
    {
      assert x in locks;
    }
  }

  lemma CellsUnpinned<V>(values: map<nat, V>, locks: multiset<(nat, V)>, l: (nat, V))
    requires !Stored(values, l)
    ensures CellsOf(values, locks - multiset{l}) == CellsOf(values, locks)
  {
  }

  function PairAt<V>(evicted: seq<Evicted<V>>, i: nat): (nat, V)
    requires i < |evicted|
  {
    (evicted[i].key, evicted[i].value)
  }

  /** One pin less, and the entry gone with its last. */
  function Unpinned<V>(evicted: seq<Evicted<V>>, i: nat): (less: seq<Evicted<V>>)
    requires i < |evicted|
    ensures |less| == |evicted| - if evicted[i].pins == 1 then 1 else 0
  {
    if evicted[i].pins == 1 then evicted[..i] + evicted[i + 1..]
    else evicted[i := evicted[i].(pins := evicted[i].pins - 1)]
  }

  lemma {:induction false} ListedAt<V>(evicted: seq<Evicted<V>>, i: nat)
    requires i < |evicted|
    ensures Listed(evicted, PairAt(evicted, i))
  {
    var n := |evicted| - 1;
    if i < n { ListedAt(evicted[..n], i); }
  }

  lemma {:induction false} EvictedAt<V>(evicted: seq<Evicted<V>>, values: map<nat, V>, locks: multiset<(nat, V)>,
                                        i: nat)
    requires i < |evicted| && AllEvicted(evicted, values, locks)
    ensures EvictedEntry(evicted[i], values, locks)
  {
    var n := |evicted| - 1;
    if i < n { EvictedAt(evicted[..n], values, locks, i); }
  }

  lemma {:induction false} ErasedListed<V>(evicted: seq<Evicted<V>>, values: map<nat, V>, locks: multiset<(nat, V)>,
                                           i: nat, x: (nat, V))
    requires i < |evicted| && AllEvicted(evicted, values, locks)
    ensures Listed(evicted[..i] + evicted[i + 1..], x) <==> Listed(evicted, x) && x != PairAt(evicted, i)
  {
    var n := |evicted| - 1;
    var init, less := evicted[..n], evicted[..i] + evicted[i + 1..];
    if i < n {
      ErasedListed(init, values, locks, i, x);
      ListedAt(init, i);
      assert less[..n - 1] == init[..i] + init[i + 1..] && less[n - 1] == evicted[n];
    } else {
      assert less == init;
    }
  }

  lemma {:induction false} ErasedEntry<V>(evicted: seq<Evicted<V>>, values: map<nat, V>, locks: multiset<(nat, V)>,
                                          locks': multiset<(nat, V)>, i: nat)
    requires i < |evicted| && AllEvicted(evicted, values, locks)
    requires forall x | x != PairAt(evicted, i) :: locks'[x] == locks[x]
    ensures AllEvicted(evicted[..i] + evicted[i + 1..], values, locks')
  {
    var n := |evicted| - 1;
    var init, less := evicted[..n], evicted[..i] + evicted[i + 1..];
    if i < n {
      ErasedEntry(init, values, locks, locks', i);
      ErasedListed(init, values, locks, i, PairAt(evicted, n));
      ListedAt(init, i);
      assert less[..n - 1] == init[..i] + init[i + 1..] && less[n - 1] == evicted[n];
    } else {
      assert less == init;
      AllEvictedElse(init, values, locks, locks', PairAt(evicted, n));
    }
  }

  lemma AllEvictedElse<V>(evicted: seq<Evicted<V>>, values: map<nat, V>, locks: multiset<(nat, V)>,
                          locks': multiset<(nat, V)>, l: (nat, V))
    requires AllEvicted(evicted, values, locks) && !Listed(evicted, l) && forall x | x != l :: locks'[x] == locks[x]
    ensures AllEvicted(evicted, values, locks')
  {
    forall x | Listed(evicted, x)
      ensures !Stored(values, x) && locks'[x] == locks[x]
    {
      ListedIsOut(evicted, values, locks, x);
    }
    AllEvictedStay(evicted, values, locks, values, locks');
  }

  lemma {:induction false} RecountedEntry<V>(evicted: seq<Evicted<V>>, values: map<nat, V>, locks: multiset<(nat, V)>,
                                             locks': multiset<(nat, V)>, i: nat)
    requires i < |evicted| && AllEvicted(evicted, values, locks)
    requires forall x | x != PairAt(evicted, i) :: locks'[x] == locks[x]
    requires locks'[PairAt(evicted, i)] > 0
    ensures var same := evicted[i := evicted[i].(pins := locks'[PairAt(evicted, i)])];
            && AllEvicted(same, values, locks')
            && forall x :: Listed(same, x) <==> Listed(evicted, x)
  {
    var n := |evicted| - 1;
    var init, same := evicted[..n], evicted[i := evicted[i].(pins := locks'[PairAt(evicted, i)])];
    if i < n {
      RecountedEntry(init, values, locks, locks', i);
      ListedAt(init, i);
      assert same[..n] == init[i := same[i]] && same[n] == evicted[n];
    } else {
      assert same[..n] == init;
      AllEvictedElse(init, values, locks, locks', PairAt(evicted, n));
    }
  }

  /** An evicted value gives one pin back, and goes with the last. */
  lemma EvictedUnpinned<V(!new)>(evicted: seq<Evicted<V>>, values: map<nat, V>, locks: multiset<(nat, V)>, i: nat)
    requires EvictedValid(evicted, values, locks) && i < |evicted|
    ensures !Stored(values, PairAt(evicted, i)) && evicted[i].pins > 0
    ensures var locks' := locks - multiset{PairAt(evicted, i)};
            EvictedValid(Unpinned(evicted, i), values, locks')
  {
    var l := PairAt(evicted, i);
    var locks' := locks - multiset{l};
    EvictedAt(evicted, values, locks, i);
    if evicted[i].pins == 1 {
      ErasedEntry(evicted, values, locks, locks', i);
      forall x
        ensures Listed(evicted[..i] + evicted[i + 1..], x) <==> Listed(evicted, x) && x != l
      {
        ErasedListed(evicted, values, locks, i, x);
      }
    } else {
      RecountedEntry(evicted, values, locks, locks', i);
    }
    assert forall x | x in locks' && !Stored(values, x) :: Listed(evicted, x);
  }
}
