/**
  The ring buffer in front of a log store (internal/raft/log_cache.go): whatever was stored and
  deleted, with any capacity and any collisions of indexes, reading through the cache gives what
  the store gives.
 */
module LogCache {
  import opened Basics

  datatype Record = Record(index: nat, term: nat, data: string)

  type Store = map<nat, Record>

  /** The slots of the buffer; every index has one. */
  type Ring = seq<Option<Record>>

  function SlotOf(ring: Ring, index: nat): (s: nat)
    requires ring != []
    ensures s < |ring|
  {
    index % |ring|
  }

  function StoreGet(store: Store, index: nat): Option<Record> {
    if index in store then Some(store[index]) else None
  }

  /** GetLog: the slot's record if it is the one asked for, else the store. */
  function Lookup(ring: Ring, store: Store, index: nat): Option<Record>
    requires ring != []
  {
    var cached := ring[SlotOf(ring, index)];
    if cached.Some? && cached.value.index == index then cached else StoreGet(store, index)
  }

  /** A batch goes in from left to right. */
  function Insert(ring: Ring, logs: seq<Record>): (r: Ring)
    requires ring != []
    ensures |r| == |ring|
    decreases |logs|
  {
    if logs == [] then ring else Insert(ring[SlotOf(ring, logs[0].index) := Some(logs[0])], logs[1..])
  }

  function StoreAll(store: Store, logs: seq<Record>): Store
    decreases |logs|
  {
    if logs == [] then store else StoreAll(store[logs[0].index := logs[0]], logs[1..])
  }

  function DeleteAll(store: Store, lo: nat, hi: nat): Store {
    map i | i in store && !(lo <= i <= hi) :: store[i]
  }

  function Blank(capacity: nat): Ring {
    seq(capacity, _ => None)
  }

  /** Reading through the cache is reading the store. */
  ghost predicate Coherent(ring: Ring, store: Store) {
    ring != [] && forall index: nat :: Lookup(ring, store, index) == StoreGet(store, index)
  }

  /** Records sit in their own slots. */
  ghost predicate Placed(ring: Ring) {
    ring != [] && forall s: nat | s < |ring| && ring[s].Some? :: SlotOf(ring, ring[s].value.index) == s
  }

  /** Every record in the buffer is in the store. */
  ghost predicate Backed(ring: Ring, store: Store) {
    forall s: nat | s < |ring| && ring[s].Some? :: StoreGet(store, ring[s].value.index) == ring[s]
  }

  lemma CoherentIsBacked(ring: Ring, store: Store)
    requires Placed(ring)
    ensures Coherent(ring, store) <==> Backed(ring, store)
  {
    if Coherent(ring, store) {
      forall s: nat | s < |ring| && ring[s].Some?
        ensures StoreGet(store, ring[s].value.index) == ring[s]
      {
        assert Lookup(ring, store, ring[s].value.index) == ring[s];
      }
    }
  }

  lemma {:induction false} StoreKeeps(ring: Ring, store: Store, logs: seq<Record>)
    requires Placed(ring) && Backed(ring, store)
    ensures Placed(Insert(ring, logs)) && Backed(Insert(ring, logs), StoreAll(store, logs))
    decreases |logs|
  {
    if logs != [] {
      StoreKeeps(ring[SlotOf(ring, logs[0].index) := Some(logs[0])], store[logs[0].index := logs[0]], logs[1..]);
    }
  }

  // ---------------------------------------------------------------------------
  // Runs

  /** The calls that write; a call fails when the store refuses it, and then the store is unchanged. */
  datatype Call = StoreLogs(logs: seq<Record>, ok: bool) | DeleteRange(lo: nat, hi: nat, ok: bool)

  /** The buffer is updated before the store is asked. */
  function RingAfter(ring: Ring, c: Call): (r: Ring)
    requires ring != []
    ensures |r| == |ring|
  {
    match c
    case StoreLogs(logs, _) => Insert(ring, logs)
    case DeleteRange(_, _, _) => Blank(|ring|)
  }

  function StoreAfter(store: Store, c: Call): Store {
    if !c.ok then store
    else
      match c
      case StoreLogs(logs, _) => StoreAll(store, logs)
      case DeleteRange(lo, hi, _) => DeleteAll(store, lo, hi)
  }

  function RunRing(capacity: nat, calls: seq<Call>): (r: Ring)
    requires capacity > 0
    ensures |r| == capacity
  {
    if calls == [] then Blank(capacity) else RingAfter(RunRing(capacity, calls[..|calls| - 1]), calls[|calls| - 1])
  }

  function RunStore(store: Store, calls: seq<Call>): Store {
    if calls == [] then store else StoreAfter(RunStore(store, calls[..|calls| - 1]), calls[|calls| - 1])
  }

  lemma {:induction false} RunPlaced(capacity: nat, calls: seq<Call>)
    requires capacity > 0
    ensures Placed(RunRing(capacity, calls))
    decreases |calls|
  {
    if calls != [] {
      var ring := RunRing(capacity, calls[..|calls| - 1]);
      RunPlaced(capacity, calls[..|calls| - 1]);
      if calls[|calls| - 1].StoreLogs? {
        InsertPlaced(ring, calls[|calls| - 1].logs);
      }
    }
  }

  lemma {:induction false} InsertPlaced(ring: Ring, logs: seq<Record>)
    requires Placed(ring)
    ensures Placed(Insert(ring, logs))
    decreases |logs|
  {
    if logs != [] {
      InsertPlaced(ring[SlotOf(ring, logs[0].index) := Some(logs[0])], logs[1..]);
    }
  }

  /** Over every sequence of calls the store accepted, GetLog returns what the store returns. */
  lemma {:induction false} CacheCoherence(capacity: nat, store: Store, calls: seq<Call>)
    requires capacity > 0 && forall k | 0 <= k < |calls| :: calls[k].StoreLogs? ==> calls[k].ok
    ensures Coherent(RunRing(capacity, calls), RunStore(store, calls))
    decreases |calls|
  {
    RunPlaced(capacity, calls);
    CoherentIsBacked(RunRing(capacity, calls), RunStore(store, calls));
    if calls != [] {
      var before, c := calls[..|calls| - 1], calls[|calls| - 1];
      CacheCoherence(capacity, store, before);
      RunPlaced(capacity, before);
      CoherentIsBacked(RunRing(capacity, before), RunStore(store, before));
      if c.StoreLogs? {
        assert calls[|calls| - 1].ok;
        StoreKeeps(RunRing(capacity, before), RunStore(store, before), c.logs);
      }
    }
  }

  // ---------------------------------------------------------------------------
  // A batch that the store refused

  /** The record of a batch that ends up in its slot: no later one shares it. */
  ghost predicate Survives(ring: Ring, logs: seq<Record>, k: nat)
    requires ring != [] && k < |logs|
  {
    forall j | k < j < |logs| :: SlotOf(ring, logs[j].index) != SlotOf(ring, logs[k].index)
  }

  lemma {:induction false} InsertedSlot(ring: Ring, logs: seq<Record>, s: nat) returns (k: int)
    requires ring != [] && s < |ring|
    ensures -1 <= k < |logs|
    ensures k == -1 ==>
          Insert(ring, logs)[s] == ring[s] && forall j | 0 <= j < |logs| :: SlotOf(ring, logs[j].index) != s
    ensures k >= 0 ==>
          SlotOf(ring, logs[k].index) == s && Survives(ring, logs, k) && Insert(ring, logs)[s] == Some(logs[k])
    decreases |logs|
  {
    k := -1;
    if logs != [] {
      k := InsertedSlot(ring[SlotOf(ring, logs[0].index) := Some(logs[0])], logs[1..], s);
      if k >= 0 {
        k := k + 1;
        assert logs[1..][k - 1] == logs[k];
        assert Survives(ring, logs, k) by {
          forall j | k < j < |logs|
            ensures SlotOf(ring, logs[j].index) != SlotOf(ring, logs[k].index)
          {
            assert logs[1..][j - 1] == logs[j];
          }
        }
      } else if SlotOf(ring, logs[0].index) == s {
        k := 0;
        assert forall j | 0 < j < |logs| :: logs[1..][j - 1] == logs[j];
      } else {
        assert forall j | 0 < j < |logs| :: logs[1..][j - 1] == logs[j];
      }
    }
  }

  /** After a refused batch the cache still agrees with the store exactly when every record of the
      batch that stayed in the buffer was in the store already. */
  lemma RefusedBatch(ring: Ring, store: Store, logs: seq<Record>)
    requires Placed(ring) && Coherent(ring, store)
    ensures Coherent(Insert(ring, logs), store) <==>
            forall k: nat | k < |logs| && Survives(ring, logs, k) :: StoreGet(store, logs[k].index) == Some(logs[k])
  {
    var after := Insert(ring, logs);
    InsertPlaced(ring, logs);
    CoherentIsBacked(ring, store);
    CoherentIsBacked(after, store);
    if Backed(after, store) {
      forall k: nat | k < |logs| && Survives(ring, logs, k)
        ensures StoreGet(store, logs[k].index) == Some(logs[k])
      {
        var s := SlotOf(ring, logs[k].index);
        var j := InsertedSlot(ring, logs, s);
        assert j == k;
      }
    }
    if forall k: nat | k < |logs| && Survives(ring, logs, k) :: StoreGet(store, logs[k].index) == Some(logs[k]) {
      forall s: nat | s < |after| && after[s].Some?
        ensures StoreGet(store, after[s].value.index) == after[s]
      {
        var j := InsertedSlot(ring, logs, s);
      }
    }
  }

  /** One refused record is enough: the cache then returns an entry that the store does not have. */
  lemma RefusedRecordIsSeen()
    ensures var ring := RunRing(1, [StoreLogs([Record(1, 1, "")], false)]);
            Lookup(ring, map[], 1) == Some(Record(1, 1, "")) && StoreGet(map[], 1) == None
  {
    var calls := [StoreLogs([Record(1, 1, "")], false)];
    assert calls[..0] == [] && RunRing(1, calls[..0]) == Blank(1);
  }

  // ---------------------------------------------------------------------------
  // The cache in place

  class LogCache {
    var store: Store
    var cache: array<Option<Record>>

    ghost predicate Valid()
      reads this, cache
    {
      cache.Length > 0 && Placed(cache[..]) && Coherent(cache[..], store)
    }

    constructor (capacity: nat, store: Store)
      requires capacity > 0
      ensures Valid() && fresh(cache) && cache.Length == capacity && this.store == store
    {
      this.store := store;
      cache := new Option<Record>[capacity](_ => None);
      new;
      CoherentIsBacked(cache[..], this.store);
    }

    method GetLog(index: nat) returns (log: Option<Record>)
      requires Valid()
      ensures log == StoreGet(store, index)
    {
      var cached := cache[index % cache.Length];
      assert Lookup(cache[..], store, index) == StoreGet(store, index);
      assert cache[..][SlotOf(cache[..], index)] == cached;
      if cached.Some? && cached.value.index == index {
        return cached;
      }
      return if index in store then Some(store[index]) else None;
    }

    method InsertAll(logs: seq<Record>)
      requires cache.Length > 0
      modifies cache
      ensures cache[..] == Insert(old(cache[..]), logs)
    {
      ghost var ring := cache[..];
      var rest := logs;
      while rest != []
        invariant Insert(ring, logs) == Insert(cache[..], rest)
        decreases |rest|
      {
        ghost var before := cache[..];
        cache[rest[0].index % cache.Length] := Some(rest[0]);
        assert cache[..] == before[SlotOf(before, rest[0].index) := Some(rest[0])];
        rest := rest[1..];
      }
    }

    /** The buffer first, then the store. */
    method StoreLogs(logs: seq<Record>)
      requires Valid()
      modifies this`store, cache
      ensures Valid() && cache[..] == Insert(old(cache[..]), logs) && store == StoreAll(old(store), logs)
    {
      ghost var ring := cache[..];
      CoherentIsBacked(ring, store);
      StoreKeeps(ring, store, logs);
      CoherentIsBacked(Insert(ring, logs), StoreAll(store, logs));
      InsertAll(logs);
      store := StoreAll(store, logs);
    }

    /** A new, empty buffer, then the store. */
    method DeleteRange(lo: nat, hi: nat)
      requires Valid()
      modifies this
      ensures Valid() && fresh(cache) && cache[..] == Blank(old(cache.Length))
      ensures store == DeleteAll(old(store), lo, hi)
    {
      cache := new Option<Record>[cache.Length](_ => None);
      store := DeleteAll(store, lo, hi);
      CoherentIsBacked(cache[..], store);
    }
  }

  /** NewLogCache refuses a capacity that is not positive. */
  method NewLogCache(capacity: int, store: Store) returns (c: LogCache?)
    ensures c == null <==> capacity <= 0
    ensures c != null ==> fresh(c) && fresh(c.cache) && c.Valid() && c.store == store && c.cache.Length == capacity
  {
    if capacity <= 0 {
      return null;
    }
    c := new LogCache(capacity, store);
  }
}
