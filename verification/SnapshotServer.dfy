/**
  The same node in place: the store filled and emptied entry by entry, the applied entries walked
  one by one, and the three stages of takeSnapshot.  Each method does to the fields what `Do` does
  to their value.
 */
module SnapshotServer {
  import opened Basics
  import opened Node
  import opened Snapshots

  class SnapshotServer<!S> {
    const m: Machine<S>
    const trailing: nat               // conf.TrailingLogs
    var store: map<nat, Entry>
    var snap: Option<Snapshot<S>>
    var lastLog: nat
    var lastSnap: nat
    var lastApplied: nat
    var queue: seq<(nat, Entry)>
    var fsm: S
    var fsmIndex: nat
    var taking: Taking<S>

    ghost function Value(): Replica<S>
      reads this
    {
      Replica(store, snap, lastLog, lastSnap, lastApplied, queue, fsm, fsmIndex, taking)
    }

    constructor (m: Machine<S>, trailing: nat)
      ensures this.m == m && this.trailing == trailing && Value() == Start(m)
    {
      this.m, this.trailing := m, trailing;
      store, snap, lastLog, lastSnap, lastApplied := map[], None, 0, 0, 0;
      queue, fsm, fsmIndex, taking := [], m.init, 0, Idle;
    }

    method StoreLogs(first: nat, entries: Log)
      modifies this`store
      ensures store == Put(old(store), first, entries)
    {
      var next, rest := first, entries;
      while rest != []
        invariant Put(old(store), first, entries) == Put(store, next, rest)
        decreases |rest|
      {
        store := store[next := rest[0]];
        next, rest := next + 1, rest[1..];
      }
    }

    method DeleteRange(lo: nat, hi: nat)
      modifies this`store
      ensures store == Delete(old(store), lo, hi)
    {
      var i := lo;
      while i <= hi
        invariant lo <= i && (i <= hi + 1 || i == lo)
        invariant store == map j | j in old(store) && !(lo <= j < i) :: old(store)[j]
      {
        store := store - {i};
        i := i + 1;
      }
    }

    method DispatchLogs(entries: Log)
      modifies this`store, this`lastLog
      ensures Value() == Do(m, trailing, old(Value()), Append(entries))
    {
      var lastIndex := Max(lastLog, lastSnap);
      StoreLogs(lastIndex + 1, entries);
      lastLog := lastIndex + |entries|;
    }

    method ClearSuffix(first: nat)
      modifies this`store
      ensures store == Delete(old(store), first, lastLog)
    {
      DeleteNothing(store, first, lastLog);
      if first <= lastLog {
        DeleteRange(first, lastLog);
      }
    }

    method ReplaceFrom(first: nat, entries: Log)
      modifies this`store
      ensures store == Put(Delete(old(store), first, lastLog), first, entries)
    {
      ClearSuffix(first);
      StoreLogs(first, entries);
    }

    /** The new entries of an accepted AppendEntries. */
    method StoreNew(prev: nat, entries: Log)
      requires entries != []
      modifies this`store, this`lastLog
      ensures Value() == Do(m, trailing, old(Value()), Overwrite(prev, entries))
    {
      DoOverwrite(m, trailing, Value(), prev, entries);
      ReplaceFrom(prev + 1, entries);
      lastLog := prev + |entries|;
    }

    /** Succeeds exactly when the store has every entry it needs; the source panics otherwise. */
    method ProcessLogs(index: nat)
      requires !Panics(Value(), Process(index))
      modifies this`queue, this`lastApplied
      ensures Value() == Do(m, trailing, old(Value()), Process(index))
    {
      if index <= lastApplied {
        return;
      }
      var idx := lastApplied + 1;
      while idx <= index
        invariant old(lastApplied) < idx <= index + 1 && lastApplied == idx - 1
        invariant queue == old(queue) + Queued(store, old(lastApplied), idx - 1)
      {
        var e := store[idx];
        if ForFsm(e) {
          queue := queue + [(idx, e)];
        }
        lastApplied := idx;
        idx := idx + 1;
      }
    }

    /** runFSM takes one entry. */
    method Apply()
      requires queue != []
      modifies this`queue, this`fsm, this`fsmIndex
      ensures Value() == Do(m, trailing, old(Value()), FsmStep)
    {
      var (index, e) := queue[0];
      queue := queue[1..];
      if e.kind == LogCommand {
        fsm := m.step(fsm, e.data);
      }
      fsmIndex := index;
    }

    /** The first stage of takeSnapshot; false is ErrNothingNewToSnapshot. */
    method TakeSnapshot() returns (started: bool)
      requires taking == Idle
      modifies this`taking
      ensures started == (fsmIndex != 0) && Value() == Do(m, trailing, old(Value()), Capture)
    {
      started := fsmIndex != 0;
      if started {
        taking := Captured(Snapshot(fsmIndex, fsm));
      }
    }

    method PersistSnapshot()
      requires taking.Captured?
      modifies this`snap, this`lastSnap, this`taking
      ensures Value() == Do(m, trailing, old(Value()), Persist)
    {
      snap := Some(taking.snap);
      lastSnap := taking.snap.index;
      taking := Persisted(lastSnap);
    }

    method CompactLogs() returns (first: nat)
      requires taking.Persisted?
      modifies this`store, this`taking
      ensures IsFirst(old(store), first) && Value() == Do(m, trailing, old(Value()), Compact(first))
    {
      first := FirstIndex(store);
      if lastLog > trailing {
        DeleteRange(first, Min(taking.index, lastLog - trailing));
      }
      taking := Idle;
    }

    /** A new process on the same disk. */
    method Restart() returns (last: nat)
      modifies this
      ensures IsLast(old(store), last) && Value() == Do(m, trailing, old(Value()), Event.Restart(last))
    {
      last := GetLastIndex(store);
      lastLog := last;
      queue, fsmIndex, taking := [], 0, Idle;
      RestoreSnapshot();
    }

    /** restoreSnapshot: the newest snapshot, or nothing. */
    method RestoreSnapshot()
      modifies this`fsm, this`lastApplied, this`lastSnap
      ensures fsm == (if snap.Some? then snap.value.state else m.init)
      ensures lastApplied == lastSnap == SnapIndex(snap)
    {
      fsm, lastApplied, lastSnap := m.init, 0, 0;
      if snap.Some? {
        fsm, lastApplied, lastSnap := snap.value.state, snap.value.index, snap.value.index;
      }
    }
  }

  lemma DoOverwrite<S>(m: Machine<S>, trailing: nat, r: Replica<S>, prev: nat, entries: Log)
    ensures Do(m, trailing, r, Overwrite(prev, entries)) ==
            r.(store := Put(Delete(r.store, prev + 1, r.lastLog), prev + 1, entries), lastLog := prev + |entries|)
  {
  }

  lemma DeleteNothing(store: map<nat, Entry>, lo: nat, hi: nat)
    ensures lo > hi ==> Delete(store, lo, hi) == store
  {
  }

  method FirstIndex(store: map<nat, Entry>) returns (first: nat)
    ensures IsFirst(store, first)
  {
    first := 0;
    var rest, none := store.Keys, true;
    while rest != {}
      invariant rest <= store.Keys && (none <==> rest == store.Keys)
      invariant !none ==> first in store && forall i | i in store && i !in rest :: first <= i
      invariant none ==> first == 0
      decreases |rest|
    {
      var k :| k in rest;
      if none || k < first {
        first := k;
      }
      rest, none := rest - {k}, false;
    }
  }

  method GetLastIndex(store: map<nat, Entry>) returns (last: nat)
    ensures IsLast(store, last)
  {
    last := 0;
    var rest, none := store.Keys, true;
    while rest != {}
      invariant rest <= store.Keys && (none <==> rest == store.Keys)
      invariant !none ==> last in store && forall i | i in store && i !in rest :: i <= last
      invariant none ==> last == 0
      decreases |rest|
    {
      var k :| k in rest;
      if none || k > last {
        last := k;
      }
      rest, none := rest - {k}, false;
    }
  }
}
