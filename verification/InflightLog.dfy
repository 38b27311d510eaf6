/**
  The commit tracker as the source keeps it: fields changed in place, the NOTIFY jump as a loop,
  and the commit channel, which must not be used once Cancel has closed it.
 */
module InflightLog {
  import opened Inflight

  class InflightLog<F> {
    var operations: map<nat, Op<F>>
    var minCommit: nat
    var maxCommit: nat
    var committed: seq<F>
    var closed: bool              // Cancel has closed commitCh
    var wakeups: nat              // notifications sent on commitCh
    var cancelled: seq<F>         // the futures Cancel has answered, in order

    ghost function Value(): Tracker<F>
      reads this
    {
      Tracker(operations, minCommit, maxCommit, committed)
    }

    /** After Cancel nothing is left to commit. */
    ghost predicate Ok()
      reads this
    {
      Inflight.Valid(Value()) && (closed ==> Value() == Empty())
    }

    constructor ()
      ensures Ok() && Value() == Empty() && !closed && cancelled == []
    {
      operations, minCommit, maxCommit, committed := map[], 0, 0, [];
      closed, wakeups, cancelled := false, 0, [];
    }

    /** A send on a closed channel panics. */
    method AsyncNotify()
      requires !closed
      modifies this`wakeups
      ensures wakeups == old(wakeups) + 1
    {
      wakeups := wakeups + 1;
    }

    /** The NOTIFY jump: hand over the first operation, and go on while the next one is ready. */
    method HandOver()
      requires Inflight.Valid(Value()) && minCommit > 0
      modifies this`operations, this`minCommit, this`maxCommit, this`committed
      ensures Value() == Notify(old(Value())) && |committed| > |old(committed)|
    {
      ghost var goal := Notify(Value());
      var index, ready := minCommit, true;
      while ready
        invariant Inflight.Valid(Value()) && |committed| >= |old(committed)|
        invariant ready ==> 0 < minCommit == index && goal == Notify(Value())
        invariant !ready ==> Value() == goal && |committed| > |old(committed)|
        decreases ready, maxCommit - minCommit
      {
        committed := committed + [operations[index].future];
        operations := operations - {index};
        if index == maxCommit {
          assert operations == map[];
          minCommit, maxCommit := 0, 0;
        } else {
          minCommit := minCommit + 1;
        }
        ready := minCommit != 0 && operations[minCommit].IsCommitted();
        index := minCommit;
      }
    }

    /** commit, shared by Start, Commit and CommitRange. */
    method CommitIndex(at: nat)
      requires Ok()
      modifies this`operations, this`minCommit, this`maxCommit, this`committed, this`wakeups
      ensures Ok() && Value() == Commit(old(Value()), at)
      ensures wakeups == old(wakeups) + (if |committed| > |old(committed)| then 1 else 0)
    {
      if at !in operations {
        return;
      }
      var op := operations[at].(count := operations[at].count + 1);
      operations := operations[at := op];
      if !op.IsCommitted() || at != minCommit {
        return;
      }
      HandOver();
      AsyncNotify();
    }

    /** start: track the entry at the next index and count the leader's own copy. */
    method StartOne(index: nat, future: F, need: nat)
      requires Ok() && !closed && CanStart(Value(), index)
      modifies this`operations, this`minCommit, this`maxCommit, this`committed, this`wakeups
      ensures Ok() && Value() == Start(old(Value()), index, future, need)
    {
      operations := operations[index := Op(future, 0, need)];
      if index > maxCommit {
        maxCommit := index;
      }
      if minCommit == 0 {
        minCommit := index;
      }
      CommitIndex(index);
    }

    method CommitSpan(lo: nat, hi: nat)
      requires Ok()
      modifies this`operations, this`minCommit, this`maxCommit, this`committed, this`wakeups
      ensures Ok() && Value() == CommitRange(old(Value()), lo, hi)
    {
      ghost var start := Value();
      var from := if minCommit >= lo then minCommit else lo;
      var idx := from;
      while idx <= hi
        invariant Ok() && from <= idx
        invariant CommitEach(Value(), idx, hi) == CommitEach(start, from, hi)
        decreases hi + 1 - idx
      {
        CommitIndex(idx);
        idx := idx + 1;
      }
    }

    /** Committed: hands out what is ready, in order. */
    method Take() returns (ready: seq<F>)
      requires Ok()
      modifies this`committed
      ensures Ok() && ready == old(committed) && Value() == old(Value()).(committed := [])
    {
      ready := committed;
      committed := [];
    }

    /** The first half of Cancel: the tracked futures, in whatever order the map yields them. */
    method AnswerTracked(order: seq<nat>)
      requires forall j | 0 <= j < |order| :: order[j] in operations
      modifies this`cancelled
      ensures cancelled == old(cancelled) + FuturesAt(operations, order)
    {
      var k := 0;
      while k < |order|
        invariant k <= |order| && cancelled == old(cancelled) + FuturesAt(operations, order[..k])
      {
        assert order[..k + 1][..k] == order[..k];
        cancelled := cancelled + [operations[order[k]].future];
        k := k + 1;
      }
      assert order[..k] == order;
    }

    /** The second half: the futures that were committed and not yet processed. */
    method AnswerQueued()
      modifies this`cancelled
      ensures cancelled == old(cancelled) + committed
    {
      var e := 0;
      while e < |committed|
        invariant e <= |committed| && cancelled == old(cancelled) + committed[..e]
      {
        cancelled := cancelled + [committed[e]];
        e := e + 1;
      }
    }

    /** Cancel answers every tracked and every queued future, each once, and closes the channel. */
    method Cancel() returns (order: seq<nat>)
      requires Ok() && !closed
      modifies this
      ensures Ok() && closed && Value() == Empty() && wakeups == old(wakeups)
      ensures Enumerates(order, old(operations).Keys)
      ensures cancelled == old(cancelled) + FuturesAt(old(operations), order) + old(committed)
    {
      order := Enumerate(operations.Keys);
      AnswerTracked(order);
      AnswerQueued();
      operations, committed, minCommit, maxCommit, closed := map[], [], 0, 0, true;
    }
  }

  /** `order` lists each of `keys` once. */
  ghost predicate Enumerates(order: seq<nat>, keys: set<nat>) {
    && (forall i, j | 0 <= i < j < |order| :: order[i] != order[j])
    && (forall i | 0 <= i < |order| :: order[i] in keys)
    && (forall k | k in keys :: k in order)
  }

  /** The order in which a map yields its keys is not specified. */
  method Enumerate(keys: set<nat>) returns (order: seq<nat>)
    ensures Enumerates(order, keys)
  {
    order := [];
    var rest := keys;
    while rest != {}
      invariant rest <= keys && Enumerates(order, keys - rest)
      decreases |rest|
    {
      var k :| k in rest;
      order := order + [k];
      rest := rest - {k};
    }
  }

  function FuturesAt<F>(ops: map<nat, Op<F>>, order: seq<nat>): (r: seq<F>)
    requires forall j | 0 <= j < |order| :: order[j] in ops
    ensures |r| == |order| && forall j | 0 <= j < |order| :: r[j] == ops[order[j]].future
  {
    if order == [] then [] else FuturesAt(ops, order[..|order| - 1]) + [ops[order[|order| - 1]].future]
  }
}
