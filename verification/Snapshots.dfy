/**
  Log, snapshots and state machine of one node (takeSnapshot, compactLogs, restoreSnapshot, runFSM,
  processLogs), with a restart possible between any two steps.

  The log store is an ordered map that compaction shortens.  `full` is the log as it would be
  without compaction; no step reads it.
 */
module Snapshots {
  import opened Basics
  import opened Node
  import opened LogMatching

  /** The application: a state, and what a command makes of it. */
  datatype Machine<!S> = Machine(init: S, step: (S, string) -> S)

  datatype Snapshot<S> = Snapshot(index: nat, state: S)

  /** takeSnapshot under way: the state captured, or the snapshot persisted and the log not yet compacted. */
  datatype Taking<S> = Idle | Captured(snap: Snapshot<S>) | Persisted(index: nat)

  datatype Replica<S> = Replica(
    // durable
    store: map<nat, Entry>, snap: Option<Snapshot<S>>,
    // volatile
    lastLog: nat, lastSnap: nat, lastApplied: nat,
    queue: seq<(nat, Entry)>,            // fsmCommitCh
    fsm: S, fsmIndex: nat,               // runFSM: the state, and the last index it took from the queue
    taking: Taking<S>)

  /** getLastIndex */
  function LastIndex<S>(r: Replica<S>): nat {
    Max(r.lastLog, r.lastSnap)
  }

  predicate ForFsm(e: Entry) {
    e.kind == LogCommand || e.kind == LogBarrier
  }

  function Consume<S>(m: Machine<S>, s: S, e: Entry): S {
    if e.kind == LogCommand then m.step(s, e.data) else s
  }

  // ---------------------------------------------------------------------------
  // The log store

  /** StoreLogs of consecutive entries that begin at index `first`. */
  function Put(store: map<nat, Entry>, first: nat, entries: Log): (r: map<nat, Entry>)
    ensures forall i: nat :: i in r <==> i in store || first <= i < first + |entries|
    ensures forall i: nat | i in r :: r[i] == if first <= i < first + |entries| then entries[i - first] else store[i]
    decreases |entries|
  {
    if entries == [] then store else Put(store[first := entries[0]], first + 1, entries[1..])
  }

  /** DeleteRange, both ends included. */
  function Delete(store: map<nat, Entry>, lo: nat, hi: nat): map<nat, Entry> {
    map i | i in store && !(lo <= i <= hi) :: store[i]
  }

  ghost predicate IsFirst(store: map<nat, Entry>, k: nat) {
    if store == map[] then k == 0 else k in store && forall i | i in store :: k <= i
  }

  ghost predicate IsLast(store: map<nat, Entry>, k: nat) {
    if store == map[] then k == 0 else k in store && forall i | i in store :: i <= k
  }

  // ---------------------------------------------------------------------------
  // Steps

  datatype Event =
    | Append(entries: Log)                    // dispatchLogs
    | Overwrite(prev: nat, entries: Log)      // appendEntries
    | Process(index: nat)                     // processLogs
    | FsmStep                                 // runFSM takes one entry
    | Capture                                 // runFSM serves a snapshot request
    | Persist                                 // the snapshot is on disk
    | Compact(first: nat)                     // compactLogs, FirstIndex() having returned `first`
    | Restart(last: nat)                      // NewRaft, LastIndex() having returned `last`

  /** What the entries of a range put on the queue. */
  function Queued(store: map<nat, Entry>, lo: nat, hi: nat): seq<(nat, Entry)>
    requires forall i | lo < i <= hi :: i in store
    decreases hi - lo
  {
    if hi <= lo then []
    else Queued(store, lo, hi - 1) + (if ForFsm(store[hi]) then [(hi, store[hi])] else [])
  }

  /** The guard of each step.  An overwrite keeps what was applied, and processing goes up to a
      committed index, which the node has. */
  ghost predicate Allowed<S>(r: Replica<S>, full: Log, e: Event) {
    match e
    case Append(_) => true
    case Overwrite(prev, entries) =>
      prev <= |full| && entries != [] && Agree(full, full[..prev] + entries, r.lastApplied)
    case Process(index) => index <= LastIndex(r)
    case FsmStep => r.queue != []
    case Capture => r.taking == Idle
    case Persist => r.taking.Captured?
    case Compact(first) => r.taking.Persisted? && IsFirst(r.store, first)
    case Restart(last) => IsLast(r.store, last)
  }

  /** processLogs panics when the store lacks an entry it needs. */
  predicate Panics<S>(r: Replica<S>, e: Event) {
    e.Process? && exists i | r.lastApplied < i <= e.index :: i !in r.store
  }

  /** minLog..maxLog, or nothing when there are not enough entries. */
  function Compacted<S>(r: Replica<S>, first: nat, snapIndex: nat, trailing: nat): map<nat, Entry> {
    if r.lastLog <= trailing then r.store else Delete(r.store, first, Min(snapIndex, r.lastLog - trailing))
  }

  function Restored<S>(m: Machine<S>, r: Replica<S>, last: nat): Replica<S> {
    var at := if r.snap.Some? then r.snap.value else Snapshot(0, m.init);
    Replica(r.store, r.snap, last, at.index, at.index, [], at.state, 0, Idle)
  }

  function Do<S>(m: Machine<S>, trailing: nat, r: Replica<S>, e: Event): Replica<S>
    requires !Panics(r, e)
  {
    match e
    case Append(entries) =>
      var first := LastIndex(r) + 1;
      r.(store := Put(r.store, first, entries), lastLog := first - 1 + |entries|)
    case Overwrite(prev, entries) =>
      r.(store := Put(Delete(r.store, prev + 1, r.lastLog), prev + 1, entries), lastLog := prev + |entries|)
    case Process(index) =>
      if index <= r.lastApplied then r
      else r.(queue := r.queue + Queued(r.store, r.lastApplied, index), lastApplied := index)
    case FsmStep =>
      if r.queue == [] then r
      else r.(queue := r.queue[1..], fsm := Consume(m, r.fsm, r.queue[0].1), fsmIndex := r.queue[0].0)
    case Capture =>
      if r.fsmIndex == 0 then r else r.(taking := Captured(Snapshot(r.fsmIndex, r.fsm)))
    case Persist =>
      if !r.taking.Captured? then r
      else r.(snap := Some(r.taking.snap), lastSnap := r.taking.snap.index, taking := Persisted(r.taking.snap.index))
    case Compact(first) =>
      if !r.taking.Persisted? then r
      else r.(store := Compacted(r, first, r.taking.index, trailing), taking := Idle)
    case Restart(last) => Restored(m, r, last)
  }

  ghost function FullAfter<S>(r: Replica<S>, full: Log, e: Event): Log
    requires Allowed(r, full, e)
  {
    match e
    case Append(entries) => full + entries
    case Overwrite(prev, entries) => full[..prev] + entries
    case _ => full
  }

  // ---------------------------------------------------------------------------
  // The invariant

  /** The state after all of `log`, from the start. */
  function Fold<S>(m: Machine<S>, log: Log): S {
    if log == [] then m.init else Consume(m, Fold(m, log[..|log| - 1]), log[|log| - 1])
  }

  /** Everything in the store is an entry of the full log. */
  ghost predicate PartOf(store: map<nat, Entry>, full: Log) {
    forall i | i in store :: 1 <= i <= |full| && store[i] == full[i - 1]
  }

  function SnapIndex<S>(s: Option<Snapshot<S>>): nat {
    if s.Some? then s.value.index else 0
  }

  /** The snapshot is the state after the first `index` entries. */
  ghost predicate SnapOk<S>(m: Machine<S>, full: Log, s: Snapshot<S>) {
    s.index <= |full| && s.state == Fold(m, full[..s.index])
  }

  /** The state machine has consumed the first `at` entries, and the queue holds its share of the
      rest, up to the last applied one. */
  ghost predicate FsmOk<S>(m: Machine<S>, r: Replica<S>, full: Log, at: nat) {
    && at <= r.lastApplied <= |full|
    && r.fsm == Fold(m, full[..at])
    && QueueIs(r.queue, full, at, r.lastApplied)
    && (r.fsmIndex == 0 || r.fsmIndex == at)
    && SnapIndex(r.snap) <= at
  }

  /** The queue lists, in order, what the entries after `lo` up to `hi` are to the state machine. */
  ghost predicate QueueIs(queue: seq<(nat, Entry)>, full: Log, lo: nat, hi: nat) {
    hi <= |full| && queue == Share(full, lo, hi)
  }

  ghost function Share(full: Log, lo: nat, hi: nat): seq<(nat, Entry)>
    requires hi <= |full|
    decreases hi - lo
  {
    if hi <= lo then []
    else Share(full, lo, hi - 1) + (if ForFsm(full[hi - 1]) then [(hi, full[hi - 1])] else [])
  }

  ghost predicate TakingOk<S>(m: Machine<S>, r: Replica<S>, full: Log, at: nat) {
    match r.taking
    case Idle => true
    case Captured(snap) => SnapOk(m, full, snap) && SnapIndex(r.snap) <= snap.index <= at
    case Persisted(index) => index == SnapIndex(r.snap)
  }

  ghost predicate Inv<S>(m: Machine<S>, r: Replica<S>, full: Log, at: nat) {
    && PartOf(r.store, full)
    && (forall i | SnapIndex(r.snap) < i <= |full| :: i in r.store)
    && (forall i | i in r.store :: i <= r.lastLog)
    && LastIndex(r) == |full| && r.lastSnap == SnapIndex(r.snap)
    && (r.snap.Some? ==> SnapOk(m, full, r.snap.value))
    && FsmOk(m, r, full, at)
    && TakingOk(m, r, full, at)
  }

  // ---------------------------------------------------------------------------
  // Queues and folds

  lemma {:induction false} ShareFirst(full: Log, lo: nat, hi: nat)
    requires hi <= |full| && Share(full, lo, hi) != []
    ensures var q := Share(full, lo, hi);
            && lo < q[0].0 <= hi && q[0].1 == full[q[0].0 - 1] && q[1..] == Share(full, q[0].0, hi)
            && forall i | lo <= i < q[0].0 - 1 :: !ForFsm(full[i])
    decreases hi - lo
  {
    var tail := if ForFsm(full[hi - 1]) then [(hi, full[hi - 1])] else [];
    var head := Share(full, lo, hi - 1);
    if head == [] {
      ShareEmpty(full, lo, hi - 1);
    } else {
      ShareFirst(full, lo, hi - 1);
      assert (head + tail)[1..] == head[1..] + tail;
    }
  }

  lemma {:induction false} ShareEmpty(full: Log, lo: nat, hi: nat)
    requires hi <= |full| && Share(full, lo, hi) == []
    ensures forall i | lo <= i < hi :: !ForFsm(full[i])
    decreases hi - lo
  {
    if lo < hi {
      ShareEmpty(full, lo, hi - 1);
    }
  }

  lemma {:induction false} ShareSplit(full: Log, lo: nat, mid: nat, hi: nat)
    requires lo <= mid <= hi <= |full|
    ensures Share(full, lo, mid) + Share(full, mid, hi) == Share(full, lo, hi)
    decreases hi - mid
  {
    if mid < hi {
      ShareSplit(full, lo, mid, hi - 1);
      var tail := if ForFsm(full[hi - 1]) then [(hi, full[hi - 1])] else [];
      assert Share(full, lo, mid) + (Share(full, mid, hi - 1) + tail) ==
            (Share(full, lo, mid) + Share(full, mid, hi - 1)) + tail;
    }
  }

  lemma {:induction false} ShareAgrees(full: Log, full': Log, lo: nat, hi: nat)
    requires Agree(full, full', hi)
    ensures Share(full, lo, hi) == Share(full', lo, hi)
    decreases hi - lo
  {
    if lo < hi {
      ShareAgrees(full, full', lo, hi - 1);
    }
  }

  lemma {:induction false} QueuedIsShare(store: map<nat, Entry>, full: Log, lo: nat, hi: nat)
    requires PartOf(store, full) && hi <= |full| && forall i | lo < i <= hi :: i in store
    ensures Queued(store, lo, hi) == Share(full, lo, hi)
    decreases hi - lo
  {
    if lo < hi {
      QueuedIsShare(store, full, lo, hi - 1);
    }
  }

  /** Entries that are not for the state machine leave it alone. */
  lemma {:induction false} FoldSkips<S>(m: Machine<S>, full: Log, lo: nat, hi: nat)
    requires lo <= hi <= |full| && forall i | lo <= i < hi :: !ForFsm(full[i])
    ensures Fold(m, full[..hi]) == Fold(m, full[..lo])
    decreases hi
  {
    if lo < hi {
      FoldSkips(m, full, lo, hi - 1);
      FoldNext(m, full, hi);
    }
  }

  lemma FoldNext<S>(m: Machine<S>, full: Log, k: nat)
    requires 0 < k <= |full|
    ensures Fold(m, full[..k]) == Consume(m, Fold(m, full[..k - 1]), full[k - 1])
  {
    assert full[..k][..k - 1] == full[..k - 1];
  }

  lemma SnapAgrees<S>(m: Machine<S>, full: Log, full': Log, s: Snapshot<S>)
    requires SnapOk(m, full, s) && Agree(full, full', s.index)
    ensures SnapOk(m, full', s)
  {
    assert full'[..s.index] == full[..s.index];
  }

  // ---------------------------------------------------------------------------
  // Every step keeps the invariant

  ghost function AtAfter<S>(r: Replica<S>, at: nat, e: Event): nat {
    match e
    case FsmStep => if r.queue == [] then at else r.queue[0].0
    case Restart(_) => SnapIndex(r.snap)
    case _ => at
  }

  /** The log changes, and keeps what was applied. */
  lemma Rewritten<S>(m: Machine<S>, r: Replica<S>, full: Log, full': Log, at: nat, store: map<nat, Entry>)
    requires Inv(m, r, full, at) && Agree(full, full', r.lastApplied)
    requires PartOf(store, full') && (forall i | SnapIndex(r.snap) < i <= |full'| :: i in store)
    ensures Inv(m, r.(store := store, lastLog := |full'|), full', at)
  {
    ShareAgrees(full, full', at, r.lastApplied);
    assert full'[..at] == full[..at];
    if r.snap.Some? {
      SnapAgrees(m, full, full', r.snap.value);
    }
    if r.taking.Captured? {
      SnapAgrees(m, full, full', r.taking.snap);
    }
  }

  lemma AppendedStore(store: map<nat, Entry>, full: Log, entries: Log)
    requires PartOf(store, full)
    ensures PartOf(Put(store, |full| + 1, entries), full + entries)
  {
  }

  lemma OverwrittenStore(store: map<nat, Entry>, full: Log, prev: nat, entries: Log, lastLog: nat)
    requires PartOf(store, full) && prev <= |full| && forall i | i in store :: i <= lastLog
    ensures PartOf(Put(Delete(store, prev + 1, lastLog), prev + 1, entries), full[..prev] + entries)
  {
  }

  lemma AppendKeeps<S>(m: Machine<S>, trailing: nat, r: Replica<S>, full: Log, at: nat, entries: Log)
    requires Inv(m, r, full, at)
    ensures Inv(m, Do(m, trailing, r, Append(entries)), full + entries, at)
  {
    AppendedStore(r.store, full, entries);
    Rewritten(m, r, full, full + entries, at, Put(r.store, |full| + 1, entries));
  }

  lemma OverwriteKeeps<S>(m: Machine<S>, trailing: nat, r: Replica<S>, full: Log, at: nat, prev: nat, entries: Log)
    requires Inv(m, r, full, at) && Allowed(r, full, Overwrite(prev, entries))
    ensures Inv(m, Do(m, trailing, r, Overwrite(prev, entries)), full[..prev] + entries, at)
  {
    var store := Put(Delete(r.store, prev + 1, r.lastLog), prev + 1, entries);
    OverwrittenStore(r.store, full, prev, entries, r.lastLog);
    assert forall i | SnapIndex(r.snap) < i <= prev :: i in r.store && i in store;
    Rewritten(m, r, full, full[..prev] + entries, at, store);
  }

  lemma ProcessKeeps<S>(m: Machine<S>, trailing: nat, r: Replica<S>, full: Log, at: nat, e: Event)
    requires Inv(m, r, full, at) && Allowed(r, full, e) && e.Process?
    ensures !Panics(r, e) && Inv(m, Do(m, trailing, r, e), full, at)
  {
    if r.lastApplied < e.index {
      QueuedIsShare(r.store, full, r.lastApplied, e.index);
      ShareSplit(full, at, r.lastApplied, e.index);
    }
  }

  lemma FsmStepKeeps<S>(m: Machine<S>, trailing: nat, r: Replica<S>, full: Log, at: nat)
    requires Inv(m, r, full, at) && r.queue != []
    ensures Inv(m, Do(m, trailing, r, FsmStep), full, r.queue[0].0)
  {
    var k := r.queue[0].0;
    ShareFirst(full, at, r.lastApplied);
    FoldSkips(m, full, at, k - 1);
    FoldNext(m, full, k);
  }

  lemma SnapshotKeeps<S>(m: Machine<S>, trailing: nat, r: Replica<S>, full: Log, at: nat, e: Event)
    requires Inv(m, r, full, at) && Allowed(r, full, e) && (e.Capture? || e.Persist? || e.Compact?)
    ensures Inv(m, Do(m, trailing, r, e), full, at)
  {
  }

  lemma RestartKeeps<S>(m: Machine<S>, trailing: nat, r: Replica<S>, full: Log, at: nat, e: Event)
    requires Inv(m, r, full, at) && Allowed(r, full, e) && e.Restart?
    ensures Inv(m, Do(m, trailing, r, e), full, SnapIndex(r.snap))
  {
    assert full[..0] == [];
    assert |full| > SnapIndex(r.snap) ==> |full| in r.store;
  }

  lemma StepKeeps<S>(m: Machine<S>, trailing: nat, r: Replica<S>, full: Log, at: nat, e: Event)
    requires Inv(m, r, full, at) && Allowed(r, full, e)
    ensures !Panics(r, e) && Inv(m, Do(m, trailing, r, e), FullAfter(r, full, e), AtAfter(r, at, e))
  {
    match e {
      case Append(entries) => AppendKeeps(m, trailing, r, full, at, entries);
      case Overwrite(prev, entries) => OverwriteKeeps(m, trailing, r, full, at, prev, entries);
      case Process(_) => ProcessKeeps(m, trailing, r, full, at, e);
      case FsmStep => FsmStepKeeps(m, trailing, r, full, at);
      case Restart(_) => RestartKeeps(m, trailing, r, full, at, e);
      case _ => SnapshotKeeps(m, trailing, r, full, at, e);
    }
  }

  // ---------------------------------------------------------------------------
  // What each step brings about

  /** Processing reaches the index asked for, and queues what the state machine is to see, in order. */
  lemma ProcessReaches<S>(m: Machine<S>, trailing: nat, r: Replica<S>, full: Log, at: nat, index: nat)
    requires Inv(m, r, full, at) && index <= LastIndex(r)
    ensures !Panics(r, Process(index))
    ensures var r' := Do(m, trailing, r, Process(index));
            && r'.lastApplied == Max(r.lastApplied, index) && r'.queue == Share(full, at, Max(r.lastApplied, index))
            && r' == r.(lastApplied := r'.lastApplied, queue := r'.queue)
  {
    ProcessKeeps(m, trailing, r, full, at, Process(index));
  }

  /** One entry leaves the queue: a command is applied, anything else is not. */
  lemma FsmTakes<S>(m: Machine<S>, trailing: nat, r: Replica<S>)
    requires r.queue != []
    ensures var r', e := Do(m, trailing, r, FsmStep), r.queue[0].1;
            && r'.queue == r.queue[1..] && r'.fsmIndex == r.queue[0].0
            && r'.fsm == (if e.kind == LogCommand then m.step(r.fsm, e.data) else r.fsm)
            && r' == r.(queue := r'.queue, fsmIndex := r'.fsmIndex, fsm := r'.fsm)
  {
  }

  /** A snapshot is taken of what the state machine has consumed since the start, if that is anything, and
      once persisted it is the newest one. */
  lemma SnapshotTakes<S>(m: Machine<S>, trailing: nat, r: Replica<S>, full: Log, at: nat)
    requires Inv(m, r, full, at) && r.taking == Idle
    ensures var c := Do(m, trailing, r, Capture);
            if r.fsmIndex == 0 then c == r
            else
              && c == r.(taking := Captured(Snapshot(at, Fold(m, full[..at]))))
              && Do(m, trailing, c, Persist) ==
                 r.(snap := Some(Snapshot(at, Fold(m, full[..at]))), lastSnap := at, taking := Persisted(at))
  {
  }

  /** The compaction that follows deletes exactly what the snapshot covers and the trailing logs do not. */
  lemma CompactionDeletes<S>(m: Machine<S>, trailing: nat, r: Replica<S>, full: Log, at: nat, first: nat, i: nat)
    requires Inv(m, r, full, at) && r.taking.Persisted? && IsFirst(r.store, first)
    ensures var c := Do(m, trailing, r, Compact(first));
            && c == r.(store := c.store, taking := Idle)
            && (i in c.store <==>
                  i in r.store && (i > SnapIndex(r.snap) || i + trailing > r.lastLog || r.lastLog <= trailing))
  {
    if i in r.store {
      CompactionKeeps(r, first, SnapIndex(r.snap), trailing, i);
    }
  }

  /** A new process has the log of the store and the state of the newest snapshot, and nothing else. */
  lemma RestartRestores<S>(m: Machine<S>, trailing: nat, r: Replica<S>, last: nat)
    ensures var r' := Do(m, trailing, r, Restart(last));
            && r'.store == r.store && r'.snap == r.snap && r'.lastLog == last && r'.queue == [] && r'.fsmIndex == 0
            && (if r.snap.Some? then r'.fsm == r.snap.value.state && r'.lastApplied == r.snap.value.index
                else r'.fsm == m.init && r'.lastApplied == 0)
  {
  }

  /** Compaction keeps exactly what no snapshot covers and the trailing entries. */
  lemma CompactionKeeps<S>(r: Replica<S>, first: nat, snapIndex: nat, trailing: nat, i: nat)
    requires IsFirst(r.store, first) && i in r.store && i > 0
    ensures i in Compacted(r, first, snapIndex, trailing) <==>
          i > snapIndex || i + trailing > r.lastLog || r.lastLog <= trailing
    ensures i in Compacted(r, first, snapIndex, trailing) ==> Compacted(r, first, snapIndex, trailing)[i] == r.store[i]
  {
  }

  // ---------------------------------------------------------------------------
  // Runs

  function Start<S>(m: Machine<S>): Replica<S> {
    Replica(map[], None, 0, 0, 0, [], m.init, 0, Idle)
  }

  /** Step `k` of a run; after a panic nothing is known. */
  ghost predicate StepAt<S>(
      m: Machine<S>, trailing: nat, run: seq<Replica<S>>, fulls: seq<Log>, events: seq<Event>, k: nat)
    requires k < |events| && |run| == |fulls| == |events| + 1
  {
    && Allowed(run[k], fulls[k], events[k])
    && fulls[k + 1] == FullAfter(run[k], fulls[k], events[k])
    && (!Panics(run[k], events[k]) ==> run[k + 1] == Do(m, trailing, run[k], events[k]))
  }

  /** Any interleaving of the steps; `fulls` is the log without compaction. */
  ghost predicate IsRun<S>(m: Machine<S>, trailing: nat, run: seq<Replica<S>>, fulls: seq<Log>, events: seq<Event>) {
    && |run| == |fulls| == |events| + 1
    && run[0] == Start(m) && fulls[0] == []
    && forall k: nat | k < |events| :: StepAt(m, trailing, run, fulls, events, k)
  }

  lemma {:induction false} RunHolds<S>(
      m: Machine<S>, trailing: nat, run: seq<Replica<S>>, fulls: seq<Log>, events: seq<Event>, k: nat)
      returns (at: nat)
    requires IsRun(m, trailing, run, fulls, events) && k < |run|
    ensures Inv(m, run[k], fulls[k], at)
  {
    if k == 0 {
      at := 0;
    } else {
      at := RunHolds(m, trailing, run, fulls, events, k - 1);
      assert StepAt(m, trailing, run, fulls, events, k - 1);
      StepKeeps(m, trailing, run[k - 1], fulls[k - 1], at, events[k - 1]);
      at := AtAfter(run[k - 1], at, events[k - 1]);
    }
  }

  /** No run ever panics in processLogs: every index after the last applied one is in the store. */
  lemma NeverPanics<S>(m: Machine<S>, trailing: nat, run: seq<Replica<S>>, fulls: seq<Log>, events: seq<Event>, k: nat)
    requires IsRun(m, trailing, run, fulls, events) && k < |run|
    ensures forall i | run[k].lastApplied < i <= LastIndex(run[k]) :: i in run[k].store
    ensures k < |events| ==> !Panics(run[k], events[k])
  {
    var at := RunHolds(m, trailing, run, fulls, events, k);
    if k < |events| {
      assert StepAt(m, trailing, run, fulls, events, k);
    }
  }

  /** The entries of the store after index `lo`, folded over `state`. */
  function Replay<S>(m: Machine<S>, state: S, store: map<nat, Entry>, lo: nat, hi: nat): S
    requires forall i | lo < i <= hi :: i in store
    decreases hi - lo
  {
    if hi <= lo then state else Consume(m, Replay(m, state, store, lo, hi - 1), store[hi])
  }

  lemma {:induction false} ReplayIsFold<S>(m: Machine<S>, full: Log, store: map<nat, Entry>, lo: nat, hi: nat)
    requires PartOf(store, full) && lo <= hi <= |full| && forall i | lo < i <= hi :: i in store
    ensures Replay(m, Fold(m, full[..lo]), store, lo, hi) == Fold(m, full[..hi])
    decreases hi - lo
  {
    if lo < hi {
      ReplayIsFold(m, full, store, lo, hi - 1);
      FoldNext(m, full, hi);
    }
  }

  /** At every moment of every run, what is left of the log, folded over the newest snapshot, gives the
      state that the whole log gives. */
  lemma ReplayEquivalence<S>(
      m: Machine<S>, trailing: nat, run: seq<Replica<S>>, fulls: seq<Log>, events: seq<Event>, k: nat)
    requires IsRun(m, trailing, run, fulls, events) && k < |run|
    ensures LastIndex(run[k]) == |fulls[k]|
    ensures forall i | SnapIndex(run[k].snap) < i <= LastIndex(run[k]) :: i in run[k].store
    ensures Replay(m, if run[k].snap.Some? then run[k].snap.value.state else m.init, run[k].store,
          SnapIndex(run[k].snap), LastIndex(run[k]))
         == Fold(m, fulls[k])
  {
    var at := RunHolds(m, trailing, run, fulls, events, k);
    var r, full := run[k], fulls[k];
    assert full[..0] == [] && full[..|full|] == full;
    ReplayIsFold(m, full, r.store, SnapIndex(r.snap), |full|);
  }

  /** A state machine that has emptied its queue is in the state of the log up to the last applied
      entry, however often the node restarted. */
  lemma DrainedIsFold<S>(
      m: Machine<S>, trailing: nat, run: seq<Replica<S>>, fulls: seq<Log>, events: seq<Event>, k: nat)
    requires IsRun(m, trailing, run, fulls, events) && k < |run| && run[k].queue == []
    ensures run[k].lastApplied <= |fulls[k]| && run[k].fsm == Fold(m, fulls[k][..run[k].lastApplied])
  {
    var at := RunHolds(m, trailing, run, fulls, events, k);
    ShareEmpty(fulls[k], at, run[k].lastApplied);
    FoldSkips(m, fulls[k], at, run[k].lastApplied);
  }
}
