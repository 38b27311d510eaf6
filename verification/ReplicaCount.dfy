/**
  The leader counts replicas: the tracker's count of an index is the number of nodes whose
  replicators have confirmed it (dispatchLogs, updateLastAppended, inflight.commit).
 */
module ReplicaCount {
  import opened Node
  import opened NodeFacts
  import opened Election
  import I = Inflight

  /** The leader itself, and the peers confirmed up to `index`. */
  function Confirmed(n: Id, repl: map<Id, Replicator>, index: nat): set<Id> {
    {n} + set p | p in repl && index < repl[p].next
  }

  /** Every tracked index was started in this term, needs a majority, and counts its confirmations. */
  ghost predicate CountsMatch(t: I.Tracker<nat>, n: Id, repl: map<Id, Replicator>, start: nat, need: nat) {
    forall i | i in t.ops ::
      start < i && t.ops[i].future == i && t.ops[i].need == need && t.ops[i].count == |Confirmed(n, repl, i)|
  }

  /** `x` was started in this term and is confirmed by a quorum. */
  ghost predicate Backed(n: Id, repl: map<Id, Replicator>, start: nat, need: nat, x: nat) {
    start < x && |Confirmed(n, repl, x)| >= need
  }

  /** Everything the tracker has newly put on the committed list is backed. */
  ghost predicate NewlyBacked(
      t: I.Tracker<nat>, r: I.Tracker<nat>, n: Id, repl: map<Id, Replicator>, start: nat, need: nat) {
    && t.committed <= r.committed
    && forall k | |t.committed| <= k < |r.committed| :: Backed(n, repl, start, need, r.committed[k])
  }

  lemma OnlyTheLeader(n: Id, repl: map<Id, Replicator>, index: nat)
    requires forall p | p in repl :: repl[p].next <= index
    ensures Confirmed(n, repl, index) == {n}
  {
  }

  lemma StartCounts(t: I.Tracker<nat>, first: nat, n: Id, repl: map<Id, Replicator>, start: nat, need: nat)
    requires I.Valid(t) && I.CanStart(t, first) && CountsMatch(t, n, repl, start, need)
    requires start < first && forall p | p in repl :: repl[p].next <= first
    ensures CountsMatch(I.Start(t, first, first, need), n, repl, start, need)
    ensures NewlyBacked(t, I.Start(t, first, first, need), n, repl, start, need)
  {
    var s := I.Track(t, first, first, need);
    var r := I.Start(t, first, first, need);
    I.CommitCounts(s, first);
    OnlyTheLeader(n, repl, first);
    forall k | |t.committed| <= k < |r.committed|
      ensures Backed(n, repl, start, need, r.committed[k])
    {
      assert I.Earned(s, r.committed[k], first, first);
    }
  }

  lemma {:induction false} StartRangeCounts(
      t: I.Tracker<nat>, first: nat, count: nat, n: Id, repl: map<Id, Replicator>, start: nat, need: nat)
    requires I.Valid(t) && (count > 0 ==> I.CanStart(t, first)) && CountsMatch(t, n, repl, start, need)
    requires start < first && forall p | p in repl :: repl[p].next <= first
    ensures CountsMatch(StartRange(t, first, count, need), n, repl, start, need)
    ensures NewlyBacked(t, StartRange(t, first, count, need), n, repl, start, need)
    decreases count
  {
    if count > 0 {
      var s := I.Start(t, first, first, need);
      StartCounts(t, first, n, repl, start, need);
      StartStaysConsecutive(t, first, need);
      StartRangeCounts(s, first + 1, count - 1, n, repl, start, need);
      BackedTwice(t, s, StartRange(s, first + 1, count - 1, need), n, repl, start, need);
    }
  }

  lemma BackedTwice(t: I.Tracker<nat>, m: I.Tracker<nat>, r: I.Tracker<nat>,
                    n: Id, repl: map<Id, Replicator>, start: nat, need: nat)
    requires NewlyBacked(t, m, n, repl, start, need) && NewlyBacked(m, r, n, repl, start, need)
    ensures NewlyBacked(t, r, n, repl, start, need)
  {
  }

  /** A confirmed range adds its follower to exactly the indexes of the range. */
  lemma ConfirmedGrows(n: Id, repl: map<Id, Replicator>, repl': map<Id, Replicator>, p: Id, lo: nat, hi: nat, i: nat)
    requires p in repl && p != n && p in repl' && repl' == repl[p := repl'[p]]
    requires repl[p].next == lo && repl'[p].next == hi + 1 && lo <= hi
    ensures |Confirmed(n, repl', i)| == |Confirmed(n, repl, i)| + I.InRange(i, lo, hi)
  {
    if lo <= i <= hi {
      assert Confirmed(n, repl', i) == Confirmed(n, repl, i) + {p};
    } else {
      assert Confirmed(n, repl', i) == Confirmed(n, repl, i);
    }
  }

  lemma RangeCounts(t: I.Tracker<nat>, n: Id, repl: map<Id, Replicator>, repl': map<Id, Replicator>, p: Id,
                    lo: nat, hi: nat, start: nat, need: nat)
    requires I.Valid(t) && CountsMatch(t, n, repl, start, need)
    requires p in repl && p != n && p in repl' && repl' == repl[p := repl'[p]]
    requires repl[p].next == lo && repl'[p].next == hi + 1 && lo <= hi
    ensures CountsMatch(I.CommitRange(t, lo, hi), n, repl', start, need)
    ensures NewlyBacked(t, I.CommitRange(t, lo, hi), n, repl', start, need)
  {
    var r := I.CommitRange(t, lo, hi);
    I.CommitRangeIsCommitEach(t, lo, hi);
    I.CommitEachCounts(t, lo, hi);
    forall i | i in r.ops
      ensures start < i && r.ops[i].future == i && r.ops[i].need == need && r.ops[i].count == |Confirmed(n, repl', i)|
    {
      ConfirmedGrows(n, repl, repl', p, lo, hi, i);
    }
    forall k | |t.committed| <= k < |r.committed|
      ensures Backed(n, repl', start, need, r.committed[k])
    {
      assert I.Earned(t, r.committed[k], lo, hi);
      ConfirmedGrows(n, repl, repl', p, lo, hi, r.committed[k]);
    }
  }

  /** Replicators that have confirmed nothing of this term do not count, wherever they stand. */
  lemma UnconfirmedMoves(
      t: I.Tracker<nat>, n: Id, repl: map<Id, Replicator>, repl': map<Id, Replicator>, p: Id, start: nat, need: nat)
    requires CountsMatch(t, n, repl, start, need) && p in repl && p in repl' && repl' == repl[p := repl'[p]]
    requires repl'[p].next == repl[p].next || (repl'[p].next <= start + 1 && repl[p].next <= start + 1)
    ensures CountsMatch(t, n, repl', start, need)
  {
    forall i | i in t.ops
      ensures t.ops[i].count == |Confirmed(n, repl', i)|
    {
      assert Confirmed(n, repl', i) == Confirmed(n, repl, i);
    }
  }
}
