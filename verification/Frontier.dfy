/**
  The commit tracker of a leader over a log: how far it has handed entries out, that what it hands out
  are the next indexes in order, and that it holds nothing back that has its quorum.
 */
module Frontier {
  import opened Node
  import opened NodeFacts
  import I = Inflight

  /** Everything up to here has left the tracker of a log of length `n`. */
  function Handed(t: I.Tracker<nat>, n: nat): int {
    if t.minCommit > 0 then t.minCommit - 1 else n
  }

  /** The first tracked entry lacks its quorum. */
  ghost predicate Settled(t: I.Tracker<nat>) {
    t.minCommit in t.ops ==> !t.ops[t.minCommit].IsCommitted()
  }

  /** From `t`, over a log of length `n`, to `r`, over one of length `n'`: the queue grew by exactly the
      next indexes, in order. */
  ghost predicate Spans(t: I.Tracker<nat>, n: nat, r: I.Tracker<nat>, n': nat) {
    && t.committed <= r.committed
    && |r.committed| - |t.committed| == Handed(r, n') - Handed(t, n)
    && forall k | |t.committed| <= k < |r.committed| :: r.committed[k] == Handed(t, n) + 1 + k - |t.committed|
  }

  /** What left the tracker had its quorum, counting one more vote for each of lo..hi. */
  ghost predicate LeftWithQuorum(t: I.Tracker<nat>, r: I.Tracker<nat>, lo: nat, hi: nat) {
    forall i | i in t.ops && i !in r.ops :: t.ops[i].need <= t.ops[i].count + I.InRange(i, lo, hi)
  }

  lemma SpansTwice(t: I.Tracker<nat>, n: nat, m: I.Tracker<nat>, n1: nat, r: I.Tracker<nat>, n2: nat)
    requires Spans(t, n, m, n1) && Spans(m, n1, r, n2)
    ensures Spans(t, n, r, n2)
  {
    forall k | |t.committed| <= k < |r.committed|
      ensures r.committed[k] == Handed(t, n) + 1 + k - |t.committed|
    {
      if k < |m.committed| {
        assert r.committed[k] == m.committed[k];
      }
    }
  }

  /** The NOTIFY loop hands out the next indexes in order, each with its quorum, and stops only where the
      next one has none. */
  lemma {:induction false} NotifyFrontier(t: I.Tracker<nat>, n: nat)
    requires TrackerOk(t, n) && t.minCommit > 0 && t.ops[t.minCommit].IsCommitted()
    ensures Settled(I.Notify(t)) && Spans(t, n, I.Notify(t), n) && LeftWithQuorum(t, I.Notify(t), 1, 0)
    decreases t.maxCommit - t.minCommit
  {
    var p := I.Pop(t);
    PopFrontier(t, n);
    if p.minCommit != 0 && p.ops[p.minCommit].IsCommitted() {
      NotifyFrontier(p, n);
      SpansTwice(t, n, p, n, I.Notify(p), n);
    }
  }

  lemma PopFrontier(t: I.Tracker<nat>, n: nat)
    requires TrackerOk(t, n) && t.minCommit > 0
    ensures TrackerOk(I.Pop(t), n) && Spans(t, n, I.Pop(t), n)
    ensures forall i | i in t.ops && i != t.minCommit :: i in I.Pop(t).ops && I.Pop(t).ops[i] == t.ops[i]
  {
  }

  lemma CommitFrontier(t: I.Tracker<nat>, n: nat, index: nat)
    requires TrackerOk(t, n) && Settled(t)
    ensures Settled(I.Commit(t, index)) && Spans(t, n, I.Commit(t, index), n)
    ensures LeftWithQuorum(t, I.Commit(t, index), index, index)
  {
    if index in t.ops {
      var v := I.AddVote(t, index);
      if v.ops[index].IsCommitted() && index == v.minCommit {
        NotifyFrontier(v, n);
      }
    }
  }

  /** So does a committed range, with one vote more for each of its indexes. */
  lemma {:induction false} CommitEachFrontier(t: I.Tracker<nat>, n: nat, lo: nat, hi: nat)
    requires TrackerOk(t, n) && Settled(t)
    ensures var r := I.CommitEach(t, lo, hi); Settled(r) && Spans(t, n, r, n) && LeftWithQuorum(t, r, lo, hi)
    decreases hi + 1 - lo
  {
    if lo <= hi {
      var m, r := I.Commit(t, lo), I.CommitEach(t, lo, hi);
      CommitFrontier(t, n, lo);
      CommitTracker(t, n, lo);
      I.CommitCounts(t, lo);
      CommitEachFrontier(m, n, lo + 1, hi);
      SpansTwice(t, n, m, n, r, n);
      LeftTwice(t, m, r, lo, hi);
    }
  }

  lemma LeftTwice(t: I.Tracker<nat>, m: I.Tracker<nat>, r: I.Tracker<nat>, lo: nat, hi: nat)
    requires lo <= hi && LeftWithQuorum(t, m, lo, lo) && LeftWithQuorum(m, r, lo + 1, hi) && I.Counts(t, m, lo, lo)
    ensures LeftWithQuorum(t, r, lo, hi)
  {
    forall i | i in t.ops && i !in r.ops
      ensures t.ops[i].need <= t.ops[i].count + I.InRange(i, lo, hi)
    {
      if i in m.ops {
        assert m.ops[i] == t.ops[i].(count := t.ops[i].count + I.InRange(i, lo, lo));
      }
    }
  }

  // ---------------------------------------------------------------------------
  // Starting entries

  /** A new entry is tracked with the leader's vote, or leaves at once if that is its quorum. */
  ghost predicate Started(t: I.Tracker<nat>, r: I.Tracker<nat>, first: nat, count: nat, need: nat) {
    && (forall i | i in t.ops && i !in r.ops :: t.ops[i].need <= t.ops[i].count)
    && (forall i | first <= i < first + count && i !in r.ops :: need <= 1)
  }

  lemma StartFrontier(t: I.Tracker<nat>, n: nat, need: nat)
    requires TrackerOk(t, n) && Settled(t) && need > 0 && I.CanStart(t, n + 1)
    ensures Advanced(t, n, I.Start(t, n + 1, n + 1, need), 1, need)
  {
    var s := I.Track(t, n + 1, n + 1, need);
    assert TrackerOk(s, n + 1) && Settled(s) && Spans(t, n, s, n + 1);
    CommitFrontier(s, n + 1, n + 1);
    SpansTwice(t, n, s, n + 1, I.Start(t, n + 1, n + 1, need), n + 1);
    StartedFrom(t, s, I.Start(t, n + 1, n + 1, need), n, need);
  }

  lemma StartedFrom(t: I.Tracker<nat>, s: I.Tracker<nat>, r: I.Tracker<nat>, n: nat, need: nat)
    requires I.Valid(t) && I.CanStart(t, n + 1) && s == I.Track(t, n + 1, n + 1, need)
    requires (forall i | i in t.ops :: i <= n) && LeftWithQuorum(s, r, n + 1, n + 1)
    ensures Started(t, r, n + 1, 1, need)
  {
    forall i | i in t.ops && i !in r.ops
      ensures t.ops[i].need <= t.ops[i].count
    {
      assert s.ops[i] == t.ops[i];
    }
  }

  /** What starting the next `count` entries makes of the tracker of a log of length `n`. */
  ghost predicate Advanced(t: I.Tracker<nat>, n: nat, r: I.Tracker<nat>, count: nat, need: nat) {
    Settled(r) && Spans(t, n, r, n + count) && Started(t, r, n + 1, count, need)
  }

  lemma {:induction false} StartRangeFrontier(t: I.Tracker<nat>, n: nat, count: nat, need: nat)
    requires TrackerOk(t, n) && Settled(t) && need > 0
    ensures I.CanStart(t, n + 1) && Advanced(t, n, StartRange(t, n + 1, count, need), count, need)
    decreases count
  {
    StartTracker(t, n, need);
    if count > 0 {
      var s := I.Start(t, n + 1, n + 1, need);
      StartFrontier(t, n, need);
      StartRangeFrontier(s, n + 1, count - 1, need);
      AdvancedTwice(t, s, StartRange(s, n + 2, count - 1, need), n, count, need);
    }
  }

  lemma AdvancedTwice(t: I.Tracker<nat>, s: I.Tracker<nat>, r: I.Tracker<nat>, n: nat, count: nat, need: nat)
    requires TrackerOk(t, n) && I.CanStart(t, n + 1) && s == I.Start(t, n + 1, n + 1, need) && count > 0
    requires Advanced(t, n, s, 1, need) && Advanced(s, n + 1, r, count - 1, need)
    ensures Advanced(t, n, r, count, need)
  {
    SpansTwice(t, n, s, n + 1, r, n + count);
    StartCounts(t, n, need);
    StartedTwice(t, s, r, n, count, need);
  }

  /** What a start leaves of the entries: old ones as they were, the new one with one vote. */
  lemma StartCounts(t: I.Tracker<nat>, n: nat, need: nat)
    requires TrackerOk(t, n) && I.CanStart(t, n + 1)
    ensures var r := I.Start(t, n + 1, n + 1, need);
            && (forall i | i in r.ops && i != n + 1 :: i in t.ops && r.ops[i] == t.ops[i])
            && (n + 1 in r.ops ==> r.ops[n + 1] == I.Op(n + 1, 1, need))
  {
    I.CommitCounts(I.Track(t, n + 1, n + 1, need), n + 1);
  }

  lemma StartedTwice(t: I.Tracker<nat>, s: I.Tracker<nat>, r: I.Tracker<nat>, n: nat, count: nat, need: nat)
    requires count > 0 && (forall i | i in t.ops :: i <= n)
    requires Started(t, s, n + 1, 1, need) && Started(s, r, n + 2, count - 1, need)
    requires forall i | i in s.ops && i != n + 1 :: i in t.ops && s.ops[i] == t.ops[i]
    requires n + 1 in s.ops ==> s.ops[n + 1] == I.Op(n + 1, 1, need)
    ensures Started(t, r, n + 1, count, need)
  {
    forall i | i in t.ops && i !in r.ops
      ensures t.ops[i].need <= t.ops[i].count
    {
      if i in s.ops {
        assert s.ops[i] == t.ops[i];
      }
    }
  }
}
