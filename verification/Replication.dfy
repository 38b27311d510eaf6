/**
  One leader's replicator and one follower, in lock-step runs (replicateTo, setupAppendEntries,
  updateLastAppended, appendEntries): a delivered request never takes away what the follower
  already shares with the leader, and the ranges passed to CommitRange never overlap.

  Everything here is about one pair of a leader's term and a follower, seen through `Pair`.
 */
module Replication {
  import opened Basics
  import opened Node
  import opened Cluster
  import opened LogMatching

  datatype Pair = Pair(
    term: nat, log: Log, start: nat, maxAppend: nat,     // the leader's term, its log then, its length at the election
    fterm: nat, flog: Log, acked: nat,                   // the follower
    slot: Slot, ranges: seq<(nat, nat)>,
    leading: bool, rep: Replicator)                      // the replicator, while its node leads

  /** The two logs do not agree beyond position `n`. */
  ghost predicate NoLonger(a: Log, b: Log, n: int) {
    forall i: nat :: Agree(a, b, i) ==> i <= n
  }

  /** The last index of the next request. */
  function Bound(rep: Replicator, maxAppend: nat): int {
    if rep.next - 1 + maxAppend <= rep.last then rep.next - 1 + maxAppend else rep.last
  }

  function End(req: AppendReq): nat {
    req.prev + |req.entries|
  }

  ghost predicate Sorted(ranges: seq<(nat, nat)>) {
    && (forall i | 0 <= i < |ranges| :: ranges[i].0 <= ranges[i].1)
    && (forall i, j | 0 <= i < j < |ranges| :: ranges[i].1 < ranges[j].0)
  }

  ghost predicate FollowerOk(k: Pair) {
    && k.start <= |k.log| && k.acked <= |k.log| && k.maxAppend >= 1
    && (k.acked > 0 ==> k.fterm >= k.term)
    && (k.fterm == k.term ==> Agree(k.flog, k.log, k.acked))
  }

  ghost predicate SlotOk(k: Pair) {
    match k.slot
    case Idle => true
    case Pending(req) =>
      && req.term == k.term && End(req) <= |k.log|
      && (k.fterm < k.term ==> req.prev == k.start)
      && (k.fterm == k.term ==> NoLonger(k.flog, k.log, End(req)))
    case Replied(resp) =>
      && resp.req.term == k.term && k.fterm >= k.term
      && End(resp.req) <= |k.log|
      && (resp.success ==> k.acked >= End(resp.req) && resp.term <= k.term)
      && (!resp.success && resp.term <= k.term ==>
            && resp.req.prev > 0
            && (k.fterm == k.term ==> NoLonger(k.flog, k.log, Min(resp.req.prev - 1, resp.lastLog))))
  }

  ghost predicate LeaderSideOk(k: Pair) {
    k.leading ==>
      && 1 <= k.rep.next <= k.rep.last + 1 && k.start <= k.rep.last <= |k.log|
      && (k.fterm < k.term ==> k.rep.next == k.start + 1)
      && (k.fterm == k.term ==> NoLonger(k.flog, k.log, Bound(k.rep, k.maxAppend)))
      && (k.ranges == [] ==> k.rep.next <= k.start + 1)
      && (k.ranges != [] ==> k.acked >= k.rep.next - 1 >= 1 && k.ranges[|k.ranges| - 1].1 == k.rep.next - 1)
      && (k.slot.Pending? ==> k.slot.req.prev == k.rep.next - 1 && End(k.slot.req) == Bound(k.rep, k.maxAppend))
      && (k.slot.Replied? ==>
            k.slot.resp.req.prev == k.rep.next - 1 && End(k.slot.resp.req) == Bound(k.rep, k.maxAppend))
      && (k.slot.Replied? && !k.slot.resp.success && k.slot.resp.term <= k.term ==> k.ranges == [])
  }

  ghost predicate PairOk(k: Pair) {
    FollowerOk(k) && SlotOk(k) && LeaderSideOk(k) && Sorted(k.ranges)
  }

  /** Facts about the two logs that hold in every run. */
  ghost predicate PairLogs(k: Pair) {
    && k.start <= |k.log|
    && (forall i | k.start <= i < |k.log| :: k.log[i].term == k.term)
    && (forall i | 0 <= i < |k.flog| :: k.flog[i].term <= k.fterm)
    && (forall i | 0 <= i < |k.flog| && k.flog[i].term == k.term :: Agree(k.flog, k.log, i + 1))
  }

  lemma AgreeAt(a: Log, b: Log, n: nat, i: nat)
    requires Agree(a, b, n) && i < n
    ensures a[i] == b[i]
  {
  }

  // ---------------------------------------------------------------------------
  // What can happen to a pair

  /** A follower in an older term shares at most the log from before the election. */
  lemma OldTermShares(k: Pair)
    requires PairLogs(k) && k.fterm < k.term
    ensures NoLonger(k.flog, k.log, k.start)
  {
    forall i: nat | Agree(k.flog, k.log, i)
      ensures i <= k.start
    {
      if i > k.start {
        AgreeAt(k.flog, k.log, i, k.start);
      }
    }
  }

  lemma NoLongerWeaken(a: Log, b: Log, n: int, m: int)
    requires NoLonger(a, b, n) && n <= m
    ensures NoLonger(a, b, m)
  {
  }

  /** The follower's term may grow and the leader may stop leading; nothing else changes. */
  ghost predicate SameView(k: Pair, k': Pair) {
    && k.fterm <= k'.fterm
    && k' == k.(fterm := k'.fterm, leading := k'.leading, rep := k'.rep)
    && (k'.leading ==> k.leading && k'.rep == k.rep)
  }

  /** The follower moves to a later term, or stops being led; its log stays. */
  lemma PairTermUp(k: Pair, k': Pair)
    requires PairOk(k) && PairLogs(k) && SameView(k, k')
    ensures PairOk(k')
  {
    if k.fterm < k.term == k'.fterm {
      OldTermShares(k);
      if k.slot.Pending? {
        NoLongerWeaken(k.flog, k.log, k.start, End(k.slot.req));
      }
      if k.leading {
        NoLongerWeaken(k.flog, k.log, k.start, Bound(k.rep, k.maxAppend));
      }
    }
  }

  /** The follower follows someone else, in a term other than this one. */
  lemma PairElsewhere(k: Pair, k': Pair)
    requires PairOk(k) && k.fterm <= k'.fterm && k'.fterm != k.term
    requires k' == k.(fterm := k'.fterm, flog := k'.flog)
    ensures PairOk(k')
  {
  }

  /** A leader's new entries are on no other log. */
  lemma NewEntriesUnshared(k: Pair, es: Log, n: int)
    requires PairLogs(k) && (forall i | 0 <= i < |es| :: es[i].term == k.term) && NoLonger(k.flog, k.log, n)
    ensures NoLonger(k.flog, k.log + es, n)
  {
    forall i: nat | Agree(k.flog, k.log + es, i)
      ensures i <= n
    {
      if i > |k.log| {
        AgreeAt(k.flog, k.log + es, i, |k.log|);
      }
      assert Agree(k.flog, k.log, i);
    }
  }

  lemma PairDispatch(k: Pair, es: Log)
    requires PairOk(k) && PairLogs(k) && forall i | 0 <= i < |es| :: es[i].term == k.term
    ensures PairOk(k.(log := k.log + es))
  {
    if k.fterm == k.term {
      match k.slot {
        case Idle =>
        case Pending(req) => NewEntriesUnshared(k, es, End(req));
        case Replied(resp) =>
          if !resp.success && resp.term <= k.term {
            NewEntriesUnshared(k, es, Min(resp.req.prev - 1, resp.lastLog));
          }
      }
      if k.leading {
        NewEntriesUnshared(k, es, Bound(k.rep, k.maxAppend));
      }
    }
  }

  /** The replicator sends its next request. */
  lemma PairSend(k: Pair, last: nat, req: AppendReq)
    requires PairOk(k) && k.leading && k.rep.last <= last <= |k.log|
    requires req.term == k.term && req.prev == k.rep.next - 1 && End(req) == Bound(k.rep.(last := last), k.maxAppend)
    ensures PairOk(k.(slot := Pending(req), rep := k.rep.(last := last)))
  {
    if k.fterm == k.term {
      NoLongerWeaken(k.flog, k.log, Bound(k.rep, k.maxAppend), End(req));
    }
  }

  /** The follower handles the pending request. */
  ghost predicate Delivers(k: Pair, k': Pair, resp: AppendResp) {
    && k.slot.Pending? && resp.req == k.slot.req
    && k' == k.(slot := Replied(resp), fterm := k'.fterm, flog := k'.flog, acked := k'.acked)
    && resp.term == Max(k.fterm, k.term) && resp.lastLog == |k.flog|
  }

  /** A request of an older term is turned down. */
  lemma PairStale(k: Pair, k': Pair, resp: AppendResp)
    requires PairOk(k) && Delivers(k, k', resp) && !resp.success
    requires k.term < k.fterm && k'.fterm == k.fterm && k'.flog == k.flog && k'.acked == k.acked
    ensures PairOk(k')
  {
  }

  /** The follower lacks the previous entry, or has another one there. */
  lemma PairRejected(k: Pair, k': Pair, resp: AppendResp)
    requires PairOk(k) && Delivers(k, k', resp) && !resp.success
    requires k.fterm <= k.term == k'.fterm && k'.flog == k.flog && k'.acked == k.acked
    requires 0 < resp.req.prev <= |k.log|
    requires !(resp.req.prev <= |k.flog| && k.flog[resp.req.prev - 1].term == k.log[resp.req.prev - 1].term)
    ensures PairOk(k')
  {
    var prev := resp.req.prev;
    forall i: nat | Agree(k.flog, k.log, i)
      ensures i <= Min(prev - 1, |k.flog|)
    {
      if i >= prev {
        assert false;
      }
    }
    if k.leading {
      NoLongerWeaken(k.flog, k.log, Min(prev - 1, |k.flog|), Bound(k.rep, k.maxAppend));
      if k.ranges != [] {
        assert false;
      }
    }
  }

  /** The request is accepted: what the two logs share does not shrink. */
  lemma PairAccepted(k: Pair, k': Pair, resp: AppendResp)
    requires PairOk(k) && PairLogs(k) && Delivers(k, k', resp) && resp.success
    requires k.fterm <= k.term == k'.fterm && k'.acked == Max(k.acked, End(resp.req))
    requires Agree(k.flog, k.log, resp.req.prev)
    requires k'.flog == if resp.req.entries == [] then k.flog else k.log[..End(resp.req)]
    ensures PairOk(k')
    ensures forall i: nat | Agree(k.flog, k.log, i) :: Agree(k'.flog, k.log, i)
  {
    if k.fterm < k.term {
      OldTermShares(k);
      NoLongerWeaken(k.flog, k.log, k.start, End(resp.req));
    }
    if k.leading {
      assert End(resp.req) == Bound(k.rep, k.maxAppend);
    }
    assert NoLonger(k'.flog, k.log, End(resp.req));
  }

  /** The replicator handles the reply. */
  lemma PairReplySuccess(k: Pair, resp: AppendResp)
    requires PairOk(k) && k.leading && k.slot == Replied(resp) && resp.success && resp.req.entries != []
    ensures PairOk(k.(slot := Idle, rep := k.rep.(match' := End(resp.req), next := End(resp.req) + 1),
                      ranges := k.ranges + [(resp.req.prev + 1, End(resp.req))]))
  {
    var rep' := k.rep.(match' := End(resp.req), next := End(resp.req) + 1);
    if k.fterm == k.term {
      NoLongerWeaken(k.flog, k.log, Bound(k.rep, k.maxAppend), Bound(rep', k.maxAppend));
    }
  }

  lemma PairReplyFailure(k: Pair, resp: AppendResp)
    requires PairOk(k) && k.leading && k.slot == Replied(resp) && !resp.success && resp.term <= k.term
    ensures var next := Max(Min(k.rep.next - 1, resp.lastLog + 1), 1);
            PairOk(k.(slot := Idle, rep := k.rep.(next := next, match' := next - 1)))
  {
    var next := Max(Min(k.rep.next - 1, resp.lastLog + 1), 1);
    var rep' := k.rep.(next := next, match' := next - 1);
    assert next - 1 == Min(resp.req.prev - 1, resp.lastLog);
    if k.fterm == k.term {
      NoLongerWeaken(k.flog, k.log, Min(resp.req.prev - 1, resp.lastLog), Bound(rep', k.maxAppend));
    }
  }

  /** A reply that only ends the RPC: an empty request, or a newer term. */
  lemma PairReplyOther(k: Pair, stopped: bool)
    requires PairOk(k) && k.leading
    ensures PairOk(k.(slot := Idle, rep := k.rep.(stopped := stopped)))
  {
  }

  /** The first reply of an election: nothing has been sent. */
  lemma PairElected(k: Pair)
    requires k.leading && k.rep == Replicator(|k.log| + 1, 0, |k.log|, false)
    requires k.start == |k.log| && k.acked == 0 && k.slot == Idle && k.ranges == [] && k.maxAppend >= 1
    ensures PairOk(k)
  {
  }
}
