/** What the handlers of a node keep: the shape of its tracker and of its replicators. */
module NodeFacts {
  import opened Node
  import opened Cluster
  import I = Inflight

  lemma CommitTracker(t: I.Tracker<nat>, n: nat, index: nat)
    requires TrackerOk(t, n)
    ensures TrackerOk(I.Commit(t, index), n)
  {
    var r := I.Commit(t, index);
    I.CommitCounts(t, index);
    CommitMax(t, index);
    forall k | 0 <= k < |r.committed|
      ensures 0 < r.committed[k] <= n
    {
      if k < |t.committed| {
        assert r.committed[k] == t.committed[k];
      } else {
        assert I.Earned(t, r.committed[k], index, index);
      }
    }
  }

  lemma {:induction false} CommitEachTracker(t: I.Tracker<nat>, n: nat, lo: nat, hi: nat)
    requires TrackerOk(t, n)
    ensures TrackerOk(I.CommitEach(t, lo, hi), n)
    decreases hi + 1 - lo
  {
    if lo <= hi {
      CommitTracker(t, n, lo);
      CommitEachTracker(I.Commit(t, lo), n, lo + 1, hi);
    }
  }

  lemma StartTracker(t: I.Tracker<nat>, n: nat, need: nat)
    requires TrackerOk(t, n)
    ensures I.CanStart(t, n + 1)
    ensures TrackerOk(I.Start(t, n + 1, n + 1, need), n + 1)
  {
    var s := I.Track(t, n + 1, n + 1, need);
    assert TrackerOk(s, n + 1);
    CommitTracker(s, n + 1, n + 1);
  }

  lemma {:induction false} StartRangeTracker(t: I.Tracker<nat>, n: nat, count: nat, need: nat)
    requires TrackerOk(t, n)
    ensures I.CanStart(t, n + 1)
    ensures TrackerOk(StartRange(t, n + 1, count, need), n + count)
    decreases count
  {
    StartTracker(t, n, need);
    if count > 0 {
      StartRangeTracker(I.Start(t, n + 1, n + 1, need), n + 1, count - 1, need);
    }
  }

  /** Applying committed entries changes nothing but the commit index and the applied entries. */
  lemma {:induction false} CommitListQuiet(s: State, list: seq<nat>)
    requires forall k | 0 <= k < |list| :: list[k] <= |s.log|
    ensures var t := CommitList(s, list); t == s.(commit := t.commit, applied := t.applied)
    decreases |list|
  {
    if list != [] {
      CommitListQuiet(ProcessLogs(s.(commit := list[0]), list[0]), list[1..]);
    }
  }

  /** A reply the leader can act on: it concerns a stretch of the leader's own log. */
  ghost predicate ReplyFits(s: State, resp: AppendResp) {
    resp.req.prev + |resp.req.entries| <= |s.log|
  }

  lemma ReplyKeepsOk(ids: set<Id>, n: Id, s: State, resp: AppendResp)
    requires NodeOk(ids, n, s) && s.role == Leader && resp.req.to in s.repl && ReplyFits(s, resp)
    ensures NodeOk(ids, n, HandleReply(s, resp))
  {
    ReplyTracker(s, resp);
    assert ReplicatorsOk(ids, n, HandleReply(s, resp));
  }

  lemma ReplyTracker(s: State, resp: AppendResp)
    requires Ok(s) && resp.req.to in s.repl && s.repl[resp.req.to].next >= 1
    ensures TrackerOk(HandleReply(s, resp).inflight, |s.log|)
  {
    var end := resp.req.prev + |resp.req.entries|;
    assert TrackerOk(s.inflight, |s.log|);
    I.CommitRangeIsCommitEach(s.inflight, resp.req.prev + 1, end);
    CommitEachTracker(s.inflight, |s.log|, resp.req.prev + 1, end);
  }

  lemma DispatchKeepsOk(ids: set<Id>, n: Id, s: State, cmds: seq<(LogType, string)>)
    requires NodeOk(ids, n, s) && s.role == Leader
    ensures NodeOk(ids, n, Dispatch(s, cmds, |ids|))
  {
    StartRangeTracker(s.inflight, |s.log|, |cmds|, Majority(|ids|));
  }

  lemma CommitKeepsOk(ids: set<Id>, n: Id, s: State)
    requires NodeOk(ids, n, s) && s.role == Leader
    ensures NodeOk(ids, n, ApplyCommitted(s))
  {
    CommitListQuiet(s.(inflight := s.inflight.(committed := [])), s.inflight.committed);
  }

  /** Every step keeps the node it happens at well formed. */
  lemma StepKeepsNodeOk(c: Cluster, l: Label)
    requires Enabled(c, l)
    requires l.RecvReply? ==> ReplyFits(c.nodes[l.n], l.aresp)
    ensures NodeOk(c.ids, l.n, NodeAfter(c, l))
  {
    var s := c.nodes[l.n];
    if l.DoDispatch? {
      DispatchKeepsOk(c.ids, l.n, s, l.cmds);
    } else if l.RecvReply? {
      ReplyKeepsOk(c.ids, l.n, s, l.aresp);
    } else if l.Commit? {
      CommitKeepsOk(c.ids, l.n, s);
    } else if l.SendAppend? {
      assert NodeOk(c.ids, l.n, NodeAfter(c, l));
    } else if l.RecvVoteResp? || l.StartElection? || l.RecvVoteReq? {
      VotingKeepsOk(c, l);
    } else if l.RecvAppend? || l.RecvHeartbeat? {
      AppendKeepsOk(c.ids, l.n, s, l.areq);
    } else {
      SimpleKeepsOk(c, l);
    }
  }

  lemma VotingKeepsOk(c: Cluster, l: Label)
    requires Enabled(c, l) && (l.RecvVoteResp? || l.StartElection? || l.RecvVoteReq?)
    ensures NodeOk(c.ids, l.n, NodeAfter(c, l))
  {
  }

  lemma AppendKeepsOk(ids: set<Id>, n: Id, s: State, req: AppendReq)
    requires NodeOk(ids, n, s)
    ensures NodeOk(ids, n, AppendEntries(s, req))
  {
  }

  lemma SimpleKeepsOk(c: Cluster, l: Label)
    requires Enabled(c, l) && !l.RecvAppend? && !l.RecvHeartbeat?
    requires !l.DoDispatch? && !l.RecvReply? && !l.Commit? && !l.SendAppend?
    requires !l.RecvVoteResp? && !l.StartElection? && !l.RecvVoteReq?
    ensures NodeOk(c.ids, l.n, NodeAfter(c, l))
  {
  }
}
