/**
  What gets committed and applied (leaderLoop, appendEntries, processLogs): every commit index lies
  within a prefix that a majority has stored, and what a node applies is that prefix.
 */
module Commitment {
  import opened Node
  import opened Cluster
  import opened NodeFacts
  import opened Election
  import opened LogMatching
  import opened Replication
  import opened LockStep
  import opened LeaderCompleteness
  import opened ReplicaCount

  /** The first `k` entries of `log` are entries that a leader of a term up to `term` got stored by a majority. */
  ghost predicate Justified(c: Cluster, term: nat, log: Log, k: nat) {
    k == 0 || exists t: nat, index: nat :: JustifiedBy(c, term, log, k, t, index)
  }

  ghost predicate JustifiedBy(c: Cluster, term: nat, log: Log, k: nat, t: nat, index: nat) {
    Chosen(c, t, index) && t <= term && k <= index && Agree(log, c.h.logs[t], k)
  }

  ghost predicate AppliedOk(s: State) {
    |s.applied| <= |s.log| && s.applied == s.log[..|s.applied|]
  }

  ghost predicate NodeCommitOk(c: Cluster, s: State) {
    && Justified(c, s.term, s.log, s.commit)
    && AppliedOk(s)
    && Justified(c, s.term, s.log, |s.applied|)
  }

  ghost predicate PendingOk(c: Cluster, t: nat, f: Id) {
    SlotOf(c, t, f).Pending? ==>
      && t in c.h.logs
      && Justified(c, t, c.h.logs[t], SlotOf(c, t, f).req.commit)
      && (SlotOf(c, t, f).req.entries == [] ==> SlotOf(c, t, f).req.commit <= SlotOf(c, t, f).req.prev)
  }

  ghost predicate LeaderCommitOk(c: Cluster, n: Id)
    requires n in c.nodes
  {
    c.nodes[n].role == Leader ==>
      && c.nodes[n].term in c.h.start
      && CountsMatch(c.nodes[n].inflight, n, c.nodes[n].repl, c.h.start[c.nodes[n].term], Majority(|c.ids|))
      && QueueOk(c, c.nodes[n].term, c.nodes[n].inflight.committed)
  }

  ghost predicate QueueOk(c: Cluster, t: nat, list: seq<nat>) {
    forall k | 0 <= k < |list| :: Chosen(c, t, list[k])
  }

  ghost predicate CommitInv(c: Cluster) {
    && (forall n | n in c.nodes :: NodeCommitOk(c, c.nodes[n]))
    && (forall t, f :: PendingOk(c, t, f))
    && (forall n | n in c.nodes :: LeaderCommitOk(c, n))
  }

  lemma CommitInit(c: Cluster)
    requires Init(c)
    ensures CommitInv(c)
  {
  }

  // ---------------------------------------------------------------------------
  // What is chosen stays chosen

  lemma AckGrows(c: Cluster, l: Label, t: nat, v: Id)
    requires ElectionInv(c) && LogInv(c) && LockInv(c) && Enabled(c, l)
    ensures Acked(HistoryAfter(c, l), t, v) >= Acked(c.h, t, v)
  {
    if Winning(c, l) {
      WinIsNew(c, l.n, l.vresp);
      assert (c.nodes[l.n].term, l.n) !in c.h.acked;
    } else if l.DoDispatch? {
      LeadingLog(c, l.n);
      assert Acked(c.h, c.nodes[l.n].term, l.n) == |c.nodes[l.n].log|;
    }
    AckNeverShrinks(c, l, t, v);
  }

  lemma AckNeverShrinks(c: Cluster, l: Label, t: nat, v: Id)
    requires Enabled(c, l)
    requires Winning(c, l) ==> (c.nodes[l.n].term, l.n) !in c.h.acked
    requires l.DoDispatch? ==> Acked(c.h, c.nodes[l.n].term, l.n) == |c.nodes[l.n].log|
    ensures Acked(HistoryAfter(c, l), t, v) >= Acked(c.h, t, v)
  {
  }

  lemma ChosenStays(c: Cluster, l: Label, t: nat, index: nat)
    requires ElectionInv(c) && LogInv(c) && LockInv(c) && Enabled(c, l) && Chosen(c, t, index)
    requires Grows(c.h, HistoryAfter(c, l))
    ensures Chosen(Apply(c, l), t, index)
  {
    forall v | v in Stored(c, t, index)
      ensures v in Stored(Apply(c, l), t, index)
    {
      AckGrows(c, l, t, v);
    }
    SubsetSize(Stored(c, t, index), Stored(Apply(c, l), t, index));
  }

  lemma JustifiedStays(c: Cluster, l: Label, term: nat, log: Log, k: nat, term': nat, log': Log)
    requires ElectionInv(c) && LogInv(c) && LockInv(c) && Enabled(c, l)
    requires Justified(c, term, log, k) && term <= term' && (k <= |log| ==> Agree(log, log', k))
    ensures Justified(Apply(c, l), term', log', k)
  {
    if k > 0 {
      var t: nat, index: nat :| JustifiedBy(c, term, log, k, t, index);
      HistoryStep(c, l);
      ChosenStays(c, l, t, index);
      JustifiedFrom(c, Apply(c, l), term, log, k, term', log', t, index);
    }
  }

  lemma JustifiedFrom(c: Cluster, c': Cluster, term: nat, log: Log, k: nat, term': nat, log': Log, t: nat, index: nat)
    requires JustifiedBy(c, term, log, k, t, index) && Chosen(c', t, index) && Grows(c.h, c'.h)
    requires term <= term' && (k <= |log| ==> Agree(log, log', k))
    ensures Justified(c', term', log', k)
  {
    assert JustifiedBy(c', term', log', k, t, index);
  }

  /** A justified prefix lies within the log. */
  lemma JustifiedWithin(c: Cluster, term: nat, log: Log, k: nat)
    requires Justified(c, term, log, k)
    ensures k <= |log|
  {
  }

  // ---------------------------------------------------------------------------
  // Nodes

  /** A node's commit index and applied entries stay, or start over, outside AppendEntries and the
      leader's commit. */
  lemma CommitUntouched(c: Cluster, l: Label)
    requires LogInv(c) && Enabled(c, l) && !l.RecvAppend? && !l.Commit?
    ensures CommitKept(c.nodes[l.n], NodeAfter(c, l))
  {
    if l.RecvHeartbeat? {
      assert BeatOk(c.ids, c.h, l.areq);
      BeatCommit(c.nodes[l.n], l.areq);
    } else {
      CommitKeptElsewhere(c, l);
    }
  }

  ghost predicate CommitKept(s: State, r: State) {
    (r.commit == s.commit && r.applied == s.applied) || (r.commit == 0 && r.applied == [])
  }

  lemma BeatCommit(s: State, req: AppendReq)
    requires req.commit == 0
    ensures CommitKept(s, AppendEntries(s, req))
  {
  }

  lemma CommitKeptElsewhere(c: Cluster, l: Label)
    requires Enabled(c, l) && !l.RecvAppend? && !l.RecvHeartbeat? && !l.Commit?
    ensures CommitKept(c.nodes[l.n], NodeAfter(c, l))
  {
  }

  lemma NodeCommitElsewhere(c: Cluster, l: Label, n: Id)
    requires Safe(c) && CommitInv(c) && Enabled(c, l) && n in c.nodes
    requires n == l.n ==> !l.RecvAppend? && !l.Commit?
    ensures NodeCommitOk(Apply(c, l), Apply(c, l).nodes[n])
  {
    assert NodeCommitOk(c, c.nodes[n]);
    QuietNode(c, l, n);
    NodeCommitMoves(c, l, n);
  }

  /** Nothing committed is lost. */
  ghost predicate NodeKept(s: State, r: State) {
    s.term <= r.term && Agree(s.log, r.log, |s.log|) && CommitKept(s, r)
  }

  lemma QuietNode(c: Cluster, l: Label, n: Id)
    requires LogInv(c) && Enabled(c, l) && n in c.nodes && (n == l.n ==> !l.RecvAppend? && !l.Commit?)
    ensures NodeKept(c.nodes[n], Apply(c, l).nodes[n])
  {
    LogGrowsAt(c, l, n);
    if n == l.n {
      TermForward(c, l);
      CommitUntouched(c, l);
    }
  }

  lemma NodeCommitMoves(c: Cluster, l: Label, n: Id)
    requires ElectionInv(c) && LogInv(c) && LockInv(c) && Enabled(c, l) && n in c.nodes
    requires NodeCommitOk(c, c.nodes[n])
    requires NodeKept(c.nodes[n], Apply(c, l).nodes[n])
    ensures NodeCommitOk(Apply(c, l), Apply(c, l).nodes[n])
  {
    var s, r := c.nodes[n], Apply(c, l).nodes[n];
    JustifiedWithin(c, s.term, s.log, s.commit);
    JustifiedStays(c, l, s.term, s.log, s.commit, r.term, r.log);
    JustifiedStays(c, l, s.term, s.log, |s.applied|, r.term, r.log);
    NodeCommitFrom(Apply(c, l), s, r);
  }

  lemma NodeCommitFrom(c: Cluster, s: State, r: State)
    requires AppliedOk(s) && Agree(s.log, r.log, |s.log|) && CommitKept(s, r)
    requires Justified(c, r.term, r.log, s.commit) && Justified(c, r.term, r.log, |s.applied|)
    ensures NodeCommitOk(c, r)
  {
  }

  lemma {:induction false} CommitListOk(c: Cluster, s: State, list: seq<nat>)
    requires QueueOk(c, s.term, list) && s.term in c.h.logs && s.log == c.h.logs[s.term]
    requires forall k | 0 <= k < |list| :: list[k] <= |s.log|
    requires NodeCommitOk(c, s)
    ensures NodeCommitOk(c, CommitList(s, list))
    decreases |list|
  {
    if list != [] {
      var x := list[0];
      var r := ProcessLogs(s.(commit := x), x);
      assert JustifiedBy(c, s.term, s.log, x, s.term, x);
      assert NodeCommitOk(c, r);
      CommitListOk(c, r, list[1..]);
    }
  }

  /** The leader commits what its tracker handed out. */
  lemma LeaderCommits(c: Cluster, l: Label)
    requires Safe(c) && CommitInv(c) && Enabled(c, l) && l.Commit?
    ensures NodeCommitOk(Apply(c, l), NodeAfter(c, l))
  {
    LeadingLog(c, l.n);
    assert LeaderCommitOk(c, l.n) && NodeCommitOk(c, c.nodes[l.n]);
    CommitsList(c, c.nodes[l.n]);
    NodeCommitStays(c, l, NodeAfter(c, l));
  }

  lemma CommitsList(c: Cluster, s: State)
    requires Ok(s) && NodeCommitOk(c, s) && s.term in c.h.logs && s.log == c.h.logs[s.term]
    requires QueueOk(c, s.term, s.inflight.committed)
    ensures NodeCommitOk(c, ApplyCommitted(s))
  {
    CommitListOk(c, s.(inflight := s.inflight.(committed := [])), s.inflight.committed);
  }

  // ---------------------------------------------------------------------------
  // Followers

  /** What a node has committed, the leader of a later or the same term has too. */
  lemma CommittedInLeader(c: Cluster, s: State, k: nat, u: nat)
    requires Safe(c) && Justified(c, s.term, s.log, k) && s.term <= u && u in c.h.leaders && u in c.h.logs
    ensures Agree(s.log, c.h.logs[u], k)
  {
    if k > 0 {
      var t: nat, index: nat :| JustifiedBy(c, s.term, s.log, k, t, index);
      ChosenInLeader(c, t, index, u);
      AgreeThrough(s.log, c.h.logs[t], c.h.logs[u], k, index);
    }
  }

  lemma ChosenInLeader(c: Cluster, t: nat, index: nat, u: nat)
    requires Safe(c) && Chosen(c, t, index) && t <= u && u in c.h.leaders && u in c.h.logs
    ensures Agree(c.h.logs[t], c.h.logs[u], index)
  {
    if t < u {
      LaterLeadersHave(c, t, index, u);
    }
  }

  lemma AgreeThrough(a: Log, b: Log, d: Log, k: nat, n: nat)
    requires Agree(a, b, k) && Agree(b, d, n) && k <= n
    ensures Agree(a, d, k)
  {
  }

  /** A prefix of a leader's log that is justified for the leader is justified for whoever shares it. */
  lemma JustifiedShared(c: Cluster, u: nat, k: nat, j: nat, log: Log)
    requires u in c.h.logs && Justified(c, u, c.h.logs[u], k) && j <= k && Agree(log, c.h.logs[u], j)
    ensures Justified(c, u, log, j)
  {
    if j > 0 {
      var t: nat, index: nat :| JustifiedBy(c, u, c.h.logs[u], k, t, index);
      assert JustifiedBy(c, u, log, j, t, index);
    }
  }

  /** An accepted request never deletes an entry at or below the commit index, and the commit index
      the follower adopts lies within the prefix it shares with the leader. */
  lemma SafeTruncation(c: Cluster, n: Id, req: AppendReq)
    requires Safe(c) && CommitInv(c) && n in c.nodes && Enabled(c, RecvAppend(n, req)) && InOrder(c, RecvAppend(n, req))
    requires Accepts(c.nodes[n], req)
    ensures req.term in c.h.logs && Truncates(c.nodes[n], req, c.h.logs[req.term])
  {
    ReceiverPaired(c, RecvAppend(n, req));
    CommittedShared(c, n, req.term);
    assert PendingOk(c, req.term, n) && NodeLogOk(c.h, c.nodes[n]);
    FollowerDeliver(c, RecvAppend(n, req), req.term, n);
    AcceptedPair(c.ids, c.h, c.nodes[n], req);
    TruncatesFrom(c.nodes[n], req, c.h.logs[req.term]);
  }

  /** What handling `req` keeps and adopts, against the leader's log. */
  ghost predicate Truncates(s: State, req: AppendReq, log: Log) {
    var r := AppendEntries(s, req);
    && s.commit <= |s.log| && Agree(s.log, r.log, s.commit) && Agree(s.log, r.log, |s.applied|)
    && s.commit <= r.commit && Agree(r.log, log, r.commit)
  }

  lemma CommittedShared(c: Cluster, n: Id, u: nat)
    requires Safe(c) && CommitInv(c) && n in c.nodes && c.nodes[n].term <= u && u in c.h.leaders && u in c.h.logs
    ensures Agree(c.nodes[n].log, c.h.logs[u], c.nodes[n].commit)
    ensures Agree(c.nodes[n].log, c.h.logs[u], |c.nodes[n].applied|)
  {
    assert NodeCommitOk(c, c.nodes[n]);
    CommittedInLeader(c, c.nodes[n], c.nodes[n].commit, u);
    CommittedInLeader(c, c.nodes[n], |c.nodes[n].applied|, u);
  }

  lemma TruncatesFrom(s: State, req: AppendReq, log: Log)
    requires Accepts(s, req) && Agree(s.log, log, req.prev) && Agree(s.log, log, s.commit)
    requires Agree(s.log, log, |s.applied|)
    requires End(req) <= |log| && (req.entries == [] ==> req.commit <= req.prev)
    requires AppendEntries(s, req).log == if req.entries == [] then s.log else log[..End(req)]
    requires forall i: nat | Agree(s.log, log, i) :: Agree(AppendEntries(s, req).log, log, i)
    ensures Truncates(s, req, log)
  {
    assert Agree(AppendEntries(s, req).log, log, s.commit) && Agree(AppendEntries(s, req).log, log, |s.applied|);
    Adopted(s, req, log);
  }

  lemma Adopted(s: State, req: AppendReq, log: Log)
    requires Accepts(s, req) && Agree(s.log, log, req.prev) && Agree(s.log, log, s.commit) && End(req) <= |log|
    requires AppendEntries(s, req).log == if req.entries == [] then s.log else log[..End(req)]
    requires Agree(AppendEntries(s, req).log, log, s.commit)
    requires req.entries == [] ==> req.commit <= req.prev
    ensures s.commit <= AppendEntries(s, req).commit
    ensures Agree(AppendEntries(s, req).log, log, AppendEntries(s, req).commit)
    ensures AppendEntries(s, req).commit == s.commit || AppendEntries(s, req).commit <= req.commit
  {
  }

  /** What the follower applies is a prefix of its new log. */
  lemma AppliedAfter(s: State, req: AppendReq)
    requires Accepts(s, req) && AppliedOk(s) && Agree(s.log, AppendEntries(s, req).log, |s.applied|)
    ensures AppliedOk(AppendEntries(s, req))
    ensures var r := AppendEntries(s, req); |r.applied| == |s.applied| || |r.applied| == r.commit
    ensures AppendEntries(s, req).term == req.term
  {
  }

  lemma FollowerCommits(c: Cluster, l: Label)
    requires Safe(c) && CommitInv(c) && Enabled(c, l) && InOrder(c, l) && l.RecvAppend? && Accepts(c.nodes[l.n], l.areq)
    ensures NodeCommitOk(Apply(c, l), NodeAfter(c, l))
  {
    SafeTruncation(c, l.n, l.areq);
    assert NodeCommitOk(c, c.nodes[l.n]) && PendingOk(c, l.areq.term, l.n);
    FollowerCommitted(c, c.nodes[l.n], l.areq);
    NodeCommitStays(c, l, NodeAfter(c, l));
  }

  lemma FollowerCommitted(c: Cluster, s: State, req: AppendReq)
    requires Accepts(s, req) && req.term in c.h.logs && Truncates(s, req, c.h.logs[req.term]) && NodeCommitOk(c, s)
    requires Justified(c, req.term, c.h.logs[req.term], req.commit)
    ensures NodeCommitOk(c, AppendEntries(s, req))
  {
    AppliedAfter(s, req);
    FollowerJustified(c, s, AppendEntries(s, req), req);
  }

  /** What is committed stays committed after any step. */
  lemma NodeCommitStays(c: Cluster, l: Label, s: State)
    requires ElectionInv(c) && LogInv(c) && LockInv(c) && Enabled(c, l) && NodeCommitOk(c, s)
    ensures NodeCommitOk(Apply(c, l), s)
  {
    JustifiedWithin(c, s.term, s.log, s.commit);
    JustifiedStays(c, l, s.term, s.log, s.commit, s.term, s.log);
    JustifiedStays(c, l, s.term, s.log, |s.applied|, s.term, s.log);
  }

  lemma FollowerJustified(c: Cluster, s: State, r: State, req: AppendReq)
    requires NodeCommitOk(c, s) && req.term in c.h.logs && Justified(c, req.term, c.h.logs[req.term], req.commit)
    requires r == AppendEntries(s, req) && r.term == req.term && s.term <= r.term
    requires Agree(s.log, r.log, s.commit) && Agree(s.log, r.log, |s.applied|)
    requires Agree(r.log, c.h.logs[req.term], r.commit)
    requires |r.applied| == |s.applied| || |r.applied| == r.commit
    ensures Justified(c, r.term, r.log, r.commit) && Justified(c, r.term, r.log, |r.applied|)
  {
    if r.commit == s.commit {
      JustifiedMoves(c, s.term, s.log, s.commit, r.term, r.log);
    } else {
      AdoptedBound(s, req);
      JustifiedShared(c, req.term, req.commit, r.commit, r.log);
    }
    JustifiedMoves(c, s.term, s.log, |s.applied|, r.term, r.log);
  }

  lemma AdoptedBound(s: State, req: AppendReq)
    requires AppendEntries(s, req).commit != s.commit
    ensures AppendEntries(s, req).commit <= req.commit
  {
  }

  lemma JustifiedMoves(c: Cluster, term: nat, log: Log, k: nat, term': nat, log': Log)
    requires Justified(c, term, log, k) && term <= term' && Agree(log, log', k)
    ensures Justified(c, term', log', k)
  {
    if k > 0 {
      var t: nat, index: nat :| JustifiedBy(c, term, log, k, t, index);
      assert JustifiedBy(c, term', log', k, t, index);
    }
  }

  // ---------------------------------------------------------------------------
  // Requests on their way

  /** An empty request comes from a replicator that read the whole log. */
  lemma EmptyRequest(s: State, n: Id, to: Id, last: nat, maxAppend: nat)
    requires to in s.repl && 1 <= s.repl[to].next <= |s.log| + 1 && last <= |s.log| && maxAppend >= 1
    requires s.repl[to].next <= last || last == |s.log|
    ensures MakeAppend(s, n, to, last, maxAppend).entries == [] ==>
          MakeAppend(s, n, to, last, maxAppend).prev == |s.log|
  {
  }

  /** The request that a leader builds carries a justified commit index. */
  ghost predicate SentOk(c: Cluster, l: Label)
    requires Enabled(c, l) && l.SendAppend?
  {
    var s, req := c.nodes[l.n], MakeAppend(c.nodes[l.n], l.n, l.to, l.last, c.maxAppend);
    && s.term in c.h.logs && s.log == c.h.logs[s.term] && Justified(c, s.term, s.log, req.commit)
    && (req.entries == [] ==> req.commit <= req.prev)
  }

  lemma SentPending(c: Cluster, l: Label)
    requires Safe(c) && CommitInv(c) && Enabled(c, l) && l.SendAppend?
    ensures SentOk(c, l)
  {
    var s := c.nodes[l.n];
    LeadingLog(c, l.n);
    assert NodeCommitOk(c, s);
    JustifiedWithin(c, s.term, s.log, s.commit);
    EmptyRequest(s, l.n, l.to, l.last, c.maxAppend);
  }

  lemma PendingStep(c: Cluster, l: Label, t: nat, f: Id)
    requires Safe(c) && CommitInv(c) && Enabled(c, l)
    ensures PendingOk(Apply(c, l), t, f)
  {
    if l.SendAppend? && (c.nodes[l.n].term, l.to) == (t, f) {
      SentPending(c, l);
      PendingSent(c, l);
    } else {
      assert PendingOk(c, t, f);
      PendingKept(c, l, t, f);
    }
  }

  lemma PendingSent(c: Cluster, l: Label)
    requires ElectionInv(c) && LogInv(c) && LockInv(c) && Enabled(c, l) && l.SendAppend? && SentOk(c, l)
    ensures PendingOk(Apply(c, l), c.nodes[l.n].term, l.to)
  {
    var t := c.nodes[l.n].term;
    HistoryStep(c, l);
    JustifiedStays(c, l, t, c.h.logs[t], c.nodes[l.n].commit, t, LogsAfter(c, l)[t]);
  }

  lemma PendingKept(c: Cluster, l: Label, t: nat, f: Id)
    requires ElectionInv(c) && LogInv(c) && LockInv(c) && Enabled(c, l) && PendingOk(c, t, f)
    requires !(l.SendAppend? && (c.nodes[l.n].term, l.to) == (t, f))
    ensures PendingOk(Apply(c, l), t, f)
  {
    SlotKept(c, l, t, f);
    if SlotOf(Apply(c, l), t, f).Pending? {
      HistoryStep(c, l);
      JustifiedStays(c, l, t, c.h.logs[t], SlotOf(c, t, f).req.commit, t, LogsAfter(c, l)[t]);
    }
  }

  lemma SlotKept(c: Cluster, l: Label, t: nat, f: Id)
    requires Enabled(c, l) && !(l.SendAppend? && (c.nodes[l.n].term, l.to) == (t, f))
    ensures SlotOf(Apply(c, l), t, f).Pending? ==> SlotOf(Apply(c, l), t, f) == SlotOf(c, t, f)
  {
  }

  // ---------------------------------------------------------------------------
  // The leader's count

  /** What a quorum of replicators confirmed, a majority of nodes stored. */
  lemma BackedIsChosen(c: Cluster, n: Id, x: nat)
    requires ElectionInv(c) && LogInv(c) && LockInv(c) && n in c.nodes && c.nodes[n].role == Leader
    requires c.nodes[n].term in c.h.start
    requires Backed(n, c.nodes[n].repl, c.h.start[c.nodes[n].term], Majority(|c.ids|), x) && x <= |c.nodes[n].log|
    ensures Chosen(c, c.nodes[n].term, x)
  {
    LeaderStored(c, n, x);
    AllStored(c, n, x);
    SubsetSize(Confirmed(n, c.nodes[n].repl, x), Stored(c, c.nodes[n].term, x));
  }

  lemma AllStored(c: Cluster, n: Id, x: nat)
    requires ElectionInv(c) && LogInv(c) && LockInv(c) && n in c.nodes && c.nodes[n].role == Leader
    requires c.nodes[n].term in c.h.start && c.h.start[c.nodes[n].term] < x && n in Stored(c, c.nodes[n].term, x)
    ensures Confirmed(n, c.nodes[n].repl, x) <= Stored(c, c.nodes[n].term, x)
  {
    forall p | p in c.nodes[n].repl
      ensures HasStored(c, c.nodes[n], p, x)
    {
      if x < c.nodes[n].repl[p].next {
        ConfirmedIsStored(c, n, p, x);
      }
    }
    StoredFrom(c, n, x);
  }

  ghost predicate HasStored(c: Cluster, s: State, p: Id, x: nat)
    requires p in s.repl
  {
    x < s.repl[p].next ==> p in c.ids && Acked(c.h, s.term, p) >= x
  }

  lemma StoredFrom(c: Cluster, n: Id, x: nat)
    requires n in c.nodes && n in Stored(c, c.nodes[n].term, x)
    requires forall p | p in c.nodes[n].repl :: HasStored(c, c.nodes[n], p, x)
    ensures Confirmed(n, c.nodes[n].repl, x) <= Stored(c, c.nodes[n].term, x)
  {
    forall p | p in Confirmed(n, c.nodes[n].repl, x)
      ensures p in Stored(c, c.nodes[n].term, x)
    {
      assert p == n || HasStored(c, c.nodes[n], p, x);
    }
  }

  lemma LeaderStored(c: Cluster, n: Id, x: nat)
    requires ElectionInv(c) && LogInv(c) && LockInv(c) && n in c.nodes && c.nodes[n].role == Leader
    requires c.nodes[n].term in c.h.start && c.h.start[c.nodes[n].term] < x <= |c.nodes[n].log|
    ensures OwnEntry(c.h, c.nodes[n].term, x) && n in Stored(c, c.nodes[n].term, x)
  {
    LeadingLog(c, n);
  }

  lemma ConfirmedIsStored(c: Cluster, n: Id, p: Id, x: nat)
    requires ElectionInv(c) && LogInv(c) && LockInv(c) && n in c.nodes && c.nodes[n].role == Leader
    requires c.nodes[n].term in c.h.start
    requires p in c.nodes[n].repl && c.h.start[c.nodes[n].term] < x < c.nodes[n].repl[p].next
    ensures p in c.ids && Acked(c.h, c.nodes[n].term, p) >= x
  {
    var t := c.nodes[n].term;
    LeadingLog(c, n);
    assert NodeOk(c.ids, n, c.nodes[n]);
    assert Paired(c, t, p);
    assert LeaderSideOk(PairOf(c, t, p));
  }

  /** The parts of a node that the count is about. */
  ghost predicate CountKept(s: State, r: State) {
    r.role == Leader ==> s.role == Leader && r.term == s.term && r.inflight == s.inflight && r.repl == s.repl
  }

  lemma CountUntouched(c: Cluster, l: Label)
    requires Enabled(c, l) && !Winning(c, l) && !LeaderWork(l)
    ensures CountKept(c.nodes[l.n], NodeAfter(c, l))
  {
  }

  /** The count of the node after the step, and what is new on its committed list. */
  ghost predicate Counted(s: State, r: State, n: Id, start: nat, need: nat) {
    && CountsMatch(r.inflight, n, r.repl, start, need)
    && (NewlyBacked(s.inflight, r.inflight, n, r.repl, start, need) || r.inflight.committed == [])
  }

  lemma DispatchCounted(ids: set<Id>, n: Id, s: State, cmds: seq<(LogType, string)>, start: nat)
    requires NodeOk(ids, n, s) && s.role == Leader && start <= |s.log|
    requires CountsMatch(s.inflight, n, s.repl, start, Majority(|ids|))
    ensures Counted(s, Dispatch(s, cmds, |ids|), n, start, Majority(|ids|))
  {
    StartRangeCounts(s.inflight, |s.log| + 1, |cmds|, n, s.repl, start, Majority(|ids|));
  }

  lemma ReplyCounted(n: Id, s: State, resp: AppendResp, start: nat, need: nat)
    requires Ok(s) && resp.req.to in s.repl && resp.req.to != n && s.repl[resp.req.to].next >= 1
    requires CountsMatch(s.inflight, n, s.repl, start, need)
    requires ReplyFitsReplicator(s.repl[resp.req.to], resp, start)
    ensures Counted(s, HandleReply(s, resp), n, start, need)
  {
    var r, p := HandleReply(s, resp), resp.req.to;
    if Confirms(resp) {
      RangeCounts(s.inflight, n, s.repl, r.repl, p, resp.req.prev + 1, End(resp.req), start, need);
    } else if r.repl != s.repl {
      UnconfirmedMoves(s.inflight, n, s.repl, r.repl, p, start, need);
    }
  }

  /** What the slot of a replicator says about the reply in it. */
  lemma ReplyFacts(c: Cluster, l: Label)
    requires Enabled(c, l) && l.RecvReply? && InOrder(c, l)
    requires ElectionInv(c) && LogInv(c) && LockInv(c)
    ensures ReplyFitsSlot(c, l)
  {
    var t, f := c.nodes[l.n].term, l.aresp.req.to;
    LeadingLog(c, l.n);
    assert Paired(c, t, f);
    assert PairOk(PairOf(c, t, f));
  }

  ghost predicate ReplyFitsSlot(c: Cluster, l: Label)
    requires Enabled(c, l) && l.RecvReply?
  {
    var s := c.nodes[l.n];
    && s.term in c.h.start && l.aresp.req.to != l.n
    && ReplyFitsReplicator(s.repl[l.aresp.req.to], l.aresp, c.h.start[s.term])
  }

  /** A reply is about what the replicator sent last, and only entries of older terms are rejected. */
  ghost predicate ReplyFitsReplicator(rep: Replicator, resp: AppendResp, start: nat) {
    && resp.req.prev == rep.next - 1
    && (!resp.success && resp.term <= resp.req.term ==> rep.next <= start + 1 && resp.req.prev > 0)
  }

  /** A leader's term has a start, and its log only grew since. */
  lemma LeadingStart(c: Cluster, n: Id)
    requires ElectionInv(c) && LogInv(c) && n in c.nodes && c.nodes[n].role == Leader
    ensures NodeOk(c.ids, n, c.nodes[n])
    ensures c.nodes[n].term in c.h.start && c.h.start[c.nodes[n].term] <= |c.nodes[n].log|
  {
    LeadingLog(c, n);
    assert TermLogOk(c.h, c.nodes[n].term);
  }

  lemma LeaderCounted(c: Cluster, l: Label)
    requires ElectionInv(c) && LogInv(c) && LockInv(c) && Enabled(c, l) && InOrder(c, l) && LeaderWork(l)
    requires LeaderCommitOk(c, l.n)
    ensures c.nodes[l.n].term in c.h.start
    ensures Counted(c.nodes[l.n], NodeAfter(c, l), l.n, c.h.start[c.nodes[l.n].term], Majority(|c.ids|))
    ensures NodeAfter(c, l).term == c.nodes[l.n].term
  {
    LeadingStart(c, l.n);
    if l.RecvReply? {
      ReplyFacts(c, l);
      ReplyStepCounted(c, l);
    } else {
      WorkCounted(c, l, c.h.start[c.nodes[l.n].term]);
    }
  }

  lemma ReplyStepCounted(c: Cluster, l: Label)
    requires Enabled(c, l) && l.RecvReply? && ReplyFitsSlot(c, l) && LeaderCommitOk(c, l.n)
    ensures Counted(c.nodes[l.n], NodeAfter(c, l), l.n, c.h.start[c.nodes[l.n].term], Majority(|c.ids|))
    ensures NodeAfter(c, l).term == c.nodes[l.n].term
  {
    ReplyCounted(l.n, c.nodes[l.n], l.aresp, c.h.start[c.nodes[l.n].term], Majority(|c.ids|));
  }

  lemma WorkCounted(c: Cluster, l: Label, start: nat)
    requires Enabled(c, l) && LeaderWork(l) && !l.RecvReply? && start <= |c.nodes[l.n].log|
    requires CountsMatch(c.nodes[l.n].inflight, l.n, c.nodes[l.n].repl, start, Majority(|c.ids|))
    ensures Counted(c.nodes[l.n], NodeAfter(c, l), l.n, start, Majority(|c.ids|))
    ensures NodeAfter(c, l).term == c.nodes[l.n].term
  {
    var s := c.nodes[l.n];
    if l.DoDispatch? {
      DispatchCounted(c.ids, l.n, s, l.cmds, start);
    } else if l.SendAppend? {
      UnconfirmedMoves(s.inflight, l.n, s.repl, NodeAfter(c, l).repl, l.to, start, Majority(|c.ids|));
    } else {
      CommitListQuiet(s.(inflight := s.inflight.(committed := [])), s.inflight.committed);
    }
  }

  lemma QueueStep(c: Cluster, l: Label, t: nat, list: seq<nat>)
    requires ElectionInv(c) && LogInv(c) && LockInv(c) && Enabled(c, l) && QueueOk(c, t, list)
    ensures QueueOk(Apply(c, l), t, list)
  {
    HistoryStep(c, l);
    forall k | 0 <= k < |list|
      ensures Chosen(Apply(c, l), t, list[k])
    {
      ChosenStays(c, l, t, list[k]);
    }
  }

  lemma LeaderCommitAt(c: Cluster, l: Label)
    requires ElectionInv(c) && LogInv(c) && LockInv(c) && Enabled(c, l) && InOrder(c, l) && LeaderWork(l)
    requires LeaderCommitOk(c, l.n) && ElectionInv(Apply(c, l)) && LogInv(Apply(c, l)) && LockInv(Apply(c, l))
    ensures LeaderCommitOk(Apply(c, l), l.n)
  {
    CountedAfter(c, l);
    QueueAfter(c, l);
    LeaderCommitFrom(Apply(c, l), l.n, c.nodes[l.n]);
  }

  lemma QueueAfter(c: Cluster, l: Label)
    requires ElectionInv(c) && LogInv(c) && LockInv(c) && Enabled(c, l) && LeaderWork(l) && LeaderCommitOk(c, l.n)
    ensures QueueOk(Apply(c, l), c.nodes[l.n].term, c.nodes[l.n].inflight.committed)
  {
    QueueStep(c, l, c.nodes[l.n].term, c.nodes[l.n].inflight.committed);
  }

  lemma CountedAfter(c: Cluster, l: Label)
    requires ElectionInv(c) && LogInv(c) && LockInv(c) && Enabled(c, l) && InOrder(c, l) && LeaderWork(l)
    requires LeaderCommitOk(c, l.n)
    ensures NodeAfter(c, l).term == c.nodes[l.n].term && c.nodes[l.n].term in HistoryAfter(c, l).start
    ensures Counted(c.nodes[l.n], NodeAfter(c, l), l.n, HistoryAfter(c, l).start[c.nodes[l.n].term], Majority(|c.ids|))
  {
    LeaderCounted(c, l);
  }

  /** The leader `n`, whose value before the step was `s`. */
  lemma LeaderCommitFrom(c: Cluster, n: Id, s: State)
    requires ElectionInv(c) && LogInv(c) && LockInv(c) && n in c.nodes
    requires QueueOk(c, s.term, s.inflight.committed) && c.nodes[n].term == s.term && s.term in c.h.start
    requires Counted(s, c.nodes[n], n, c.h.start[s.term], Majority(|c.ids|))
    ensures LeaderCommitOk(c, n)
  {
    var r := c.nodes[n];
    if r.role == Leader {
      forall k | 0 <= k < |r.inflight.committed|
        ensures Chosen(c, r.term, r.inflight.committed[k])
      {
        QueueEntry(c, n, s, k);
      }
    }
  }

  lemma QueueEntry(c: Cluster, n: Id, s: State, k: nat)
    requires ElectionInv(c) && LogInv(c) && LockInv(c) && n in c.nodes && c.nodes[n].role == Leader
    requires QueueOk(c, s.term, s.inflight.committed) && c.nodes[n].term == s.term && s.term in c.h.start
    requires Counted(s, c.nodes[n], n, c.h.start[s.term], Majority(|c.ids|)) && k < |c.nodes[n].inflight.committed|
    ensures Chosen(c, s.term, c.nodes[n].inflight.committed[k])
  {
    if k < |s.inflight.committed| {
      assert c.nodes[n].inflight.committed[k] == s.inflight.committed[k];
    } else {
      assert NodeOk(c.ids, n, c.nodes[n]);
      BackedIsChosen(c, n, c.nodes[n].inflight.committed[k]);
    }
  }

  lemma LeaderCommitStep(c: Cluster, l: Label, n: Id)
    requires Safe(c) && CommitInv(c) && Enabled(c, l) && InOrder(c, l) && Safe(Apply(c, l)) && n in c.nodes
    ensures LeaderCommitOk(Apply(c, l), n)
  {
    if n == l.n && LeaderWork(l) {
      assert LeaderCommitOk(c, n);
      LeaderCommitAt(c, l);
    } else if n == l.n && Winning(c, l) {
      NewLeaderCommit(c, l);
    } else {
      assert LeaderCommitOk(c, n);
      CountKeptAt(c, l, n);
      LeaderCommitElsewhere(c, l, n);
    }
  }

  lemma NewLeaderCommit(c: Cluster, l: Label)
    requires Enabled(c, l) && Winning(c, l)
    ensures LeaderCommitOk(Apply(c, l), l.n)
  {
  }

  lemma CountKeptAt(c: Cluster, l: Label, n: Id)
    requires Enabled(c, l) && n in c.nodes && (n == l.n ==> !LeaderWork(l) && !Winning(c, l))
    ensures CountKept(c.nodes[n], Apply(c, l).nodes[n])
  {
    if n == l.n {
      CountUntouched(c, l);
    }
  }

  lemma LeaderCommitElsewhere(c: Cluster, l: Label, n: Id)
    requires ElectionInv(c) && LogInv(c) && LockInv(c) && Enabled(c, l) && n in c.nodes && LeaderCommitOk(c, n)
    requires CountKept(c.nodes[n], Apply(c, l).nodes[n])
    ensures LeaderCommitOk(Apply(c, l), n)
  {
    if Apply(c, l).nodes[n].role == Leader {
      HistoryStep(c, l);
      QueueStep(c, l, c.nodes[n].term, c.nodes[n].inflight.committed);
      LeaderCommitKept(c, Apply(c, l), n);
    }
  }

  lemma LeaderCommitKept(c: Cluster, c': Cluster, n: Id)
    requires n in c.nodes && n in c'.nodes && LeaderCommitOk(c, n) && CountKept(c.nodes[n], c'.nodes[n])
    requires Grows(c.h, c'.h) && c'.ids == c.ids && QueueOk(c', c.nodes[n].term, c.nodes[n].inflight.committed)
    ensures LeaderCommitOk(c', n)
  {
  }

  // ---------------------------------------------------------------------------
  // Every step

  lemma RejectedCommit(c: Cluster, l: Label)
    requires Safe(c) && CommitInv(c) && Enabled(c, l) && l.RecvAppend? && !Accepts(c.nodes[l.n], l.areq)
    ensures NodeCommitOk(Apply(c, l), NodeAfter(c, l))
  {
    var s, r := c.nodes[l.n], NodeAfter(c, l);
    assert NodeCommitOk(c, s);
    RejectedState(s, l.areq);
    NodeCommitMoves(c, l, l.n);
  }

  lemma RejectedState(s: State, req: AppendReq)
    requires !Accepts(s, req)
    ensures var r := AppendEntries(s, req);
            r.log == s.log && r.commit == s.commit && r.applied == s.applied && s.term <= r.term
  {
  }

  lemma CommitInvStep(c: Cluster, l: Label)
    requires Safe(c) && CommitInv(c) && Enabled(c, l) && InOrder(c, l)
    ensures Safe(Apply(c, l)) && CommitInv(Apply(c, l))
  {
    var c' := Apply(c, l);
    SafeStep(c, l);
    forall t, f
      ensures PendingOk(c', t, f)
    {
      PendingStep(c, l, t, f);
    }
    forall n | n in c'.nodes
      ensures NodeCommitOk(c', c'.nodes[n]) && LeaderCommitOk(c', n)
    {
      LeaderCommitStep(c, l, n);
      NodeCommitStep(c, l, n);
    }
  }

  lemma NodeCommitStep(c: Cluster, l: Label, n: Id)
    requires Safe(c) && CommitInv(c) && Enabled(c, l) && InOrder(c, l) && n in c.nodes
    ensures NodeCommitOk(Apply(c, l), Apply(c, l).nodes[n])
  {
    if n != l.n || (!l.RecvAppend? && !l.Commit?) {
      NodeCommitElsewhere(c, l, n);
    } else if l.Commit? {
      LeaderCommits(c, l);
    } else if Accepts(c.nodes[n], l.areq) {
      FollowerCommits(c, l);
    } else {
      RejectedCommit(c, l);
    }
  }
}
