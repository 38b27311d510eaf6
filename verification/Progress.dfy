/**
  The other half of safety: over whole runs, what is due does happen.  A candidate with more than half
  of the votes leads, what a node has committed it has applied, and a leader commits exactly the
  entries of its term that a majority of replicators has confirmed.
 */
module Progress {
  import opened Basics
  import opened Node
  import opened NodeFacts
  import opened Cluster
  import opened Election
  import opened LogMatching
  import opened Replication
  import opened LockStep
  import opened LeaderCompleteness
  import opened ReplicaCount
  import opened Commitment
  import opened Handlers
  import opened Safety
  import opened Frontier
  import I = Inflight

  // ---------------------------------------------------------------------------
  // Elections

  /** The granted answers that `n` has counted in the first `k` steps, since it last stood for election. */
  ghost function Tally(labels: seq<Label>, n: Id, k: nat): nat
    requires k <= |labels|
  {
    if k == 0 then 0
    else
      match labels[k - 1]
      case StartElection(m) => if m == n then 0 else Tally(labels, n, k - 1)
      case RecvVoteResp(m, resp) => Tally(labels, n, k - 1) + (if m == n && resp.granted then 1 else 0)
      case _ => Tally(labels, n, k - 1)
  }

  /** A candidate is one that has not got more than half of the votes. */
  lemma {:induction false} CandidateTally(run: seq<Cluster>, labels: seq<Label>, k: nat, n: Id)
    requires IsRun(run, labels) && k < |run| && n in run[k].nodes && run[k].nodes[n].role == Candidate
    ensures run[k].nodes[n].granted == Tally(labels, n, k) && 2 * Tally(labels, n, k) <= |run[k].ids|
    decreases k
  {
    assert k > 0;
    assert StepAt(run, labels, k - 1);
    var c, l := run[k - 1], labels[k - 1];
    if l.n != n {
      CandidateTally(run, labels, k - 1, n);
    } else if !l.StartElection? {
      CandidateBefore(c, l);
      CandidateTally(run, labels, k - 1, n);
      CandidateCounts(c, l);
    }
  }

  lemma CandidateCounts(c: Cluster, l: Label)
    requires Enabled(c, l) && !l.StartElection? && c.nodes[l.n].role == Candidate && NodeAfter(c, l).role == Candidate
    ensures if l.RecvVoteResp? then
              && NodeAfter(c, l).granted == c.nodes[l.n].granted + (if l.vresp.granted then 1 else 0)
              && 2 * NodeAfter(c, l).granted <= |c.ids|
            else NodeAfter(c, l).granted == c.nodes[l.n].granted
  {
    if l.RecvVoteResp? {
      CountingLeaves(c.nodes[l.n], l.n, c.ids, l.vresp);
      LeadsWithMajority(c.nodes[l.n], l.n, c.ids, l.vresp);
    } else if !Voting(l) {
      QuietLabel(c, l);
    }
  }

  /** Counting an answer makes a candidate the leader if and only if more than half of the members have
      now given it their vote. */
  lemma MajorityLeads(run: seq<Cluster>, labels: seq<Label>, k: nat, n: Id, resp: VoteResp)
    requires IsRun(run, labels) && k < |labels| && StepAt(run, labels, k) && labels[k] == RecvVoteResp(n, resp)
    requires resp.term <= run[k].nodes[n].term
    ensures run[k + 1].nodes[n].role == Leader <==> 2 * Tally(labels, n, k + 1) > |run[k].ids|
  {
    CandidateTally(run, labels, k, n);
    LeadsWithMajority(run[k].nodes[n], n, run[k].ids, resp);
  }

  // ---------------------------------------------------------------------------
  // What is committed is applied

  /** In every run, a node has applied what it has committed. */
  lemma {:induction false} AppliedKeepsUp(run: seq<Cluster>, labels: seq<Label>, k: nat, n: Id)
    requires IsRun(run, labels) && k < |run| && n in run[k].nodes
    ensures run[k].nodes[n].commit <= |run[k].nodes[n].applied|
    decreases k
  {
    if k > 0 {
      assert StepAt(run, labels, k - 1);
      AppliedKeepsUp(run, labels, k - 1, n);
      if labels[k - 1].n == n {
        AppliedStep(run[k - 1], labels[k - 1]);
      }
    }
  }

  lemma AppliedStep(c: Cluster, l: Label)
    requires Enabled(c, l) && c.nodes[l.n].commit <= |c.nodes[l.n].applied|
    ensures NodeAfter(c, l).commit <= |NodeAfter(c, l).applied|
  {
    match l {
      case Commit(n) => ListedKeepsUp(c.nodes[n]);
      case RecvAppend(n, req) => RequestIsApplied(c.nodes[n], req);
      case RecvHeartbeat(n, req) => RequestIsApplied(c.nodes[n], req);
      case _ => CommitKeptElsewhere(c, l);
    }
  }

  lemma ListedKeepsUp(s: State)
    requires Ok(s) && s.commit <= |s.applied|
    ensures ApplyCommitted(s).commit <= |ApplyCommitted(s).applied|
  {
    CommittedIsApplied(s);
    var list := s.inflight.committed;
    assert list != [] ==> list[|list| - 1] in list;
  }

  /** At every moment of a lock-step run, what a node has applied is the beginning of its log, at least up
      to its commit index. */
  lemma AppliedIsLogPrefix(run: seq<Cluster>, labels: seq<Label>, k: nat, n: Id)
    requires IsLockStepRun(run, labels) && k < |run| && n in run[k].nodes
    ensures var s := run[k].nodes[n]; s.applied <= s.log && s.commit <= |s.applied|
  {
    AppliedKeepsUp(run, labels, k, n);
    CommitOkAt(run, labels, k, n);
    assert AppliedOk(run[k].nodes[n]);
  }

  /** A leader's commit step applies everything listed, from its log and in order. */
  lemma CommitStepApplies(run: seq<Cluster>, labels: seq<Label>, k: nat, n: Id)
    requires IsRun(run, labels) && k < |labels| && StepAt(run, labels, k) && labels[k] == Commit(n)
    ensures var s, r := run[k].nodes[n], run[k + 1].nodes[n];
            && (forall i | i in s.inflight.committed :: i <= |r.applied|) && Extends(s, r.applied)
            && r.commit ==
               (if s.inflight.committed == [] then s.commit else s.inflight.committed[|s.inflight.committed| - 1])
  {
    CommittedIsApplied(run[k].nodes[n]);
  }

  /** A follower that adopts a commit index applies everything up to it. */
  lemma RequestStepApplies(run: seq<Cluster>, labels: seq<Label>, k: nat, n: Id, req: AppendReq)
    requires IsRun(run, labels) && k < |labels| && StepAt(run, labels, k) && labels[k] == RecvAppend(n, req)
    requires Fits(run[k].nodes[n], req) && req.commit > run[k].nodes[n].commit
    ensures var s, r := run[k].nodes[n], run[k + 1].nodes[n];
            r.commit == Min(req.commit, |r.log|) && |r.applied| == Max(|s.applied|, r.commit)
  {
    RequestIsApplied(run[k].nodes[n], req);
  }

  // ---------------------------------------------------------------------------
  // What a leader tracks, lists and commits

  /** Up to where the leader's commits have gone: the queue holds the indexes after it, in order. */
  function Floor(t: I.Tracker<nat>, n: nat): int {
    Handed(t, n) - |t.committed|
  }

  ghost predicate QueueInOrder(t: I.Tracker<nat>, n: nat, commit: nat, start: nat) {
    && (forall k | 0 <= k < |t.committed| :: t.committed[k] == Floor(t, n) + 1 + k)
    && start <= Floor(t, n) && commit <= Floor(t, n) && (Floor(t, n) > start ==> commit == Floor(t, n))
  }

  /** What is of this term and no longer tracked is confirmed by a quorum. */
  ghost predicate DoneOk(t: I.Tracker<nat>, size: nat, n: Id, repl: map<Id, Replicator>, start: nat, need: nat) {
    forall i | start < i <= size && i !in t.ops :: |Confirmed(n, repl, i)| >= need
  }

  ghost predicate ProgressOk(s: State, n: Id, start: nat, need: nat) {
    && Settled(s.inflight)
    && DoneOk(s.inflight, |s.log|, n, s.repl, start, need)
    && QueueInOrder(s.inflight, |s.log|, s.commit, start)
  }

  /** The tracker moved on by whole indexes. */
  lemma QueueMoves(t: I.Tracker<nat>, n: nat, r: I.Tracker<nat>, n': nat, commit: nat, start: nat)
    requires QueueInOrder(t, n, commit, start) && Spans(t, n, r, n')
    ensures QueueInOrder(r, n', commit, start)
  {
    forall k | 0 <= k < |r.committed|
      ensures r.committed[k] == Floor(r, n') + 1 + k
    {
      if k < |t.committed| {
        assert r.committed[k] == t.committed[k];
      }
    }
  }

  lemma DispatchProgress(n: Id, s: State, cmds: seq<(LogType, string)>, size: nat, start: nat)
    requires Ok(s) && start <= |s.log| && ProgressOk(s, n, start, Majority(size))
    requires CountsMatch(s.inflight, n, s.repl, start, Majority(size))
    ensures ProgressOk(Dispatch(s, cmds, size), n, start, Majority(size))
  {
    StartRangeFrontier(s.inflight, |s.log|, |cmds|, Majority(size));
    StartedConfirmed(n, s, Dispatch(s, cmds, size), |cmds|, start, Majority(size));
    QueueMoves(s.inflight, |s.log|, Dispatch(s, cmds, size).inflight, |s.log| + |cmds|, s.commit, start);
  }

  lemma StartedConfirmed(n: Id, s: State, r: State, count: nat, start: nat, need: nat)
    requires ProgressOk(s, n, start, need) && CountsMatch(s.inflight, n, s.repl, start, need)
    requires r.repl == s.repl && |r.log| == |s.log| + count && Started(s.inflight, r.inflight, |s.log| + 1, count, need)
    ensures DoneOk(r.inflight, |r.log|, n, r.repl, start, need)
  {
    forall i | start < i <= |r.log| && i !in r.inflight.ops
      ensures |Confirmed(n, r.repl, i)| >= need
    {
      if i > |s.log| {
        assert n in Confirmed(n, r.repl, i);
      }
    }
  }

  lemma ConfirmProgress(n: Id, s: State, r: State, p: Id, lo: nat, hi: nat, start: nat, need: nat)
    requires Ok(s) && ProgressOk(s, n, start, need) && CountsMatch(s.inflight, n, s.repl, start, need)
    requires p in s.repl && p != n && p in r.repl && r.repl == s.repl[p := r.repl[p]]
    requires s.repl[p].next == lo && r.repl[p].next == hi + 1 && lo <= hi
    requires r.log == s.log && r.commit == s.commit && r.inflight == I.CommitEach(s.inflight, lo, hi)
    ensures ProgressOk(r, n, start, need)
  {
    CommitEachFrontier(s.inflight, |s.log|, lo, hi);
    forall i | start < i <= |r.log| && i !in r.inflight.ops
      ensures |Confirmed(n, r.repl, i)| >= need
    {
      ConfirmedGrows(n, s.repl, r.repl, p, lo, hi, i);
    }
    QueueMoves(s.inflight, |s.log|, r.inflight, |r.log|, s.commit, start);
  }

  /** A replicator that has confirmed nothing of this term moves, or reads on. */
  lemma MoveProgress(n: Id, s: State, r: State, p: Id, start: nat, need: nat)
    requires ProgressOk(s, n, start, need) && p in s.repl && p in r.repl && r == s.(repl := s.repl[p := r.repl[p]])
    requires r.repl[p].next == s.repl[p].next || (r.repl[p].next <= start + 1 && s.repl[p].next <= start + 1)
    ensures ProgressOk(r, n, start, need)
  {
    forall i | start < i <= |r.log| && i !in r.inflight.ops
      ensures |Confirmed(n, r.repl, i)| >= need
    {
      assert Confirmed(n, r.repl, i) == Confirmed(n, s.repl, i);
    }
  }

  lemma ReplyProgress(n: Id, s: State, resp: AppendResp, start: nat, need: nat)
    requires Ok(s) && resp.req.to in s.repl && resp.req.to != n && s.repl[resp.req.to].next >= 1
    requires ProgressOk(s, n, start, need) && CountsMatch(s.inflight, n, s.repl, start, need)
    requires ReplyFitsReplicator(s.repl[resp.req.to], resp, start)
    ensures ProgressOk(HandleReply(s, resp), n, start, need)
  {
    var r, p := HandleReply(s, resp), resp.req.to;
    ReplyLeaves(s, resp);
    if Confirms(resp) {
      ConfirmProgress(n, s, r, p, resp.req.prev + 1, End(resp.req), start, need);
    } else {
      MoveProgress(n, s, r, p, start, need);
    }
  }

  lemma CommitProgress(n: Id, s: State, start: nat, need: nat)
    requires Ok(s) && ProgressOk(s, n, start, need)
    ensures ProgressOk(ApplyCommitted(s), n, start, need)
  {
    CommittedIsApplied(s);
  }

  // ---------------------------------------------------------------------------
  // Every lock-step step

  ghost predicate LeaderProgress(c: Cluster, n: Id)
    requires n in c.nodes
  {
    c.nodes[n].role == Leader ==>
      && c.nodes[n].term in c.h.start
      && ProgressOk(c.nodes[n], n, c.h.start[c.nodes[n].term], Majority(|c.ids|))
  }

  /** Other steps leave a node that leads as it is, apart from its vote. */
  lemma IdleLeaderState(c: Cluster, l: Label)
    requires Enabled(c, l) && !Winning(c, l) && !LeaderWork(l) && NodeAfter(c, l).role == Leader
    ensures VoteOnly(c.nodes[l.n], NodeAfter(c, l))
  {
    match l {
      case RecvAppend(n, req) => AppendQuiet(c.nodes[n], req);
      case RecvHeartbeat(n, req) => AppendQuiet(c.nodes[n], req);
      case RecvVoteReq(n, req) => VoteRequestLeaves(c.nodes[n], n, req);
      case _ =>
    }
  }

  lemma NewLeaderProgress(c: Cluster, l: Label)
    requires Enabled(c, l) && Winning(c, l) && c.nodes[l.n].commit <= |c.nodes[l.n].log|
    ensures LeaderProgress(Apply(c, l), l.n)
  {
  }

  lemma IdleProgress(c: Cluster, l: Label, n: Id)
    requires ElectionInv(c) && LogInv(c) && Enabled(c, l) && n in c.nodes && LeaderProgress(c, n)
    requires n == l.n ==> !Winning(c, l) && !LeaderWork(l)
    ensures LeaderProgress(Apply(c, l), n)
  {
    if Apply(c, l).nodes[n].role == Leader {
      IdleNode(c, l, n);
      HistoryStep(c, l);
      LeaderProgressKept(c, Apply(c, l), n);
    }
  }

  ghost predicate VoteOnly(s: State, r: State) {
    r == s.(voteTerm := r.voteTerm, voteCand := r.voteCand)
  }

  lemma IdleNode(c: Cluster, l: Label, n: Id)
    requires Enabled(c, l) && n in c.nodes && (n == l.n ==> !Winning(c, l) && !LeaderWork(l))
    requires Apply(c, l).nodes[n].role == Leader
    ensures VoteOnly(c.nodes[n], Apply(c, l).nodes[n])
  {
    if n == l.n {
      IdleLeaderState(c, l);
    }
  }

  lemma LeaderProgressKept(c: Cluster, c': Cluster, n: Id)
    requires n in c.nodes && n in c'.nodes && VoteOnly(c.nodes[n], c'.nodes[n]) && LeaderProgress(c, n)
    requires c'.ids == c.ids && forall t | t in c.h.start :: t in c'.h.start && c'.h.start[t] == c.h.start[t]
    ensures LeaderProgress(c', n)
  {
  }

  lemma WorkProgress(c: Cluster, l: Label)
    requires ElectionInv(c) && LogInv(c) && LockInv(c) && Enabled(c, l) && InOrder(c, l) && LeaderWork(l)
    requires LeaderCommitOk(c, l.n) && LeaderProgress(c, l.n)
    ensures LeaderProgress(Apply(c, l), l.n)
  {
    LeadingStart(c, l.n);
    if l.RecvReply? {
      ReplyFacts(c, l);
      ReplyWorkProgress(c, l);
    } else {
      OtherWorkProgress(c, l, c.h.start[c.nodes[l.n].term]);
    }
    WorkKeepsTerm(c, l);
  }

  lemma WorkKeepsTerm(c: Cluster, l: Label)
    requires Enabled(c, l) && LeaderWork(l)
    ensures NodeAfter(c, l).term == c.nodes[l.n].term && StartAfter(c, l) == c.h.start
  {
    WorkKeepsLeading(c, l);
  }

  lemma ReplyWorkProgress(c: Cluster, l: Label)
    requires Enabled(c, l) && l.RecvReply? && ReplyFitsSlot(c, l) && LeaderCommitOk(c, l.n) && LeaderProgress(c, l.n)
    ensures ProgressOk(NodeAfter(c, l), l.n, c.h.start[c.nodes[l.n].term], Majority(|c.ids|))
  {
    ReplyProgress(l.n, c.nodes[l.n], l.aresp, c.h.start[c.nodes[l.n].term], Majority(|c.ids|));
  }

  lemma OtherWorkProgress(c: Cluster, l: Label, start: nat)
    requires Enabled(c, l) && LeaderWork(l) && !l.RecvReply? && start <= |c.nodes[l.n].log|
    requires ProgressOk(c.nodes[l.n], l.n, start, Majority(|c.ids|))
    requires CountsMatch(c.nodes[l.n].inflight, l.n, c.nodes[l.n].repl, start, Majority(|c.ids|))
    ensures ProgressOk(NodeAfter(c, l), l.n, start, Majority(|c.ids|))
  {
    match l {
      case DoDispatch(n, cmds) => DispatchProgress(n, c.nodes[n], cmds, |c.ids|, start);
      case SendAppend(n, to, last) => MoveProgress(n, c.nodes[n], NodeAfter(c, l), to, start, Majority(|c.ids|));
      case Commit(n) => CommitProgress(n, c.nodes[n], start, Majority(|c.ids|));
    }
  }

  lemma ProgressStep(c: Cluster, l: Label, n: Id)
    requires Safe(c) && CommitInv(c) && Enabled(c, l) && InOrder(c, l) && n in c.nodes && LeaderProgress(c, n)
    ensures LeaderProgress(Apply(c, l), n)
  {
    if n != l.n || (!Winning(c, l) && !LeaderWork(l)) {
      IdleProgress(c, l, n);
    } else if LeaderWork(l) {
      assert LeaderCommitOk(c, n);
      WorkProgress(c, l);
    } else {
      CommitInLog(c, n);
      NewLeaderProgress(c, l);
    }
  }

  lemma CommitInLog(c: Cluster, n: Id)
    requires CommitInv(c) && n in c.nodes
    ensures c.nodes[n].commit <= |c.nodes[n].log|
  {
    assert NodeCommitOk(c, c.nodes[n]);
    JustifiedWithin(c, c.nodes[n].term, c.nodes[n].log, c.nodes[n].commit);
  }

  lemma {:induction false} RunProgress(run: seq<Cluster>, labels: seq<Label>, k: nat, n: Id)
    requires IsLockStepRun(run, labels) && k < |run| && n in run[k].nodes
    ensures LeaderProgress(run[k], n)
    decreases k
  {
    if k > 0 {
      SameNodes(run, labels, k - 1);
      RunProgress(run, labels, k - 1, n);
      NextProgress(run, labels, k - 1, n);
    }
  }

  lemma SameNodes(run: seq<Cluster>, labels: seq<Label>, k: nat)
    requires IsRun(run, labels) && k < |labels|
    ensures run[k + 1].nodes.Keys == run[k].nodes.Keys
  {
    assert StepAt(run, labels, k);
  }

  lemma NextProgress(run: seq<Cluster>, labels: seq<Label>, k: nat, n: Id)
    requires IsLockStepRun(run, labels) && k < |labels| && n in run[k].nodes && n in run[k + 1].nodes
    requires LeaderProgress(run[k], n)
    ensures LeaderProgress(run[k + 1], n)
  {
    LockStepRunHolds(run, labels, k);
    assert StepAt(run, labels, k);
    ProgressStep(run[k], labels[k], n);
  }

  // ---------------------------------------------------------------------------
  // The results

  /** The members that the leader knows to hold `index`: itself, and the peers whose replicators are past it. */
  function Holders(n: Id, s: State, index: nat): set<Id> {
    {n} + set p | p in s.repl && index < s.repl[p].next
  }

  /** A leader tracks exactly those entries of its term that not more than half of the members have confirmed. */
  lemma TrackedExactly(run: seq<Cluster>, labels: seq<Label>, k: nat, n: Id, index: nat)
    requires IsLockStepRun(run, labels) && k < |run| && n in run[k].nodes && run[k].nodes[n].role == Leader
    requires 0 < index <= |run[k].nodes[n].log| && run[k].nodes[n].log[index - 1].term == run[k].nodes[n].term
    ensures index in run[k].nodes[n].inflight.ops <==> 2 * |Holders(n, run[k].nodes[n], index)| <= |run[k].ids|
  {
    LockStepRunHolds(run, labels, k);
    RunProgress(run, labels, k, n);
    OwnTermIndex(run[k], n, index);
    assert LeaderCommitOk(run[k], n) && NodeOk(run[k].ids, n, run[k].nodes[n]);
    TrackedWhen(run[k].nodes[n], n, run[k].h.start[run[k].nodes[n].term], |run[k].ids|, index);
  }

  lemma OwnTermIndex(c: Cluster, n: Id, index: nat)
    requires ElectionInv(c) && LogInv(c) && n in c.nodes && c.nodes[n].role == Leader
    requires 0 < index <= |c.nodes[n].log| && c.nodes[n].log[index - 1].term == c.nodes[n].term
    ensures c.nodes[n].term in c.h.start && c.h.start[c.nodes[n].term] < index
  {
    LeadingLog(c, n);
    assert TermLogOk(c.h, c.nodes[n].term);
  }

  lemma TrackedWhen(s: State, n: Id, start: nat, size: nat, index: nat)
    requires TrackerOk(s.inflight, |s.log|) && ProgressOk(s, n, start, Majority(size))
    requires CountsMatch(s.inflight, n, s.repl, start, Majority(size)) && start < index <= |s.log|
    ensures index in s.inflight.ops <==> 2 * |Holders(n, s, index)| <= size
  {
    assert Holders(n, s, index) == Confirmed(n, s.repl, index);
    if index in s.inflight.ops {
      var first := s.inflight.minCommit;
      SubsetSize(Confirmed(n, s.repl, index), Confirmed(n, s.repl, first));
    }
  }

  /** A leader's commit step commits and applies exactly those entries of its term that more than half of
      the members have confirmed, and all entries before them. */
  lemma CommitsExactly(run: seq<Cluster>, labels: seq<Label>, k: nat, n: Id, index: nat)
    requires IsLockStepRun(run, labels) && k < |labels| && StepAt(run, labels, k) && labels[k] == Commit(n)
    requires 0 < index <= |run[k].nodes[n].log| && run[k].nodes[n].log[index - 1].term == run[k].nodes[n].term
    ensures var r := run[k + 1].nodes[n];
            && (index <= r.commit <==> 2 * |Holders(n, run[k].nodes[n], index)| > |run[k].ids|)
            && r.commit <= |r.applied|
  {
    AppliedKeepsUp(run, labels, k + 1, n);
    TrackedExactly(run, labels, k, n, index);
    RunProgress(run, labels, k + 1, n);
    NothingListed(run, labels, k, n);
    OwnTermAt(run, labels, k + 1, n, index);
    var c := run[k + 1];
    CommitReaches(c.nodes[n], n, c.h.start[c.nodes[n].term], Majority(|c.ids|), index);
  }

  lemma NothingListed(run: seq<Cluster>, labels: seq<Label>, k: nat, n: Id)
    requires IsRun(run, labels) && k < |labels| && StepAt(run, labels, k) && labels[k] == Commit(n)
    ensures var s, r := run[k].nodes[n], run[k + 1].nodes[n];
            && r.role == Leader && r.log == s.log && r.term == s.term && r.inflight == s.inflight.(committed := [])
  {
    CommittedIsApplied(run[k].nodes[n]);
  }

  lemma OwnTermAt(run: seq<Cluster>, labels: seq<Label>, k: nat, n: Id, index: nat)
    requires IsRun(run, labels) && k < |run| && n in run[k].nodes && run[k].nodes[n].role == Leader
    requires 0 < index <= |run[k].nodes[n].log| && run[k].nodes[n].log[index - 1].term == run[k].nodes[n].term
    ensures run[k].nodes[n].term in run[k].h.start && run[k].h.start[run[k].nodes[n].term] < index
    ensures TrackerOk(run[k].nodes[n].inflight, |run[k].nodes[n].log|)
  {
    RunHolds(run, labels, k);
    OwnTermIndex(run[k], n, index);
    assert NodeOk(run[k].ids, n, run[k].nodes[n]);
  }

  lemma CommitReaches(r: State, n: Id, start: nat, need: nat, index: nat)
    requires TrackerOk(r.inflight, |r.log|) && ProgressOk(r, n, start, need) && r.inflight.committed == []
    requires start < index <= |r.log|
    ensures index <= r.commit <==> index !in r.inflight.ops
  {
  }
}
