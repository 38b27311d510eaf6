/**
  The guarantees of the cluster over whole runs, stated about what nodes hold: roles, terms, logs,
  commit indexes and applied entries.  `IsRun` allows any loss, duplication and reordering and
  crashes inside persistVote; `IsLockStepRun` follows the delivery of replicateTo.
 */
module Safety {
  import opened Node
  import opened Cluster
  import opened Election
  import opened LogMatching
  import opened Replication
  import opened LockStep
  import opened LeaderCompleteness
  import opened Commitment
  import opened Handlers

  // ---------------------------------------------------------------------------
  // Runs keep the invariants, and histories only grow

  lemma {:induction false} RunHolds(run: seq<Cluster>, labels: seq<Label>, k: nat)
    requires IsRun(run, labels) && k < |run|
    ensures ElectionInv(run[k]) && LogInv(run[k])
  {
    if k == 0 {
      ElectionInit(run[0]);
      LogInit(run[0]);
    } else {
      RunHolds(run, labels, k - 1);
      assert StepAt(run, labels, k - 1);
      ElectionStep(run[k - 1], labels[k - 1]);
      LogStep(run[k - 1], labels[k - 1]);
    }
  }

  lemma {:induction false} LockStepRunHolds(run: seq<Cluster>, labels: seq<Label>, k: nat)
    requires IsLockStepRun(run, labels) && k < |run|
    ensures Safe(run[k]) && CommitInv(run[k])
  {
    if k == 0 {
      InitIsSafe(run[0]);
    } else {
      LockStepRunHolds(run, labels, k - 1);
      NextIsSafe(run, labels, k - 1);
    }
  }

  lemma NextIsSafe(run: seq<Cluster>, labels: seq<Label>, k: nat)
    requires IsLockStepRun(run, labels) && k < |labels| && Safe(run[k]) && CommitInv(run[k])
    ensures Safe(run[k + 1]) && CommitInv(run[k + 1])
  {
    assert StepAt(run, labels, k);
    CommitInvStep(run[k], labels[k]);
  }

  lemma InitIsSafe(c: Cluster)
    requires Init(c)
    ensures Safe(c) && CommitInv(c)
  {
    ElectionInit(c);
    LogInit(c);
    LockInit(c);
    CompleteInit(c);
    CommitInit(c);
  }

  lemma {:induction false} RunGrows(run: seq<Cluster>, labels: seq<Label>, i: nat, j: nat)
    requires IsRun(run, labels) && i <= j < |run|
    ensures Grows(run[i].h, run[j].h) && run[j].ids == run[i].ids
    decreases j
  {
    if i < j {
      RunGrows(run, labels, i, j - 1);
      StepGrows(run, labels, j - 1);
      GrowsOn(run[i].h, run[j - 1].h, run[j].h);
    }
  }

  lemma StepGrows(run: seq<Cluster>, labels: seq<Label>, k: nat)
    requires IsRun(run, labels) && k < |labels|
    ensures Grows(run[k].h, run[k + 1].h) && run[k + 1].ids == run[k].ids
  {
    RunHolds(run, labels, k);
    assert StepAt(run, labels, k);
    HistoryStep(run[k], labels[k]);
  }

  lemma GrowsOn(a: History, b: History, d: History)
    requires Grows(a, b) && Grows(b, d)
    ensures Grows(a, d)
  {
    forall t | t in a.logs
      ensures t in d.logs && Agree(a.logs[t], d.logs[t], |a.logs[t]|)
    {
      assert Agree(a.logs[t], b.logs[t], |a.logs[t]|) && Agree(b.logs[t], d.logs[t], |b.logs[t]|);
    }
  }

  lemma {:induction false} ChosenForever(run: seq<Cluster>, labels: seq<Label>, i: nat, j: nat, t: nat, index: nat)
    requires IsLockStepRun(run, labels) && i <= j < |run| && Chosen(run[i], t, index)
    ensures Chosen(run[j], t, index)
    decreases j
  {
    if i < j {
      ChosenForever(run, labels, i, j - 1, t, index);
      ChosenNext(run, labels, j - 1, t, index);
    }
  }

  lemma ChosenNext(run: seq<Cluster>, labels: seq<Label>, k: nat, t: nat, index: nat)
    requires IsLockStepRun(run, labels) && k < |labels| && Chosen(run[k], t, index)
    ensures Chosen(run[k + 1], t, index)
  {
    LockStepRunHolds(run, labels, k);
    assert StepAt(run, labels, k);
    HistoryStep(run[k], labels[k]);
    ChosenStays(run[k], labels[k], t, index);
  }

  /** No run gets stuck on a malformed node: wherever the code's own condition holds, the step is there. */
  lemma NodesStayWellFormed(run: seq<Cluster>, labels: seq<Label>, k: nat, n: Id)
    requires IsRun(run, labels) && k < |run| && n in run[k].nodes
    ensures Present(run[k], n)
  {
    RunHolds(run, labels, k);
  }

  // ---------------------------------------------------------------------------
  // Election Safety

  /** At most one node ever leads in a term, at whatever moments of the run. */
  lemma ElectionSafety(run: seq<Cluster>, labels: seq<Label>, i: nat, j: nat, a: Id, b: Id)
    requires IsRun(run, labels) && i < |run| && j < |run| && a in run[i].nodes && b in run[j].nodes
    requires run[i].nodes[a].role == Leader && run[j].nodes[b].role == Leader
    requires run[i].nodes[a].term == run[j].nodes[b].term
    ensures a == b
  {
    LeaderOnRecord(run, labels, i, a);
    LeaderOnRecord(run, labels, j, b);
    if i <= j {
      RunGrows(run, labels, i, j);
    } else {
      RunGrows(run, labels, j, i);
    }
  }

  lemma LeaderOnRecord(run: seq<Cluster>, labels: seq<Label>, i: nat, a: Id)
    requires IsRun(run, labels) && i < |run| && a in run[i].nodes && run[i].nodes[a].role == Leader
    ensures run[i].nodes[a].term in run[i].h.leaders && run[i].h.leaders[run[i].nodes[a].term] == a
  {
    RunHolds(run, labels, i);
    assert LeadsOk(run[i], a);
  }

  // ---------------------------------------------------------------------------
  // Log Matching

  /** Two logs, at whatever moments, that hold an entry with the same index and term are identical up
      to that index. */
  lemma LogMatchingTheorem(run: seq<Cluster>, labels: seq<Label>, i: nat, j: nat, a: Id, b: Id, index: nat)
    requires IsRun(run, labels) && i < |run| && j < |run| && a in run[i].nodes && b in run[j].nodes
    requires index < |run[i].nodes[a].log| && index < |run[j].nodes[b].log|
    requires run[i].nodes[a].log[index].term == run[j].nodes[b].log[index].term
    ensures forall m | 0 <= m <= index :: run[i].nodes[a].log[m] == run[j].nodes[b].log[m]
  {
    var last := |run| - 1;
    LogAtEnd(run, labels, i, a);
    LogAtEnd(run, labels, j, b);
    SameTermAgree(run[last].h.logs, run[i].nodes[a].log, run[j].nodes[b].log, index + 1);
  }

  lemma LogAtEnd(run: seq<Cluster>, labels: seq<Label>, i: nat, a: Id)
    requires IsRun(run, labels) && i < |run| && a in run[i].nodes
    ensures LogOk(run[|run| - 1].h.logs, run[i].nodes[a].log)
  {
    RunHolds(run, labels, i);
    RunGrows(run, labels, i, |run| - 1);
    assert NodeLogOk(run[i].h, run[i].nodes[a]);
    LogOkGrows(run[i].h, run[|run| - 1].h, run[i].nodes[a].log);
  }

  // ---------------------------------------------------------------------------
  // Votes

  /** Step `i` starts the election of `cand` in `term`. */
  ghost predicate Asks(c: Cluster, l: Label, cand: Id, term: nat) {
    (l.StartElection? || l.CrashInElection?) && l.n == cand && cand in c.nodes && c.nodes[cand].term + 1 == term
  }

  /** A request on file was made when its candidate started the election, with the log it had then. */
  lemma {:induction false} RequestOrigin(run: seq<Cluster>, labels: seq<Label>, k: nat, req: VoteReq) returns (i: nat)
    requires IsRun(run, labels) && k < |run| && req in run[k].voteReqs
    ensures i < k && i < |labels| && Asks(run[i], labels[i], req.candidate, req.term)
    ensures var log := run[i].nodes[req.candidate].log; req.lastIndex == |log| && req.lastTerm == LastTerm(log)
  {
    assert k > 0;
    assert StepAt(run, labels, k - 1);
    if req in run[k - 1].voteReqs {
      i := RequestOrigin(run, labels, k - 1, req);
    } else {
      i := k - 1;
    }
  }

  /** The step at which an answer was first given. */
  lemma {:induction false} FirstGiven(run: seq<Cluster>, labels: seq<Label>, k: nat, r: VoteResp) returns (j: nat)
    requires IsRun(run, labels) && k < |run| && r in run[k].voteResps
    ensures j < k && j < |labels| && StepAt(run, labels, j) && r !in run[j].voteResps
    ensures r in VoteRespsAfter(run[j], labels[j])
  {
    assert k > 0;
    assert StepAt(run, labels, k - 1);
    if r in run[k - 1].voteResps {
      j := FirstGiven(run, labels, k - 1, r);
    } else {
      j := k - 1;
    }
  }

  /** Every granted vote of a lock-step run went, when it was first cast, to a candidate whose log at
      its election was at least as up to date as the voter's: the candidate itself, or one whose
      request passed the check. */
  lemma VotesAreUpToDate(run: seq<Cluster>, labels: seq<Label>, k: nat, r: VoteResp) returns (i: nat, j: nat)
    requires IsLockStepRun(run, labels) && k < |run| && r in run[k].voteResps && r.granted
    ensures i <= j < k && j < |labels| && Asks(run[i], labels[i], r.to, r.reqTerm)
    ensures r.voter in run[j].nodes && r !in run[j].voteResps && r in run[j + 1].voteResps
    ensures AtLeastAsUpToDate(run[i].nodes[r.to].log, run[j].nodes[r.voter].log)
  {
    j := FirstGiven(run, labels, k, r);
    VoteCast(run, labels, j, r);
    if labels[j].RecvVoteReq? {
      i := RequestOrigin(run, labels, j, labels[j].vreq);
    } else {
      i := j;
    }
  }

  /** The step that casts a vote: a candidate's own, or one for a request that passed the check. */
  lemma VoteCast(run: seq<Cluster>, labels: seq<Label>, j: nat, r: VoteResp)
    requires IsLockStepRun(run, labels) && j < |labels| && StepAt(run, labels, j)
    requires r !in run[j].voteResps && r in VoteRespsAfter(run[j], labels[j]) && r.granted
    ensures var l := labels[j];
            if l.RecvVoteReq? then
              && l.vreq in run[j].voteReqs && l.n == r.voter && l.vreq.candidate == r.to && l.vreq.term == r.reqTerm
              && r.voter in run[j].nodes && UpToDate(run[j].nodes[r.voter].log, l.vreq)
            else r.voter == r.to && Asks(run[j], l, r.to, r.reqTerm)
  {
    if labels[j].RecvVoteReq? {
      LockStepRunHolds(run, labels, j);
      FreshVote(run[j], labels[j], r);
    }
  }

  // ---------------------------------------------------------------------------
  // Leader Completeness

  /** The log of a leader is a prefix of its term's final log, and holds all of what preceded its election. */
  lemma LeaderAtEnd(run: seq<Cluster>, labels: seq<Label>, i: nat, n: Id)
    requires IsRun(run, labels) && i < |run| && n in run[i].nodes && run[i].nodes[n].role == Leader
    ensures var h, s := run[|run| - 1].h, run[i].nodes[n];
            && s.term in h.leaders && s.term in h.logs && s.term in h.start
            && Agree(s.log, h.logs[s.term], |s.log|) && h.start[s.term] <= |s.log|
  {
    RunHolds(run, labels, i);
    RunGrows(run, labels, i, |run| - 1);
    LeadingLog(run[i], n);
    assert TermLogOk(run[i].h, run[i].nodes[n].term);
  }

  /** What a leader's committed list holds, a majority has stored, for the rest of the run. */
  lemma ListedIsChosen(run: seq<Cluster>, labels: seq<Label>, i: nat, n: Id, index: nat)
    requires IsLockStepRun(run, labels) && i < |run| && n in run[i].nodes
    requires run[i].nodes[n].role == Leader && index in run[i].nodes[n].inflight.committed
    ensures Chosen(run[|run| - 1], run[i].nodes[n].term, index) && 0 < index <= |run[i].nodes[n].log|
  {
    ListedNow(run, labels, i, n, index);
    ChosenForever(run, labels, i, |run| - 1, run[i].nodes[n].term, index);
  }

  lemma ListedNow(run: seq<Cluster>, labels: seq<Label>, i: nat, n: Id, index: nat)
    requires IsLockStepRun(run, labels) && i < |run| && n in run[i].nodes
    requires run[i].nodes[n].role == Leader && index in run[i].nodes[n].inflight.committed
    ensures Chosen(run[i], run[i].nodes[n].term, index) && 0 < index <= |run[i].nodes[n].log|
  {
    LockStepRunHolds(run, labels, i);
    assert LeaderCommitOk(run[i], n);
    assert NodeOk(run[i].ids, n, run[i].nodes[n]);
  }

  /** Once an index is on the committed list of a leader of some term, every leader of a later term,
      whenever it leads, has the same entries up to that index. */
  lemma LeaderCompletenessTheorem(run: seq<Cluster>, labels: seq<Label>, i: nat, j: nat, n: Id, m: Id, index: nat)
    requires IsLockStepRun(run, labels) && i < |run| && j < |run| && n in run[i].nodes && m in run[j].nodes
    requires run[i].nodes[n].role == Leader && index in run[i].nodes[n].inflight.committed
    requires run[j].nodes[m].role == Leader && run[i].nodes[n].term < run[j].nodes[m].term
    ensures Agree(run[i].nodes[n].log, run[j].nodes[m].log, index) && index > 0
  {
    ListedIsChosen(run, labels, i, n, index);
    LeaderAtEnd(run, labels, i, n);
    LeaderAtEnd(run, labels, j, m);
    LockStepRunHolds(run, labels, |run| - 1);
    LeadersCompare(run[|run| - 1], run[i].nodes[n], run[j].nodes[m], index);
  }

  lemma LeadersCompare(c: Cluster, a: State, b: State, index: nat)
    requires Safe(c) && Chosen(c, a.term, index) && a.term < b.term && index <= |a.log|
    requires b.term in c.h.leaders && b.term in c.h.logs && b.term in c.h.start && c.h.start[b.term] <= |b.log|
    requires Agree(a.log, c.h.logs[a.term], |a.log|) && Agree(b.log, c.h.logs[b.term], |b.log|)
    ensures Agree(a.log, b.log, index)
  {
    LaterLeadersHave(c, a.term, index, b.term);
    BeforeElection(c.h, a.term, b.term, index);
  }

  /** Entries a later leader shares with an earlier one precede its election. */
  lemma BeforeElection(h: History, t: nat, u: nat, index: nat)
    requires HistoryOk(h) && t in h.logs && u in h.logs && t < u && Agree(h.logs[t], h.logs[u], index)
    ensures index <= h.start[u]
  {
    assert TermLogOk(h, t) && TermLogOk(h, u);
    if index > h.start[u] {
      AgreeAt(h.logs[t], h.logs[u], index, h.start[u]);
    }
  }

  // ---------------------------------------------------------------------------
  // State Machine Safety

  /** What a node has applied is a prefix that a majority stored. */
  ghost predicate Committed(c: Cluster, p: Log) {
    p == [] || exists t: nat, index: nat :: CommittedBy(c, p, t, index)
  }

  ghost predicate CommittedBy(c: Cluster, p: Log, t: nat, index: nat) {
    Chosen(c, t, index) && |p| <= index && Agree(p, c.h.logs[t], |p|)
  }

  lemma JustifiedCommits(c: Cluster, c': Cluster, s: State, t: nat, index: nat)
    requires JustifiedBy(c, s.term, s.log, |s.applied|, t, index) && AppliedOk(s)
    requires Chosen(c', t, index) && Grows(c.h, c'.h)
    ensures CommittedBy(c', s.applied, t, index)
  {
  }

  lemma CommitOkAt(run: seq<Cluster>, labels: seq<Label>, i: nat, a: Id)
    requires IsLockStepRun(run, labels) && i < |run| && a in run[i].nodes
    ensures NodeCommitOk(run[i], run[i].nodes[a])
  {
    LockStepRunHolds(run, labels, i);
  }

  lemma AppliedIsCommitted(run: seq<Cluster>, labels: seq<Label>, i: nat, a: Id)
    requires IsLockStepRun(run, labels) && i < |run| && a in run[i].nodes
    ensures Committed(run[|run| - 1], run[i].nodes[a].applied)
  {
    var s, last := run[i].nodes[a], |run| - 1;
    CommitOkAt(run, labels, i, a);
    if s.applied != [] {
      var t: nat, index: nat :| JustifiedBy(run[i], s.term, s.log, |s.applied|, t, index);
      ChosenForever(run, labels, i, last, t, index);
      RunGrows(run, labels, i, last);
      JustifiedCommits(run[i], run[last], s, t, index);
    }
  }

  lemma CommittedComparable(c: Cluster, p: Log, q: Log, k: nat)
    requires Safe(c) && Committed(c, p) && Committed(c, q) && k < |p| && k < |q|
    ensures p[k] == q[k]
  {
    var t: nat, i: nat :| CommittedBy(c, p, t, i);
    var u: nat, j: nat :| CommittedBy(c, q, u, j);
    if t <= u {
      ChosenInLeader(c, t, i, u);
      AgreeAt(c.h.logs[t], c.h.logs[u], i, k);
    } else {
      ChosenInLeader(c, u, j, t);
      AgreeAt(c.h.logs[u], c.h.logs[t], j, k);
    }
  }

  /** No two nodes ever apply different entries at the same index, across elections, crashes and
      restarts. */
  lemma StateMachineSafety(run: seq<Cluster>, labels: seq<Label>, i: nat, j: nat, a: Id, b: Id, k: nat)
    requires IsLockStepRun(run, labels) && i < |run| && j < |run| && a in run[i].nodes && b in run[j].nodes
    requires k < |run[i].nodes[a].applied| && k < |run[j].nodes[b].applied|
    ensures run[i].nodes[a].applied[k] == run[j].nodes[b].applied[k]
  {
    AppliedIsCommitted(run, labels, i, a);
    AppliedIsCommitted(run, labels, j, b);
    LockStepRunHolds(run, labels, |run| - 1);
    CommittedComparable(run[|run| - 1], run[i].nodes[a].applied, run[j].nodes[b].applied, k);
  }

  // ---------------------------------------------------------------------------
  // Genuine quorums

  /** An index is on a leader's committed list only if a majority of distinct nodes store it, with the
      leader's own entries up to it. */
  lemma GenuineQuorum(run: seq<Cluster>, labels: seq<Label>, k: nat, n: Id, index: nat) returns (quorum: set<Id>)
    requires IsLockStepRun(run, labels) && k < |run| && n in run[k].nodes
    requires run[k].nodes[n].role == Leader && index in run[k].nodes[n].inflight.committed
    ensures quorum <= run[k].ids && |quorum| >= Majority(|run[k].ids|)
    ensures forall v | v in quorum :: v in run[k].nodes && Agree(run[k].nodes[v].log, run[k].nodes[n].log, index)
  {
    var c := run[k];
    var t := c.nodes[n].term;
    LockStepRunHolds(run, labels, k);
    assert LeaderCommitOk(c, n);
    LeadingLog(c, n);
    quorum := Stored(c, t, index);
    ChosenIsChoosable(c, t, index);
    forall v | v in quorum
      ensures v in c.nodes && Agree(c.nodes[v].log, c.nodes[n].log, index)
    {
      assert Agree(c.nodes[v].log, c.h.logs[t], index);
    }
  }

  /** Does the step make the replicator of `f` in `term` call CommitRange? */
  ghost predicate Commits(l: Label, term: nat, f: Id) {
    l.RecvReply? && Confirms(l.aresp) && l.aresp.req.term == term && l.aresp.req.to == f
  }

  lemma {:induction false} RangesOnlyAppend(run: seq<Cluster>, labels: seq<Label>, i: nat, j: nat, t: nat, f: Id)
    requires IsRun(run, labels) && i <= j < |run|
    ensures Ranges(run[i].h, t, f) <= Ranges(run[j].h, t, f)
    decreases j
  {
    if i < j {
      RangesOnlyAppend(run, labels, i, j - 1, t, f);
      assert StepAt(run, labels, j - 1);
    }
  }

  lemma RangesSorted(c: Cluster, t: nat, f: Id)
    requires ElectionInv(c) && LogInv(c) && LockInv(c) && (t, f) in c.h.ranges
    ensures Sorted(Ranges(c.h, t, f))
  {
    assert WinnerOk(c, t) && TermLogOk(c.h, t);
    assert Paired(c, t, f);
    assert PairOk(PairOf(c, t, f));
  }

  /** The ranges one replicator passes to CommitRange in its leader's term never overlap. */
  lemma RangesDisjoint(run: seq<Cluster>, labels: seq<Label>, i: nat, j: nat, t: nat, f: Id)
    requires IsLockStepRun(run, labels) && i < j < |labels| && Commits(labels[i], t, f) && Commits(labels[j], t, f)
    ensures End(labels[i].aresp.req) < labels[j].aresp.req.prev + 1
  {
    RangeAt(run, labels, i, j, t, f);
    RangeAt(run, labels, i, j + 1, t, f);
    RangeAt(run, labels, j, j + 1, t, f);
    SortedInRun(run, labels, j + 1, t, f);
  }

  lemma SortedInRun(run: seq<Cluster>, labels: seq<Label>, k: nat, t: nat, f: Id)
    requires IsLockStepRun(run, labels) && k < |run|
    ensures Sorted(Ranges(run[k].h, t, f))
  {
    LockStepRunHolds(run, labels, k);
    if (t, f) in run[k].h.ranges {
      RangesSorted(run[k], t, f);
    }
  }

  /** A range, once passed, stays at its place in the record. */
  lemma RangeAt(run: seq<Cluster>, labels: seq<Label>, i: nat, j: nat, t: nat, f: Id)
    requires IsRun(run, labels) && i < j < |run| && Commits(labels[i], t, f)
    ensures |Ranges(run[i].h, t, f)| < |Ranges(run[j].h, t, f)|
    ensures Ranges(run[j].h, t, f)[|Ranges(run[i].h, t, f)|] == (labels[i].aresp.req.prev + 1, End(labels[i].aresp.req))
  {
    RangesOnlyAppend(run, labels, i + 1, j, t, f);
    assert StepAt(run, labels, i);
    RangeAdded(run[i], labels[i], t, f);
  }

  lemma RangeAdded(c: Cluster, l: Label, t: nat, f: Id)
    requires Enabled(c, l) && Commits(l, t, f)
    ensures (t, f) in RangesAfter(c, l)
    ensures Ranges(HistoryAfter(c, l), t, f) == Ranges(c.h, t, f) + [(l.aresp.req.prev + 1, End(l.aresp.req))]
  {
  }

  // ---------------------------------------------------------------------------
  // Safe truncation and commit

  /** A follower that accepts a request keeps every entry it has committed or applied, and the commit
      index it adopts lies within the prefix it shares with the leader it listens to. */
  lemma SafeTruncationTheorem(run: seq<Cluster>, labels: seq<Label>, k: nat, n: Id, req: AppendReq)
    requires IsLockStepRun(run, labels) && k < |labels| && StepAt(run, labels, k)
    requires labels[k] == RecvAppend(n, req) && Accepts(run[k].nodes[n], req)
    ensures var s, r := run[k].nodes[n], run[k + 1].nodes[n];
            && Agree(s.log, r.log, s.commit) && Agree(s.log, r.log, |s.applied|) && s.commit <= r.commit <= |r.log|
            && (req.leader in run[k].nodes && run[k].nodes[req.leader].role == Leader
                  && run[k].nodes[req.leader].term == req.term ==>
                  Agree(r.log, run[k].nodes[req.leader].log, r.commit))
  {
    var c := run[k];
    LockStepRunHolds(run, labels, k);
    assert StepAt(run, labels, k);
    SafeTruncation(c, n, req);
    if req.leader in c.nodes && c.nodes[req.leader].role == Leader && c.nodes[req.leader].term == req.term {
      LeadingLog(c, req.leader);
    }
  }
}
