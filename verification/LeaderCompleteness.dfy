/**
  Leader Completeness (sections 5.4.1-5.4.3): an entry that a leader of term T has replicated to
  a majority is in the log of every leader of a later term, at the same index.

  The invariant speaks of entries that can still get a majority, not only of those that have one:
  a vote may be cast before the entry it must protect is committed.
 */
module LeaderCompleteness {
  import opened Basics
  import opened Node
  import opened Cluster
  import opened NodeFacts
  import opened Election
  import opened LogMatching
  import opened Replication
  import opened LockStep

  /** The nodes that stored `index` of the log of term `t`'s leader. */
  ghost function Stored(c: Cluster, t: nat, index: nat): set<Id> {
    set v | v in c.ids && Acked(c.h, t, v) >= index
  }

  /** The nodes that did, or still may. */
  ghost function Open(c: Cluster, t: nat, index: nat): set<Id> {
    set v | v in c.ids && v in c.nodes && (c.nodes[v].term <= t || Acked(c.h, t, v) >= index)
  }

  /** `index` is an entry the leader of term `t` created in that term. */
  ghost predicate OwnEntry(h: History, t: nat, index: nat) {
    && t in h.leaders && t in h.logs && t in h.start
    && h.start[t] < index <= |h.logs[t]|
  }

  /** A majority has stored the entry. */
  ghost predicate Chosen(c: Cluster, t: nat, index: nat) {
    OwnEntry(c.h, t, index) && |Stored(c, t, index)| >= Majority(|c.ids|)
  }

  /** A majority has stored the entry or may still do so. */
  ghost predicate Choosable(c: Cluster, t: nat, index: nat) {
    OwnEntry(c.h, t, index) && |Open(c, t, index)| >= Majority(|c.ids|)
  }

  lemma ChosenIsChoosable(c: Cluster, t: nat, index: nat)
    requires Chosen(c, t, index) && c.nodes.Keys == c.ids
    ensures Choosable(c, t, index)
  {
    SubsetSize(Stored(c, t, index), Open(c, t, index));
  }

  // ---------------------------------------------------------------------------
  // The invariant

  /** Later leaders have every choosable entry. */
  ghost predicate Complete(c: Cluster) {
    forall t: nat, t': nat, index: nat | t' in c.h.leaders && t' in c.h.logs && t < t' && Choosable(c, t, index) ::
      Agree(c.h.logs[t], c.h.logs[t'], index)
  }

  /** A node that stored a choosable entry still has it. */
  ghost predicate Durable(c: Cluster) {
    forall v: Id, t: nat, index: nat | v in c.nodes && Choosable(c, t, index) && Acked(c.h, t, v) >= index ::
      Agree(c.nodes[v].log, c.h.logs[t], index)
  }

  /** A candidate has every choosable entry that one of its voters stored. */
  ghost predicate CandidateOk(c: Cluster, r: VoteResp) {
    r.granted && r.to in c.nodes && c.nodes[r.to].role == Candidate && c.nodes[r.to].term == r.reqTerm ==>
      forall t: nat, index: nat | t < r.reqTerm && Choosable(c, t, index) && Acked(c.h, t, r.voter) >= index ::
        Agree(c.nodes[r.to].log, c.h.logs[t], index)
  }

  /** A vote request describes the log of its candidate as long as it is one in that term. */
  ghost predicate VoteReqOk(c: Cluster, req: VoteReq) {
    && req.candidate in c.nodes
    && req.term <= c.nodes[req.candidate].term
    && (c.nodes[req.candidate].role == Candidate && c.nodes[req.candidate].term == req.term ==>
          req.lastIndex == |c.nodes[req.candidate].log| && req.lastTerm == LastTerm(c.nodes[req.candidate].log))
  }

  ghost predicate VotesOnFile(c: Cluster) {
    && (forall n | n in c.nodes && c.nodes[n].voteCand != None ::
          Grant(c.nodes[n].voteTerm, n, c.nodes[n].voteCand.value) in c.voteResps)
    && (forall r | r in c.voteResps && r.granted :: r.to in c.nodes && r.reqTerm <= c.nodes[r.to].term)
    && (forall req | req in c.voteReqs :: VoteReqOk(c, req))
  }

  ghost predicate CompleteInv(c: Cluster) {
    && Complete(c)
    && Durable(c)
    && (forall r | r in c.voteResps :: CandidateOk(c, r))
    && VotesOnFile(c)
  }

  lemma CompleteInit(c: Cluster)
    requires Init(c)
    ensures CompleteInv(c)
  {
  }

  // ---------------------------------------------------------------------------
  // A vote for an up-to-date log

  /** The log of a candidate that is at least as up to date as a voter's has what the voter's has. */
  lemma UpToDateHas(h: History, vlog: Log, clog: Log, t: nat, index: nat)
    requires HistoryOk(h) && LogOk(h.logs, vlog) && LogOk(h.logs, clog) && OwnEntry(h, t, index)
    requires Agree(vlog, h.logs[t], index)
    requires LastTerm(vlog) <= LastTerm(clog) && (LastTerm(vlog) == LastTerm(clog) ==> |vlog| <= |clog|)
    requires forall u | u in h.logs && t < u :: Agree(h.logs[t], h.logs[u], index)
    ensures Agree(clog, h.logs[t], index)
  {
    assert TermLogOk(h, t);
    assert vlog[index - 1].term == t;
    TermsSorted(h, vlog, index - 1, |vlog| - 1);
    var u := LastTerm(clog);
    assert clog[|clog| - 1].term == u >= t;
    assert Agree(clog, h.logs[u], |clog|);
    if u == LastTerm(vlog) {
      assert Agree(vlog, h.logs[u], |vlog|);
    } else {
      LongEnough(h, clog, t, u, index);
    }
  }

  lemma LongEnough(h: History, clog: Log, t: nat, u: nat, index: nat)
    requires HistoryOk(h) && OwnEntry(h, t, index) && u in h.logs && t < u
    requires 0 < |clog| && clog[|clog| - 1].term == u && Agree(clog, h.logs[u], |clog|)
    requires Agree(h.logs[t], h.logs[u], index)
    ensures index <= |clog|
  {
    assert TermLogOk(h, t);
  }

  // ---------------------------------------------------------------------------
  // What can still be chosen only shrinks

  /** Terms never go back, and a node stores entries of a term only while it is in that term. */
  ghost predicate Forward(c: Cluster, c': Cluster, t: nat, index: nat) {
    && c'.ids == c.ids && c'.nodes.Keys == c.nodes.Keys == c.ids
    && forall v | v in c.nodes ::
         && c.nodes[v].term <= c'.nodes[v].term
         && (Acked(c'.h, t, v) >= index ==> Acked(c.h, t, v) >= index || c.nodes[v].term <= t)
  }

  lemma ChoosableBack(c: Cluster, c': Cluster, t: nat, index: nat)
    requires Forward(c, c', t, index) && Choosable(c', t, index) && OwnEntry(c.h, t, index)
    ensures Choosable(c, t, index)
  {
    SubsetSize(Open(c', t, index), Open(c, t, index));
  }

  lemma TermForward(c: Cluster, l: Label)
    requires Enabled(c, l)
    ensures c.nodes[l.n].term <= NodeAfter(c, l).term
  {
    if !Voting(l) {
      QuietLabel(c, l);
    }
  }

  lemma AckForward(c: Cluster, l: Label, t: nat, v: Id)
    requires Enabled(c, l) && v in c.nodes
    ensures Acked(HistoryAfter(c, l), t, v) == Acked(c.h, t, v) || (v == l.n && c.nodes[v].term <= t)
    ensures !l.DoDispatch? && !l.RecvAppend? && !Winning(c, l) ==> Acked(HistoryAfter(c, l), t, v) == Acked(c.h, t, v)
  {
  }

  lemma StepForward(c: Cluster, l: Label, t: nat, index: nat)
    requires Enabled(c, l) && c.nodes.Keys == c.ids
    ensures Forward(c, Apply(c, l), t, index)
  {
    StepIsLocal(c, l);
    TermForward(c, l);
    forall v | v in c.nodes
      ensures c.nodes[v].term <= Apply(c, l).nodes[v].term
      ensures Acked(HistoryAfter(c, l), t, v) >= index ==> Acked(c.h, t, v) >= index || c.nodes[v].term <= t
    {
      AckForward(c, l, t, v);
    }
  }

  /** Is the entry older than the step? Otherwise the step is a dispatch that creates it. */
  lemma OldOrNew(c: Cluster, l: Label, t: nat, index: nat)
    requires ElectionInv(c) && LogInv(c) && Enabled(c, l) && OwnEntry(HistoryAfter(c, l), t, index)
    ensures OwnEntry(c.h, t, index)
         || (l.DoDispatch? && t == c.nodes[l.n].term && t in c.h.leaders && c.h.leaders[t] == l.n && t in c.h.logs
               && |c.h.logs[t]| < index)
  {
    if l.DoDispatch? {
      LeadingLog(c, l.n);
    }
    EntriesAfter(c, l, t, index);
  }

  lemma EntriesAfter(c: Cluster, l: Label, t: nat, index: nat)
    requires Enabled(c, l) && HistoryOk(c.h) && OwnEntry(HistoryAfter(c, l), t, index)
    requires l.DoDispatch? ==> c.nodes[l.n].term in c.h.logs && c.nodes[l.n].log == c.h.logs[c.nodes[l.n].term]
    ensures OwnEntry(c.h, t, index) || (l.DoDispatch? && t == c.nodes[l.n].term && |c.h.logs[t]| < index)
  {
  }

  // ---------------------------------------------------------------------------
  // Later leaders keep having every choosable entry

  ghost predicate Safe(c: Cluster) {
    ElectionInv(c) && LogInv(c) && LockInv(c) && CompleteInv(c)
  }

  lemma AckBound(c: Cluster, t: nat, v: Id)
    requires ElectionInv(c) && LogInv(c) && LockInv(c) && t in c.h.leaders && v in c.nodes
    ensures t in c.h.logs && Acked(c.h, t, v) <= |c.h.logs[t]|
    ensures Acked(c.h, t, v) > 0 ==> c.nodes[v].term >= t
  {
    assert WinnerOk(c, t) && TermLogOk(c.h, t);
    if v != c.h.leaders[t] {
      assert Paired(c, t, v);
      assert FollowerOk(PairOf(c, t, v));
    }
  }

  /** A voter is in the term of its vote or a later one. */
  lemma VoterTerm(c: Cluster, t: nat, v: Id, cand: Id)
    requires ElectionInv(c) && Grant(t, v, cand) in c.voteResps
    ensures v in c.nodes && c.nodes[v].term >= t
  {
    assert VoteKept(c, Grant(t, v, cand));
  }

  /** A winner has every choosable entry of the earlier terms. */
  lemma WinnerHas(c: Cluster, n: Id, t: nat, index: nat)
    requires ElectionInv(c) && CompleteInv(c) && n in c.nodes && c.nodes[n].role == Candidate
    requires |Voters(c.voteResps, c.nodes[n].term, n, c.ids)| >= Majority(|c.ids|)
    requires t < c.nodes[n].term && Choosable(c, t, index)
    ensures Agree(c.nodes[n].log, c.h.logs[t], index)
  {
    var u := c.nodes[n].term;
    var v := MajoritiesMeet(c.ids, Open(c, t, index), Voters(c.voteResps, u, n, c.ids));
    VoterTerm(c, u, v, n);
    assert CandidateOk(c, Grant(u, v, n));
  }

  lemma MajorityExcluded<T>(ids: set<T>, a: set<T>, b: set<T>)
    requires a <= ids && b <= ids && a !! b && |b| >= Majority(|ids|)
    ensures |a| < Majority(|ids|)
  {
    assert |a + b| == |a| + |b|;
    SubsetSize(a + b, ids);
  }

  /** An entry created after a later term was won can no longer be chosen. */
  lemma NewEntryClosed(c: Cluster, l: Label, t: nat, t': nat, index: nat)
    requires Enabled(c, l) && l.DoDispatch?
    requires t == c.nodes[l.n].term && t in c.h.leaders && t in c.h.logs && |c.h.logs[t]| < index
    requires t' in c.h.leaders && t < t'
    requires ElectionInv(c) && LogInv(c) && LockInv(c)
    ensures |Open(Apply(c, l), t, index)| < Majority(|c.ids|)
  {
    assert WinnerOk(c, t');
    var voters := Voters(c.voteResps, t', c.h.leaders[t'], c.ids);
    var open := Open(Apply(c, l), t, index);
    forall v | v in voters
      ensures v !in open
    {
      VoterClosed(c, l, t, t', v, index);
    }
    MajorityExcluded(c.ids, open, voters);
  }

  lemma VoterClosed(c: Cluster, l: Label, t: nat, t': nat, v: Id, index: nat)
    requires ElectionInv(c) && LogInv(c) && LockInv(c) && Enabled(c, l) && l.DoDispatch?
    requires t == c.nodes[l.n].term && t in c.h.leaders && t in c.h.logs && |c.h.logs[t]| < index
    requires t' in c.h.leaders && t < t' && Grant(t', v, c.h.leaders[t']) in c.voteResps
    ensures v !in Open(Apply(c, l), t, index)
  {
    VoterTerm(c, t', v, c.h.leaders[t']);
    AckBound(c, t, v);
    ClosedByDispatch(c, l, t, v, index);
  }

  lemma ClosedByDispatch(c: Cluster, l: Label, t: nat, v: Id, index: nat)
    requires Enabled(c, l) && l.DoDispatch? && t == c.nodes[l.n].term
    requires v in c.nodes && c.nodes[v].term > t && Acked(c.h, t, v) < index
    ensures v !in Open(Apply(c, l), t, index)
  {
    AckForward(c, l, t, v);
  }

  lemma CompletePoint(c: Cluster, l: Label, t: nat, t': nat, index: nat)
    requires Safe(c) && Enabled(c, l)
    requires t' in LeadersAfter(c, l) && t' in LogsAfter(c, l) && t < t' && Choosable(Apply(c, l), t, index)
    ensures Agree(LogsAfter(c, l)[t], LogsAfter(c, l)[t'], index)
  {
    OldOrNew(c, l, t, index);
    if OwnEntry(c.h, t, index) {
      StepForward(c, l, t, index);
      ChoosableBack(c, Apply(c, l), t, index);
      CompleteOld(c, l, t, t', index);
    } else {
      NewEntryClosed(c, l, t, t', index);
    }
  }

  lemma CompleteOld(c: Cluster, l: Label, t: nat, t': nat, index: nat)
    requires Safe(c) && Enabled(c, l) && t' in LeadersAfter(c, l) && t < t' && Choosable(c, t, index)
    ensures t in LogsAfter(c, l) && t' in LogsAfter(c, l) && Agree(LogsAfter(c, l)[t], LogsAfter(c, l)[t'], index)
  {
    HistoryStep(c, l);
    if t' in c.h.leaders {
      CompleteGrows(c, HistoryAfter(c, l), t, t', index);
    } else {
      WinIsNew(c, l.n, l.vresp);
      WinnerHas(c, l.n, t, index);
      AgreeGrows(c.nodes[l.n].log, c.h.logs[t], c.nodes[l.n].log, LogsAfter(c, l)[t], index);
    }
  }

  lemma CompleteGrows(c: Cluster, h': History, t: nat, t': nat, index: nat)
    requires Complete(c) && HistoryOk(c.h) && Grows(c.h, h') && Choosable(c, t, index) && t < t' && t' in c.h.leaders
    ensures Agree(h'.logs[t], h'.logs[t'], index)
  {
    assert Agree(c.h.logs[t], c.h.logs[t'], index);
  }

  // ---------------------------------------------------------------------------
  // Nodes keep what they stored

  lemma DurablePoint(c: Cluster, l: Label, v: Id, t: nat, index: nat)
    requires Safe(c) && Enabled(c, l) && InOrder(c, l) && LockInv(Apply(c, l))
    requires v in c.nodes && Choosable(Apply(c, l), t, index) && Acked(HistoryAfter(c, l), t, v) >= index
    ensures Agree(Apply(c, l).nodes[v].log, LogsAfter(c, l)[t], index)
  {
    OldOrNew(c, l, t, index);
    if !OwnEntry(c.h, t, index) {
      OwnNewEntry(c, l, v, t, index);
    } else {
      StepForward(c, l, t, index);
      ChoosableBack(c, Apply(c, l), t, index);
      DurableOld(c, l, v, t, index);
    }
  }

  lemma DurableOld(c: Cluster, l: Label, v: Id, t: nat, index: nat)
    requires Safe(c) && Enabled(c, l) && InOrder(c, l) && LockInv(Apply(c, l))
    requires v in c.nodes && Choosable(c, t, index) && Acked(HistoryAfter(c, l), t, v) >= index
    ensures t in LogsAfter(c, l) && Agree(Apply(c, l).nodes[v].log, LogsAfter(c, l)[t], index)
  {
    if l.RecvAppend? && v == l.n {
      DurableReceive(c, l, t, index);
      ReceiverLog(c, l, t, index);
    } else if Acked(c.h, t, v) >= index {
      assert Agree(c.nodes[v].log, c.h.logs[t], index);
      DurableStays(c, l, v, t, index);
    } else {
      DurableOwn(c, l, v, t, index);
    }
  }

  lemma ReceiverLog(c: Cluster, l: Label, t: nat, index: nat)
    requires Enabled(c, l) && l.RecvAppend? && t in c.h.logs && Agree(NodeAfter(c, l).log, c.h.logs[t], index)
    ensures t in LogsAfter(c, l) && Agree(Apply(c, l).nodes[l.n].log, LogsAfter(c, l)[t], index)
  {
  }

  /** Only its leader has stored an entry that was just created. */
  lemma OwnNewEntry(c: Cluster, l: Label, v: Id, t: nat, index: nat)
    requires ElectionInv(c) && LogInv(c) && LockInv(c) && Enabled(c, l) && l.DoDispatch? && v in c.nodes
    requires t == c.nodes[l.n].term && t in c.h.leaders && c.h.leaders[t] == l.n && t in c.h.logs
    requires |c.h.logs[t]| < index
    requires Acked(HistoryAfter(c, l), t, v) >= index && t in LogsAfter(c, l) && index <= |LogsAfter(c, l)[t]|
    ensures Agree(Apply(c, l).nodes[v].log, LogsAfter(c, l)[t], index)
  {
    LeadingLog(c, l.n);
    if v != l.n {
      AckForward(c, l, t, v);
      AckBound(c, t, v);
    }
  }

  lemma DurableReceive(c: Cluster, l: Label, t: nat, index: nat)
    requires Safe(c) && Enabled(c, l) && InOrder(c, l) && LockInv(Apply(c, l)) && l.RecvAppend?
    requires Choosable(c, t, index) && Acked(HistoryAfter(c, l), t, l.n) >= index
    ensures Agree(NodeAfter(c, l).log, c.h.logs[t], index)
  {
    ReceiverPaired(c, l);
    if !Accepts(c.nodes[l.n], l.areq) {
      assert Agree(c.nodes[l.n].log, c.h.logs[t], index);
      RejectedLog(c.nodes[l.n], l.areq);
    } else if t == l.areq.term {
      DurableSameTerm(c, l, index);
    } else {
      DurableOtherTerm(c, l, t, index);
    }
  }

  /** The receiver of a request and its leader are a pair. */
  lemma ReceiverPaired(c: Cluster, l: Label)
    requires ElectionInv(c) && LogInv(c) && Enabled(c, l) && l.RecvAppend?
    ensures ReqOk(c.ids, c.h, l.areq) && Paired(c, l.areq.term, l.n)
  {
    assert ReqOk(c.ids, c.h, l.areq);
    assert WinnerOk(c, l.areq.term) && TermLogOk(c.h, l.areq.term);
  }

  lemma DurableSameTerm(c: Cluster, l: Label, index: nat)
    requires ElectionInv(c) && LogInv(c) && Enabled(c, l) && LockInv(Apply(c, l)) && l.RecvAppend?
    requires Accepts(c.nodes[l.n], l.areq) && Paired(c, l.areq.term, l.n)
    requires OwnEntry(c.h, l.areq.term, index) && Acked(HistoryAfter(c, l), l.areq.term, l.n) >= index
    ensures Agree(NodeAfter(c, l).log, c.h.logs[l.areq.term], index)
  {
    PairStays(c, l, l.areq.term, l.n);
    assert FollowerOk(PairOf(Apply(c, l), l.areq.term, l.n));
    AcceptedTerm(c.nodes[l.n], l.areq);
  }

  lemma DurableOtherTerm(c: Cluster, l: Label, t: nat, index: nat)
    requires Safe(c) && Enabled(c, l) && InOrder(c, l) && l.RecvAppend? && Accepts(c.nodes[l.n], l.areq)
    requires Paired(c, l.areq.term, l.n) && t != l.areq.term
    requires Choosable(c, t, index) && Acked(HistoryAfter(c, l), t, l.n) >= index
    ensures Agree(NodeAfter(c, l).log, c.h.logs[t], index)
  {
    var s, u := c.nodes[l.n], l.areq.term;
    AckBound(c, t, l.n);
    assert Agree(s.log, c.h.logs[t], index);
    assert Agree(c.h.logs[t], c.h.logs[u], index);
    FollowerDeliver(c, l, u, l.n);
    AgreeThree(s.log, NodeAfter(c, l).log, c.h.logs[t], c.h.logs[u], index);
  }

  lemma AgreeThree(a: Log, a': Log, b: Log, d: Log, n: nat)
    requires Agree(a, b, n) && Agree(b, d, n) && (Agree(a, d, n) ==> Agree(a', d, n))
    ensures Agree(a', b, n)
  {
  }

  lemma RejectedLog(s: State, req: AppendReq)
    requires !Accepts(s, req)
    ensures AppendEntries(s, req).log == s.log
  {
  }

  lemma AcceptedTerm(s: State, req: AppendReq)
    requires Accepts(s, req)
    ensures AppendEntries(s, req).term == req.term
  {
  }

  /** Outside AppendEntries a log only grows. */
  lemma LogGrowsAt(c: Cluster, l: Label, v: Id)
    requires LogInv(c) && Enabled(c, l) && !(l.RecvAppend? && v == l.n) && v in c.nodes
    ensures Agree(c.nodes[v].log, Apply(c, l).nodes[v].log, |c.nodes[v].log|)
  {
    if v == l.n && !l.DoDispatch? {
      FollowerKeepsLog(c, l);
    }
  }

  lemma AgreeGrows(a: Log, b: Log, a': Log, b': Log, n: nat)
    requires Agree(a, b, n) && Agree(a, a', |a|) && Agree(b, b', |b|)
    ensures Agree(a', b', n)
  {
  }

  lemma DurableStays(c: Cluster, l: Label, v: Id, t: nat, index: nat)
    requires ElectionInv(c) && LogInv(c) && Enabled(c, l) && !(l.RecvAppend? && v == l.n) && v in c.nodes
    requires t in c.h.logs && Agree(c.nodes[v].log, c.h.logs[t], index)
    ensures t in LogsAfter(c, l) && Agree(Apply(c, l).nodes[v].log, LogsAfter(c, l)[t], index)
  {
    HistoryStep(c, l);
    LogGrowsAt(c, l, v);
    AgreeGrows(c.nodes[v].log, c.h.logs[t], Apply(c, l).nodes[v].log, LogsAfter(c, l)[t], index);
  }

  /** A leader's own log is its history. */
  lemma DurableOwn(c: Cluster, l: Label, v: Id, t: nat, index: nat)
    requires ElectionInv(c) && LogInv(c) && Enabled(c, l) && v in c.nodes && !(l.RecvAppend? && v == l.n)
    requires Acked(HistoryAfter(c, l), t, v) >= index && Acked(c.h, t, v) < index && OwnEntry(c.h, t, index)
    ensures t in LogsAfter(c, l) && Agree(Apply(c, l).nodes[v].log, LogsAfter(c, l)[t], index)
  {
    AckForward(c, l, t, v);
    if Winning(c, l) {
      WinIsNew(c, l.n, l.vresp);
    }
    OwnAckIsDispatch(c, l, t, index);
    LeadingLog(c, l.n);
    DispatchedLog(c, l, index);
  }

  /** Outside AppendEntries only a dispatch makes a node store more of a log that has a leader. */
  lemma OwnAckIsDispatch(c: Cluster, l: Label, t: nat, index: nat)
    requires Enabled(c, l) && !l.RecvAppend? && (Winning(c, l) ==> c.nodes[l.n].term != t)
    requires Acked(HistoryAfter(c, l), t, l.n) >= index && Acked(c.h, t, l.n) < index
    ensures l.DoDispatch? && c.nodes[l.n].term == t
  {
  }

  lemma DispatchedLog(c: Cluster, l: Label, index: nat)
    requires Enabled(c, l) && l.DoDispatch? && OwnEntry(c.h, c.nodes[l.n].term, index)
    requires c.nodes[l.n].log == c.h.logs[c.nodes[l.n].term]
    ensures c.nodes[l.n].term in LogsAfter(c, l)
    ensures Agree(NodeAfter(c, l).log, LogsAfter(c, l)[c.nodes[l.n].term], index)
  {
  }

  // ---------------------------------------------------------------------------
  // Candidates

  /** A node votes for a candidate whose log has what the voter stored. */
  lemma VoteProtects(c: Cluster, v: Id, req: VoteReq, t: nat, index: nat)
    requires Safe(c) && v in c.nodes && req in c.voteReqs && UpToDate(c.nodes[v].log, req)
    requires req.candidate in c.nodes && c.nodes[req.candidate].role == Candidate
    requires c.nodes[req.candidate].term == req.term
    requires Choosable(c, t, index) && Acked(c.h, t, v) >= index
    ensures Agree(c.nodes[req.candidate].log, c.h.logs[t], index)
  {
    assert VoteReqOk(c, req);
    assert NodeLogOk(c.h, c.nodes[v]) && NodeLogOk(c.h, c.nodes[req.candidate]);
    assert Agree(c.nodes[v].log, c.h.logs[t], index);
    forall u | u in c.h.logs && t < u
      ensures Agree(c.h.logs[t], c.h.logs[u], index)
    {
    }
    UpToDateHas(c.h, c.nodes[v].log, c.nodes[req.candidate].log, t, index);
  }

  /** A node is a candidate after a step other than an election only if it was one, in the same term
      and with the same log. */
  lemma CandidateBefore(c: Cluster, l: Label)
    requires Enabled(c, l) && !l.StartElection? && NodeAfter(c, l).role == Candidate
    ensures c.nodes[l.n].role == Candidate && c.nodes[l.n].term == NodeAfter(c, l).term
    ensures c.nodes[l.n].log == NodeAfter(c, l).log
  {
    if l.RecvAppend? || l.RecvHeartbeat? {
      CandidateAfterAppend(c.nodes[l.n], l.areq);
    } else {
      CandidateElsewhere(c, l);
      if !l.DoDispatch? {
        UntouchedLog(c, l);
      }
    }
  }

  lemma CandidateAfterAppend(s: State, req: AppendReq)
    requires AppendEntries(s, req).role == Candidate
    ensures AppendEntries(s, req) == s
  {
  }

  lemma CandidateElsewhere(c: Cluster, l: Label)
    requires Enabled(c, l) && !l.StartElection? && !l.RecvAppend? && !l.RecvHeartbeat?
    requires NodeAfter(c, l).role == Candidate
    ensures c.nodes[l.n].role == Candidate && c.nodes[l.n].term == NodeAfter(c, l).term && !l.DoDispatch?
  {
    if !Voting(l) {
      QuietLabel(c, l);
    }
  }

  /** The candidate of an old vote has not moved. */
  lemma SameCandidate(c: Cluster, l: Label, r: VoteResp)
    requires LogInv(c) && VotesOnFile(c) && Enabled(c, l) && r in c.voteResps && r.granted
    requires r.to in Apply(c, l).nodes && Apply(c, l).nodes[r.to].role == Candidate
    requires Apply(c, l).nodes[r.to].term == r.reqTerm
    ensures r.to in c.nodes && c.nodes[r.to].role == Candidate && c.nodes[r.to].term == r.reqTerm
    ensures Apply(c, l).nodes[r.to].log == c.nodes[r.to].log
  {
    if r.to == l.n && !l.StartElection? {
      CandidateBefore(c, l);
    }
  }

  /** What a voter stored in an earlier term it had stored before this step. */
  lemma VoterStored(c: Cluster, l: Label, r: VoteResp, t: nat, index: nat)
    requires ElectionInv(c) && LogInv(c) && LockInv(c) && Enabled(c, l) && r in c.voteResps && r.granted
    requires t < r.reqTerm
    requires OwnEntry(HistoryAfter(c, l), t, index) && Acked(HistoryAfter(c, l), t, r.voter) >= index
    ensures OwnEntry(c.h, t, index) && Acked(c.h, t, r.voter) >= index
  {
    assert VoteKept(c, r);
    AckForward(c, l, t, r.voter);
    OldOrNew(c, l, t, index);
    if !OwnEntry(c.h, t, index) {
      AckBound(c, t, r.voter);
    }
  }

  lemma OldVotePoint(c: Cluster, l: Label, r: VoteResp, t: nat, index: nat)
    requires Safe(c) && Enabled(c, l) && r in c.voteResps && r.granted && t < r.reqTerm
    requires r.to in Apply(c, l).nodes && Apply(c, l).nodes[r.to].role == Candidate
    requires Apply(c, l).nodes[r.to].term == r.reqTerm
    requires Choosable(Apply(c, l), t, index) && Acked(HistoryAfter(c, l), t, r.voter) >= index
    ensures Agree(Apply(c, l).nodes[r.to].log, LogsAfter(c, l)[t], index)
  {
    SameCandidate(c, l, r);
    VoterStored(c, l, r, t, index);
    StepForward(c, l, t, index);
    ChoosableBack(c, Apply(c, l), t, index);
    assert CandidateOk(c, r);
    HistoryStep(c, l);
    AgreeGrows(c.nodes[r.to].log, c.h.logs[t], c.nodes[r.to].log, LogsAfter(c, l)[t], index);
  }

  lemma NewVotePoint(c: Cluster, l: Label, r: VoteResp, t: nat, index: nat)
    requires Safe(c) && Enabled(c, l) && r in VoteRespsAfter(c, l) && r !in c.voteResps && r.granted && t < r.reqTerm
    requires r.to in Apply(c, l).nodes && Apply(c, l).nodes[r.to].role == Candidate
    requires Apply(c, l).nodes[r.to].term == r.reqTerm
    requires Choosable(Apply(c, l), t, index) && Acked(HistoryAfter(c, l), t, r.voter) >= index
    ensures Agree(Apply(c, l).nodes[r.to].log, LogsAfter(c, l)[t], index)
  {
    NewVoter(c, l, r);
    VotePointBack(c, l, t, index);
    if l.StartElection? {
      OwnVote(c, l, t, index);
    } else {
      FreshVote(c, l, r);
      VoteProtects(c, l.n, l.vreq, t, index);
    }
  }

  /** Who casts a new vote, and that this changes no history. */
  lemma NewVoter(c: Cluster, l: Label, r: VoteResp)
    requires Enabled(c, l) && r in VoteRespsAfter(c, l) && r !in c.voteResps
    ensures (l.StartElection? || l.RecvVoteReq?) && r.voter == l.n && HistoryAfter(c, l) == c.h
    ensures l.StartElection? ==> r.to == l.n
  {
  }

  /** Casting votes makes no entry choosable. */
  lemma VotePointBack(c: Cluster, l: Label, t: nat, index: nat)
    requires Enabled(c, l) && c.nodes.Keys == c.ids && (l.StartElection? || l.RecvVoteReq?)
    requires Choosable(Apply(c, l), t, index)
    ensures Choosable(c, t, index)
  {
    StepForward(c, l, t, index);
    ChoosableBack(c, Apply(c, l), t, index);
  }

  /** A candidate votes for itself with everything it stored. */
  lemma OwnVote(c: Cluster, l: Label, t: nat, index: nat)
    requires Durable(c) && Enabled(c, l) && l.StartElection? && Choosable(c, t, index) && Acked(c.h, t, l.n) >= index
    ensures Agree(Apply(c, l).nodes[l.n].log, LogsAfter(c, l)[t], index)
  {
    assert Agree(c.nodes[l.n].log, c.h.logs[t], index);
  }

  /** A vote that is not a repeated one passed the up-to-date check. */
  lemma FreshVote(c: Cluster, l: Label, r: VoteResp)
    requires VotesOnFile(c) && Enabled(c, l) && l.RecvVoteReq? && r in VoteRespsAfter(c, l) && r !in c.voteResps
    requires r.granted
    ensures UpToDate(c.nodes[l.n].log, l.vreq) && r.voter == l.n && r.to == l.vreq.candidate && r.reqTerm == l.vreq.term
    ensures Apply(c, l).nodes[r.to] == c.nodes[r.to]
  {
    assert VoteReqOk(c, l.vreq);
  }

  lemma CandidateStep(c: Cluster, l: Label, r: VoteResp)
    requires Safe(c) && Enabled(c, l) && r in VoteRespsAfter(c, l)
    ensures CandidateOk(Apply(c, l), r)
  {
    var c' := Apply(c, l);
    if r.granted && r.to in c'.nodes && c'.nodes[r.to].role == Candidate && c'.nodes[r.to].term == r.reqTerm {
      forall t: nat, index: nat | t < r.reqTerm && Choosable(c', t, index) && Acked(c'.h, t, r.voter) >= index
        ensures Agree(c'.nodes[r.to].log, c'.h.logs[t], index)
      {
        if r in c.voteResps {
          OldVotePoint(c, l, r, t, index);
        } else {
          NewVotePoint(c, l, r, t, index);
        }
      }
    }
  }

  // ---------------------------------------------------------------------------
  // Votes and vote requests

  lemma VoteReqStep(c: Cluster, l: Label, req: VoteReq)
    requires VotesOnFile(c) && Enabled(c, l) && req in VoteReqsAfter(c, l)
    ensures VoteReqOk(Apply(c, l), req)
  {
    if req in c.voteReqs {
      assert VoteReqOk(c, req);
      OldVoteReq(c, l, req);
    } else {
      NewVoteReq(c, l, req);
    }
  }

  lemma OldVoteReq(c: Cluster, l: Label, req: VoteReq)
    requires Enabled(c, l) && VoteReqOk(c, req)
    ensures VoteReqOk(Apply(c, l), req)
  {
    if req.candidate == l.n {
      TermForward(c, l);
      if !l.StartElection? && NodeAfter(c, l).role == Candidate {
        CandidateBefore(c, l);
      }
    }
  }

  lemma NewVoteReq(c: Cluster, l: Label, req: VoteReq)
    requires Enabled(c, l) && req in VoteReqsAfter(c, l) && req !in c.voteReqs
    ensures VoteReqOk(Apply(c, l), req)
  {
  }

  lemma VoteFileStep(c: Cluster, l: Label)
    requires VotesOnFile(c) && Enabled(c, l) && InOrder(c, l) && NodeAfter(c, l).voteCand != None
    ensures Grant(NodeAfter(c, l).voteTerm, l.n, NodeAfter(c, l).voteCand.value) in VoteRespsAfter(c, l)
  {
    if !Voting(l) {
      QuietLabel(c, l);
    }
  }

  lemma GrantStep(c: Cluster, l: Label, r: VoteResp)
    requires VotesOnFile(c) && Enabled(c, l) && r in VoteRespsAfter(c, l) && r.granted
    ensures r.to in Apply(c, l).nodes && r.reqTerm <= Apply(c, l).nodes[r.to].term
  {
    TermForward(c, l);
    if r !in c.voteResps && l.RecvVoteReq? {
      assert VoteReqOk(c, l.vreq);
    }
  }

  lemma VotesOnFileStep(c: Cluster, l: Label)
    requires VotesOnFile(c) && Enabled(c, l) && InOrder(c, l)
    ensures VotesOnFile(Apply(c, l))
  {
    var c' := Apply(c, l);
    forall n | n in c'.nodes && c'.nodes[n].voteCand != None
      ensures Grant(c'.nodes[n].voteTerm, n, c'.nodes[n].voteCand.value) in c'.voteResps
    {
      if n == l.n {
        VoteFileStep(c, l);
      } else {
        assert Grant(c.nodes[n].voteTerm, n, c.nodes[n].voteCand.value) in c.voteResps;
      }
    }
    forall r | r in c'.voteResps && r.granted
      ensures r.to in c'.nodes && r.reqTerm <= c'.nodes[r.to].term
    {
      GrantStep(c, l, r);
    }
    forall req | req in c'.voteReqs
      ensures VoteReqOk(c', req)
    {
      VoteReqStep(c, l, req);
    }
  }

  /** Every lock-step step keeps all four invariants. */
  lemma SafeStep(c: Cluster, l: Label)
    requires Safe(c) && Enabled(c, l) && InOrder(c, l)
    ensures Safe(Apply(c, l))
  {
    ElectionStep(c, l);
    LogStep(c, l);
    LockStepStep(c, l);
    CompleteInvStep(c, l);
  }

  lemma CompleteInvStep(c: Cluster, l: Label)
    requires Safe(c) && Enabled(c, l) && InOrder(c, l) && LockInv(Apply(c, l))
    ensures CompleteInv(Apply(c, l))
  {
    VotesOnFileStep(c, l);
    CompleteStep(c, l);
    DurableStep(c, l);
    forall r | r in Apply(c, l).voteResps
      ensures CandidateOk(Apply(c, l), r)
    {
      CandidateStep(c, l, r);
    }
  }

  lemma CompleteStep(c: Cluster, l: Label)
    requires Safe(c) && Enabled(c, l)
    ensures Complete(Apply(c, l))
  {
    var c' := Apply(c, l);
    forall t: nat, t': nat, index: nat | t' in c'.h.leaders && t' in c'.h.logs && t < t' && Choosable(c', t, index)
      ensures Agree(c'.h.logs[t], c'.h.logs[t'], index)
    {
      CompletePoint(c, l, t, t', index);
    }
  }

  lemma DurableStep(c: Cluster, l: Label)
    requires Safe(c) && Enabled(c, l) && InOrder(c, l) && LockInv(Apply(c, l))
    ensures Durable(Apply(c, l))
  {
    var c' := Apply(c, l);
    forall v: Id, t: nat, index: nat | v in c'.nodes && Choosable(c', t, index) && Acked(c'.h, t, v) >= index
      ensures Agree(c'.nodes[v].log, c'.h.logs[t], index)
    {
      DurablePoint(c, l, v, t, index);
    }
  }

  /** Leader Completeness: an entry a majority has stored is in the log of every later leader. */
  lemma LaterLeadersHave(c: Cluster, t: nat, index: nat, t': nat)
    requires Safe(c) && Chosen(c, t, index) && t' in c.h.leaders && t < t'
    ensures t' in c.h.logs && Agree(c.h.logs[t], c.h.logs[t'], index)
  {
    ChosenIsChoosable(c, t, index);
  }
}
