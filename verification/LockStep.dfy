/** Lock-step runs keep `PairOk` for every leader's term and every follower. */
module LockStep {
  import opened Basics
  import opened Node
  import opened Cluster
  import opened NodeFacts
  import opened Election
  import opened LogMatching
  import opened Replication

  ghost predicate Paired(c: Cluster, t: nat, f: Id) {
    && t in c.h.leaders && t in c.h.logs && t in c.h.start
    && c.h.leaders[t] in c.nodes && f in c.nodes && f != c.h.leaders[t]
  }

  ghost predicate Leading(c: Cluster, t: nat, f: Id)
    requires Paired(c, t, f)
  {
    var s := c.nodes[c.h.leaders[t]];
    s.role == Leader && s.term == t && f in s.repl
  }

  ghost function PairOf(c: Cluster, t: nat, f: Id): Pair
    requires Paired(c, t, f)
  {
    Pair(t, c.h.logs[t], c.h.start[t], c.maxAppend,
         c.nodes[f].term, c.nodes[f].log, Acked(c.h, t, f),
         SlotOf(c, t, f), Ranges(c.h, t, f),
         Leading(c, t, f),
         if Leading(c, t, f) then c.nodes[c.h.leaders[t]].repl[f] else Replicator(0, 0, 0, false))
  }

  /** The slot of a replicator holds messages of that replicator. */
  ghost predicate SlotMessages(c: Cluster, t: nat, f: Id) {
    match SlotOf(c, t, f)
    case Idle => true
    case Pending(req) => req in c.wire && req.term == t && req.to == f
    case Replied(resp) => resp in c.replies && resp.req.term == t && resp.req.to == f
  }

  /** A leader has stored all of its own log. */
  ghost predicate OwnAcks(h: History) {
    forall t | t in h.leaders :: t in h.logs && Acked(h, t, h.leaders[t]) == |h.logs[t]|
  }

  ghost predicate LockInv(c: Cluster) {
    && (forall t, f | Paired(c, t, f) :: PairOk(PairOf(c, t, f)))
    && (forall t, f :: SlotMessages(c, t, f))
    && OwnAcks(c.h)
    && (forall t, f | (t, f) in c.h.acked :: t in c.h.leaders && f in c.ids)
    && (forall t, f | (t, f) in c.h.ranges :: t in c.h.leaders && f in c.ids && f != c.h.leaders[t])
    && c.maxAppend >= 1
  }

  lemma LockInit(c: Cluster)
    requires Init(c)
    ensures LockInv(c)
  {
  }

  lemma PairLogsHold(c: Cluster, t: nat, f: Id)
    requires LogInv(c) && Paired(c, t, f)
    ensures PairLogs(PairOf(c, t, f))
  {
    assert NodeLogOk(c.h, c.nodes[f]) && TermLogOk(c.h, t);
  }

  // ---------------------------------------------------------------------------
  // Which steps concern a pair

  /** The follower stores entries, or the leader appends, sends or hears back. */
  ghost predicate Active(c: Cluster, l: Label, t: nat, f: Id)
    requires Paired(c, t, f)
  {
    || (l.n == f && (l.DoDispatch? || l.RecvAppend?))
    || (l.n == c.h.leaders[t] && Leading(c, t, f)
        && (l.DoDispatch? || (l.SendAppend? && l.to == f) || (l.RecvReply? && l.aresp.req.to == f)))
  }

  lemma PairStays(c: Cluster, l: Label, t: nat, f: Id)
    requires ElectionInv(c) && LogInv(c) && Enabled(c, l) && Paired(c, t, f)
    ensures SamePair(c, Apply(c, l), t, f)
  {
    HistoryStep(c, l);
    WinnerStays(c, l, t);
  }

  ghost predicate SamePair(c: Cluster, c': Cluster, t: nat, f: Id) {
    && Paired(c, t, f) && Paired(c', t, f)
    && c'.h.leaders[t] == c.h.leaders[t] && c'.h.start[t] == c.h.start[t]
  }

  /** The step writes no entry of the history or of the slots that belongs to the pair. */
  ghost predicate Elsewhere(c: Cluster, l: Label, t: nat, f: Id)
    requires l.n in c.nodes
  {
    && (l.DoDispatch? || Winning(c, l) ==> c.nodes[l.n].term != t)
    && (l.SendAppend? ==> (c.nodes[l.n].term, l.to) != (t, f))
    && (l.RecvReply? ==> (l.aresp.req.term, l.aresp.req.to) != (t, f))
    && (l.RecvAppend? ==> (l.areq.term, l.n) != (t, f))
  }

  lemma KeysUntouched(c: Cluster, l: Label, t: nat, f: Id)
    requires Enabled(c, l) && Elsewhere(c, l, t, f) && t in c.h.logs
    ensures t in LogsAfter(c, l) && LogsAfter(c, l)[t] == c.h.logs[t]
    ensures SlotOf(Apply(c, l), t, f) == SlotOf(c, t, f)
    ensures Ranges(HistoryAfter(c, l), t, f) == Ranges(c.h, t, f)
    ensures Acked(HistoryAfter(c, l), t, f) == Acked(c.h, t, f)
  {
    HistoryUntouched(c, l, t, f);
    SlotUntouched(c, l, t, f);
  }

  lemma SlotUntouched(c: Cluster, l: Label, t: nat, f: Id)
    requires Enabled(c, l) && Elsewhere(c, l, t, f)
    ensures (t, f) in SlotsAfter(c, l) <==> (t, f) in c.slots
    ensures (t, f) in c.slots ==> SlotsAfter(c, l)[(t, f)] == c.slots[(t, f)]
  {
  }

  lemma HistoryUntouched(c: Cluster, l: Label, t: nat, f: Id)
    requires Enabled(c, l) && Elsewhere(c, l, t, f) && t in c.h.logs
    ensures t in LogsAfter(c, l) && LogsAfter(c, l)[t] == c.h.logs[t]
    ensures Ranges(HistoryAfter(c, l), t, f) == Ranges(c.h, t, f)
    ensures Acked(HistoryAfter(c, l), t, f) == Acked(c.h, t, f)
  {
  }

  lemma QuietElsewhere(c: Cluster, l: Label, t: nat, f: Id)
    requires Enabled(c, l) && l.n in c.nodes && Paired(c, t, f) && !Active(c, l, t, f)
    requires ElectionInv(c) && LogInv(c)
    ensures Elsewhere(c, l, t, f)
  {
    if l.DoDispatch? || l.SendAppend? || l.RecvReply? {
      LeadingLog(c, l.n);
      LeaderTerm(c, l, t, f);
    } else if Winning(c, l) {
      WinIsNew(c, l.n, l.vresp);
    }
  }

  /** A leader acts only in its own term. */
  lemma LeaderTerm(c: Cluster, l: Label, t: nat, f: Id)
    requires Enabled(c, l) && Paired(c, t, f) && !Active(c, l, t, f)
    requires l.DoDispatch? || l.SendAppend? || l.RecvReply?
    requires c.nodes[l.n].term in c.h.leaders && c.h.leaders[c.nodes[l.n].term] == l.n && c.nodes.Keys == c.ids
    ensures l.DoDispatch? ==> c.nodes[l.n].term != t
    ensures l.SendAppend? ==> (c.nodes[l.n].term, l.to) != (t, f)
    ensures l.RecvReply? ==> (l.aresp.req.term, l.aresp.req.to) != (t, f)
  {
  }

  /** The follower keeps its log. */
  lemma QuietFollower(c: Cluster, l: Label, t: nat, f: Id)
    requires LogInv(c) && Enabled(c, l) && Paired(c, t, f) && !Active(c, l, t, f)
    ensures f in Apply(c, l).nodes
    ensures Apply(c, l).nodes[f].log == c.nodes[f].log && Apply(c, l).nodes[f].term >= c.nodes[f].term
  {
    if l.n == f {
      FollowerKeepsLog(c, l);
    }
  }

  /** A node starts to lead only by winning. */
  lemma QuietLeader(c: Cluster, l: Label, t: nat, f: Id)
    requires ElectionInv(c) && Enabled(c, l) && Paired(c, t, f) && !Active(c, l, t, f)
    requires Paired(Apply(c, l), t, f) && Apply(c, l).h.leaders[t] == c.h.leaders[t]
    ensures SameReplicator(c, Apply(c, l), t, f)
  {
    if l.n == c.h.leaders[t] && Winning(c, l) {
      WinIsNew(c, l.n, l.vresp);
    }
    QuietLeaderFrom(c, l, t, f);
  }

  /** If the leader still leads afterwards, it did before, with the same replicator. */
  ghost predicate SameReplicator(c: Cluster, c': Cluster, t: nat, f: Id)
    requires Paired(c, t, f) && Paired(c', t, f) && c'.h.leaders[t] == c.h.leaders[t]
  {
    Leading(c', t, f) ==> Leading(c, t, f) && c'.nodes[c.h.leaders[t]].repl[f] == c.nodes[c.h.leaders[t]].repl[f]
  }

  lemma QuietLeaderFrom(c: Cluster, l: Label, t: nat, f: Id)
    requires Enabled(c, l) && Paired(c, t, f) && !Active(c, l, t, f)
    requires l.n == c.h.leaders[t] && Winning(c, l) ==> c.nodes[l.n].term != t
    requires Paired(Apply(c, l), t, f) && Apply(c, l).h.leaders[t] == c.h.leaders[t]
    ensures SameReplicator(c, Apply(c, l), t, f)
  {
    if l.n == c.h.leaders[t] && !Winning(c, l) {
      QuietReplicator(c, l, t, f);
    }
  }

  lemma QuietReplicator(c: Cluster, l: Label, t: nat, f: Id)
    requires Enabled(c, l) && Paired(c, t, f) && !Active(c, l, t, f) && l.n == c.h.leaders[t] && !Winning(c, l)
    ensures NodeAfter(c, l).role == Leader && NodeAfter(c, l).term == t && f in NodeAfter(c, l).repl ==>
              Leading(c, t, f) && NodeAfter(c, l).repl[f] == c.nodes[l.n].repl[f]
  {
    if Leading(c, t, f) {
      StillLeads(c, l, f);
    } else {
      NotByItself(c, l);
    }
  }

  /** The steps of a leader that change its replicators or its tracker. */
  ghost predicate LeaderWork(l: Label) {
    l.DoDispatch? || l.RecvReply? || l.SendAppend? || l.Commit?
  }

  lemma NotByItself(c: Cluster, l: Label)
    requires Enabled(c, l) && !Winning(c, l)
    ensures NodeAfter(c, l).role == Leader ==>
              && c.nodes[l.n].role == Leader && NodeAfter(c, l).term == c.nodes[l.n].term
              && NodeAfter(c, l).repl.Keys == c.nodes[l.n].repl.Keys
  {
    if LeaderWork(l) {
      WorkKeepsLeading(c, l);
    } else {
      IdleLeader(c, l);
    }
  }

  /** Any other step leaves a node that leads as it is. */
  lemma IdleLeader(c: Cluster, l: Label)
    requires Enabled(c, l) && !Winning(c, l) && !LeaderWork(l)
    ensures NodeAfter(c, l).role == Leader ==>
              && c.nodes[l.n].role == Leader && NodeAfter(c, l).term == c.nodes[l.n].term
              && NodeAfter(c, l).repl == c.nodes[l.n].repl && NodeAfter(c, l).inflight == c.nodes[l.n].inflight
  {
    match l {
      case RecvAppend(n, req) => AppendQuiet(c.nodes[n], req);
      case RecvHeartbeat(n, req) => AppendQuiet(c.nodes[n], req);
      case _ => IdleElsewise(c, l);
    }
  }

  lemma IdleElsewise(c: Cluster, l: Label)
    requires Enabled(c, l) && !Winning(c, l) && !LeaderWork(l) && !l.RecvAppend? && !l.RecvHeartbeat?
    ensures NodeAfter(c, l).role == Leader ==>
              && c.nodes[l.n].role == Leader && NodeAfter(c, l).term == c.nodes[l.n].term
              && NodeAfter(c, l).repl == c.nodes[l.n].repl && NodeAfter(c, l).inflight == c.nodes[l.n].inflight
  {
  }

  lemma WorkKeepsLeading(c: Cluster, l: Label)
    requires Enabled(c, l) && LeaderWork(l)
    ensures c.nodes[l.n].role == Leader && NodeAfter(c, l).term == c.nodes[l.n].term
    ensures NodeAfter(c, l).repl.Keys == c.nodes[l.n].repl.Keys
    ensures forall p | p in c.nodes[l.n].repl && !(l.SendAppend? && l.to == p)
          && !(l.RecvReply? && l.aresp.req.to == p) ::
              NodeAfter(c, l).repl[p] == c.nodes[l.n].repl[p]
  {
    if l.Commit? {
      CommitQuiet(c.nodes[l.n]);
    }
  }

  lemma FollowerKeepsLog(c: Cluster, l: Label)
    requires LogInv(c) && Enabled(c, l) && !l.DoDispatch? && !l.RecvAppend?
    ensures NodeAfter(c, l).log == c.nodes[l.n].log && NodeAfter(c, l).term >= c.nodes[l.n].term
  {
    if l.RecvHeartbeat? {
      assert BeatOk(c.ids, c.h, l.areq);
      BeatKeepsLog(c.nodes[l.n], l.areq);
    } else {
      UntouchedLog(c, l);
    }
  }

  lemma BeatKeepsLog(s: State, req: AppendReq)
    requires req.prev == 0 && req.entries == []
    ensures AppendEntries(s, req).log == s.log && AppendEntries(s, req).term >= s.term
  {
  }

  /** A node that leads after a step without winning led before, with the same replicator. */
  lemma StillLeads(c: Cluster, l: Label, f: Id)
    requires Enabled(c, l) && !Winning(c, l)
    requires l.SendAppend? ==> l.to != f
    requires l.RecvReply? ==> l.aresp.req.to != f
    ensures NodeAfter(c, l).role == Leader ==>
              && c.nodes[l.n].role == Leader && NodeAfter(c, l).term == c.nodes[l.n].term
              && (f in NodeAfter(c, l).repl ==>
                    f in c.nodes[l.n].repl && NodeAfter(c, l).repl[f] == c.nodes[l.n].repl[f])
  {
    if LeaderWork(l) {
      WorkKeepsLeading(c, l);
    } else {
      IdleLeader(c, l);
    }
  }

  lemma QuietPair(c: Cluster, l: Label, t: nat, f: Id)
    requires ElectionInv(c) && LogInv(c) && LockInv(c) && Enabled(c, l) && Paired(c, t, f) && !Active(c, l, t, f)
    ensures Paired(Apply(c, l), t, f) && PairOk(PairOf(Apply(c, l), t, f))
  {
    QuietView(c, l, t, f);
    PairLogsHold(c, t, f);
    PairTermUp(PairOf(c, t, f), PairOf(Apply(c, l), t, f));
  }

  /** What a step that does not concern a pair leaves of it. */
  lemma QuietView(c: Cluster, l: Label, t: nat, f: Id)
    requires ElectionInv(c) && LogInv(c) && Enabled(c, l) && Paired(c, t, f) && !Active(c, l, t, f)
    ensures SamePair(c, Apply(c, l), t, f) && SameView(PairOf(c, t, f), PairOf(Apply(c, l), t, f))
  {
    PairStays(c, l, t, f);
    QuietElsewhere(c, l, t, f);
    KeysUntouched(c, l, t, f);
    QuietFollower(c, l, t, f);
    QuietLeader(c, l, t, f);
  }

  // ---------------------------------------------------------------------------
  // The steps that concern a pair

  /** The follower appends as a leader of its own, or stores what another leader sent. */
  lemma FollowerElsewhere(c: Cluster, l: Label, t: nat, f: Id)
    requires ElectionInv(c) && LogInv(c) && LockInv(c) && Enabled(c, l) && Paired(c, t, f) && l.n == f
    requires l.DoDispatch? || (l.RecvAppend? && l.areq.term != t)
    ensures Paired(Apply(c, l), t, f) && PairOk(PairOf(Apply(c, l), t, f))
  {
    PairStays(c, l, t, f);
    if l.DoDispatch? {
      LeadingLog(c, f);
    }
    ElsewherePair(c, l, t, f);
    PairElsewhereOrSame(PairOf(c, t, f), PairOf(Apply(c, l), t, f));
  }

  lemma PairElsewhereOrSame(k: Pair, k': Pair)
    requires PairOk(k) && (k' == k || (k.fterm <= k'.fterm != k.term && k' == k.(fterm := k'.fterm, flog := k'.flog)))
    ensures PairOk(k')
  {
    if k' != k {
      PairElsewhere(k, k');
    }
  }

  lemma ElsewherePair(c: Cluster, l: Label, t: nat, f: Id)
    requires Enabled(c, l) && SamePair(c, Apply(c, l), t, f) && l.n == f
    requires (l.DoDispatch? && c.nodes[f].term != t) || (l.RecvAppend? && l.areq.term != t)
    ensures var k, k' := PairOf(c, t, f), PairOf(Apply(c, l), t, f);
            k' == k || (k.fterm <= k'.fterm != k.term && k' == k.(fterm := k'.fterm, flog := k'.flog))
  {
    KeysUntouched(c, l, t, f);
    if l.RecvAppend? {
      AppendedLog(c.nodes[f], l.areq);
      AppendQuiet(c.nodes[f], l.areq);
    }
    LeaderElsewhere(c, l, t, f);
  }

  /** A step of the follower leaves the leader's side of the pair alone. */
  lemma LeaderElsewhere(c: Cluster, l: Label, t: nat, f: Id)
    requires Enabled(c, l) && SamePair(c, Apply(c, l), t, f) && l.n == f
    ensures Apply(c, l).nodes[c.h.leaders[t]] == c.nodes[c.h.leaders[t]]
    ensures Leading(Apply(c, l), t, f) <==> Leading(c, t, f)
  {
  }

  lemma LeaderDispatch(c: Cluster, l: Label, t: nat, f: Id)
    requires ElectionInv(c) && LogInv(c) && LockInv(c) && Enabled(c, l) && Paired(c, t, f)
    requires l.DoDispatch? && l.n == c.h.leaders[t] && Leading(c, t, f)
    ensures Paired(Apply(c, l), t, f) && PairOk(PairOf(Apply(c, l), t, f))
  {
    PairStays(c, l, t, f);
    LeadingLog(c, l.n);
    PairLogsHold(c, t, f);
    PairDispatch(PairOf(c, t, f), NewEntries(t, l.cmds));
    DispatchPair(c, l, t, f);
  }

  lemma DispatchPair(c: Cluster, l: Label, t: nat, f: Id)
    requires Enabled(c, l) && SamePair(c, Apply(c, l), t, f)
    requires l.DoDispatch? && l.n == c.h.leaders[t] && Leading(c, t, f) && c.nodes[l.n].log == c.h.logs[t]
    ensures var k := PairOf(c, t, f); PairOf(Apply(c, l), t, f) == k.(log := k.log + NewEntries(t, l.cmds))
  {
  }

  lemma LeaderSend(c: Cluster, l: Label, t: nat, f: Id)
    requires ElectionInv(c) && LogInv(c) && LockInv(c) && Enabled(c, l) && Paired(c, t, f)
    requires l.SendAppend? && l.to == f && l.n == c.h.leaders[t] && Leading(c, t, f)
    ensures Paired(Apply(c, l), t, f) && PairOk(PairOf(Apply(c, l), t, f))
  {
    PairStays(c, l, t, f);
    LeadingLog(c, l.n);
    assert PairOk(PairOf(c, t, f));
    SendKeeps(c, l, t, f);
  }

  lemma SendKeeps(c: Cluster, l: Label, t: nat, f: Id)
    requires Enabled(c, l) && SamePair(c, Apply(c, l), t, f) && PairOk(PairOf(c, t, f))
    requires l.SendAppend? && l.to == f && l.n == c.h.leaders[t] && Leading(c, t, f) && c.nodes[l.n].log == c.h.logs[t]
    ensures PairOk(PairOf(Apply(c, l), t, f))
  {
    SendPair(c, l, t, f);
    MadeEnd(c.nodes[l.n], l.n, f, l.last, c.maxAppend);
    PairSend(PairOf(c, t, f), l.last, MakeAppend(c.nodes[l.n], l.n, f, l.last, c.maxAppend));
  }

  lemma MadeEnd(s: State, n: Id, f: Id, last: nat, maxAppend: nat)
    requires f in s.repl && 1 <= s.repl[f].next <= |s.log| + 1 && s.repl[f].next - 1 <= last <= |s.log|
    requires maxAppend >= 1
    ensures End(MakeAppend(s, n, f, last, maxAppend)) == Bound(s.repl[f].(last := last), maxAppend)
  {
  }

  lemma SendPair(c: Cluster, l: Label, t: nat, f: Id)
    requires Enabled(c, l) && SamePair(c, Apply(c, l), t, f)
    requires l.SendAppend? && l.to == f && l.n == c.h.leaders[t] && Leading(c, t, f)
    ensures var k := PairOf(c, t, f);
            PairOf(Apply(c, l), t, f) == k.(slot := Pending(MakeAppend(c.nodes[l.n], l.n, f, l.last, c.maxAppend)),
                                            rep := k.rep.(last := l.last))
  {
  }

  lemma LeaderReply(c: Cluster, l: Label, t: nat, f: Id)
    requires ElectionInv(c) && LogInv(c) && LockInv(c) && Enabled(c, l) && InOrder(c, l) && Paired(c, t, f)
    requires l.RecvReply? && l.aresp.req.to == f && l.n == c.h.leaders[t] && Leading(c, t, f)
    ensures Paired(Apply(c, l), t, f) && PairOk(PairOf(Apply(c, l), t, f))
  {
    PairStays(c, l, t, f);
    ReplyPair(c, l, t, f);
    assert PairOk(PairOf(c, t, f));
    PairReply(PairOf(c, t, f), l.aresp);
  }

  /** What a reply does to a pair. */
  function AfterReply(k: Pair, resp: AppendResp): Pair
    requires k.leading
  {
    if resp.term > k.term then k.(slot := Idle, rep := k.rep.(stopped := true))
    else if !resp.success then
      var next := Max(Min(Max(k.rep.next, 1) - 1, resp.lastLog + 1), 1);
      k.(slot := Idle, rep := k.rep.(next := next, match' := next - 1))
    else if resp.req.entries == [] then k.(slot := Idle)
    else k.(slot := Idle, rep := k.rep.(match' := End(resp.req), next := End(resp.req) + 1),
            ranges := k.ranges + [(resp.req.prev + 1, End(resp.req))])
  }

  lemma PairReply(k: Pair, resp: AppendResp)
    requires PairOk(k) && k.leading && k.slot == Replied(resp)
    ensures PairOk(AfterReply(k, resp))
  {
    if resp.term > k.term || (resp.success && resp.req.entries == []) {
      PairReplyIdle(k, resp);
    } else if resp.success {
      PairReplySuccess(k, resp);
    } else {
      PairReplyRejected(k, resp);
    }
  }

  lemma PairReplyIdle(k: Pair, resp: AppendResp)
    requires PairOk(k) && k.leading && (resp.term > k.term || (resp.success && resp.req.entries == []))
    ensures PairOk(AfterReply(k, resp))
  {
    var stopped := if resp.term > k.term then true else k.rep.stopped;
    PairReplyOther(k, stopped);
    assert AfterReply(k, resp) == k.(slot := Idle, rep := k.rep.(stopped := stopped));
  }

  lemma PairReplyRejected(k: Pair, resp: AppendResp)
    requires PairOk(k) && k.leading && k.slot == Replied(resp) && !resp.success && resp.term <= k.term
    ensures PairOk(AfterReply(k, resp))
  {
    PairReplyFailure(k, resp);
  }

  lemma ReplyPair(c: Cluster, l: Label, t: nat, f: Id)
    requires Enabled(c, l) && SamePair(c, Apply(c, l), t, f)
    requires l.RecvReply? && l.aresp.req.to == f && l.n == c.h.leaders[t] && Leading(c, t, f)
    ensures PairOf(Apply(c, l), t, f) == AfterReply(PairOf(c, t, f), l.aresp)
  {
    RepliedHistory(c, l, t, f);
    RepliedReplicator(c.nodes[l.n], l.aresp, PairOf(c, t, f));
  }

  lemma RepliedHistory(c: Cluster, l: Label, t: nat, f: Id)
    requires Enabled(c, l) && l.RecvReply? && l.aresp.req.to == f && l.aresp.req.term == t
    ensures SlotOf(Apply(c, l), t, f) == Idle && LogsAfter(c, l) == c.h.logs
    ensures Acked(HistoryAfter(c, l), t, f) == Acked(c.h, t, f)
    ensures Ranges(HistoryAfter(c, l), t, f) ==
            if Confirms(l.aresp) then Ranges(c.h, t, f) + [(l.aresp.req.prev + 1, End(l.aresp.req))]
                  else Ranges(c.h, t, f)
  {
  }

  lemma RepliedReplicator(s: State, resp: AppendResp, k: Pair)
    requires Ok(s) && resp.req.to in s.repl && s.repl[resp.req.to].next >= 1
    requires k.leading && k.rep == s.repl[resp.req.to] && k.term == resp.req.term
    ensures var r := HandleReply(s, resp);
            && r.role == s.role && r.term == s.term && resp.req.to in r.repl
            && r.repl[resp.req.to] == AfterReply(k, resp).rep
  {
  }

  /** The pair after the follower handled a request of this leader. */
  lemma DeliveredPair(c: Cluster, l: Label, t: nat, f: Id)
    requires Enabled(c, l) && InOrder(c, l) && SamePair(c, Apply(c, l), t, f)
    requires l.RecvAppend? && l.n == f && l.areq.term == t
    ensures var k, k', s := PairOf(c, t, f), PairOf(Apply(c, l), t, f), c.nodes[f];
            var resp := AppendAnswer(s, l.areq);
            && Delivers(k, k', resp)
            && k'.fterm == AppendEntries(s, l.areq).term && k'.flog == AppendEntries(s, l.areq).log
            && k'.acked == if resp.success then Max(k.acked, End(l.areq)) else k.acked
  {
    assert Apply(c, l).nodes[c.h.leaders[t]] == c.nodes[c.h.leaders[t]];
  }

  /** The follower handles a request of this leader: what it shares with the leader stays. */
  lemma FollowerDeliver(c: Cluster, l: Label, t: nat, f: Id)
    requires ElectionInv(c) && LogInv(c) && LockInv(c) && Enabled(c, l) && InOrder(c, l) && Paired(c, t, f)
    requires l.RecvAppend? && l.n == f && l.areq.term == t
    ensures Paired(Apply(c, l), t, f) && PairOk(PairOf(Apply(c, l), t, f))
    ensures Accepts(c.nodes[f], l.areq) ==>
              forall i: nat | Agree(c.nodes[f].log, c.h.logs[t], i) :: Agree(NodeAfter(c, l).log, c.h.logs[t], i)
  {
    var k, s, req := PairOf(c, t, f), c.nodes[f], l.areq;
    PairStays(c, l, t, f);
    DeliveredPair(c, l, t, f);
    PairLogsHold(c, t, f);
    assert ReqOk(c.ids, c.h, req) && NodeLogOk(c.h, s);
    DeliverCases(c.ids, c.h, s, req, k, PairOf(Apply(c, l), t, f));
  }

  lemma AcceptedPair(ids: set<Id>, h: History, s: State, req: AppendReq)
    requires HistoryOk(h) && ReqOk(ids, h, req) && NodeLogOk(h, s) && Accepts(s, req)
    ensures Agree(s.log, h.logs[req.term], req.prev)
    ensures AppendEntries(s, req).log == if req.entries == [] then s.log else h.logs[req.term][..End(req)]
    ensures AppendEntries(s, req).term == req.term
  {
    AppendedLog(s, req);
    PrevAgrees(ids, h, s.log, req);
    if req.entries != [] {
      StoredIsPrefix(ids, h, s.log, req);
    }
  }

  lemma DeliverCases(ids: set<Id>, h: History, s: State, req: AppendReq, k: Pair, k': Pair)
    requires HistoryOk(h) && ReqOk(ids, h, req) && NodeLogOk(h, s) && PairOk(k) && PairLogs(k)
    requires k.term == req.term && k.log == h.logs[req.term] && k.fterm == s.term && k.flog == s.log
    requires k.slot == Pending(req)
    requires Delivers(k, k', AppendAnswer(s, req))
    requires k'.fterm == AppendEntries(s, req).term && k'.flog == AppendEntries(s, req).log
    requires k'.acked == if Accepts(s, req) then Max(k.acked, End(req)) else k.acked
    ensures PairOk(k')
    ensures Accepts(s, req) ==> forall i: nat | Agree(s.log, k.log, i) :: Agree(k'.flog, k.log, i)
  {
    var resp := AppendAnswer(s, req);
    if req.term < s.term {
      PairStale(k, k', resp);
    } else if !PrevMatches(s.log, req) {
      PairRejected(k, k', resp);
    } else {
      AcceptedPair(ids, h, s, req);
      PairAccepted(k, k', resp);
    }
  }

  lemma PairStep(c: Cluster, l: Label, t: nat, f: Id)
    requires ElectionInv(c) && LogInv(c) && LockInv(c) && Enabled(c, l) && InOrder(c, l) && Paired(c, t, f)
    ensures Paired(Apply(c, l), t, f) && PairOk(PairOf(Apply(c, l), t, f))
  {
    if !Active(c, l, t, f) {
      QuietPair(c, l, t, f);
    } else if l.n == f {
      if l.RecvAppend? && l.areq.term == t {
        FollowerDeliver(c, l, t, f);
      } else {
        FollowerElsewhere(c, l, t, f);
      }
    } else if l.DoDispatch? {
      LeaderDispatch(c, l, t, f);
    } else if l.SendAppend? {
      LeaderSend(c, l, t, f);
    } else {
      LeaderReply(c, l, t, f);
    }
  }

  /** A new leader's pairs. */
  lemma NewPair(c: Cluster, l: Label, f: Id)
    requires ElectionInv(c) && LogInv(c) && LockInv(c) && Enabled(c, l) && Winning(c, l) && f in c.nodes && f != l.n
    requires c.nodes[l.n].term !in c.h.leaders
    ensures Paired(Apply(c, l), c.nodes[l.n].term, f)
    ensures PairOk(PairOf(Apply(c, l), c.nodes[l.n].term, f))
  {
    var t := c.nodes[l.n].term;
    assert SlotMessages(c, t, f);
    NoSlotYet(c, t, f);
    ElectedPair(c, l, f);
    PairElected(PairOf(Apply(c, l), t, f));
  }

  lemma ElectedPair(c: Cluster, l: Label, f: Id)
    requires Enabled(c, l) && Winning(c, l) && f in c.nodes && f != l.n && c.nodes.Keys == c.ids
    requires SlotOf(c, c.nodes[l.n].term, f) == Idle
    requires (c.nodes[l.n].term, f) !in c.h.acked && (c.nodes[l.n].term, f) !in c.h.ranges
    ensures Paired(Apply(c, l), c.nodes[l.n].term, f)
    ensures var k := PairOf(Apply(c, l), c.nodes[l.n].term, f);
            && k.leading && k.rep == Replicator(|k.log| + 1, 0, |k.log|, false)
            && k.start == |k.log| && k.acked == 0 && k.slot == Idle && k.ranges == [] && k.maxAppend == c.maxAppend
  {
  }

  lemma NoSlotYet(c: Cluster, t: nat, f: Id)
    requires LogInv(c) && SlotMessages(c, t, f) && t !in c.h.leaders
    ensures SlotOf(c, t, f) == Idle
  {
  }

  lemma SlotMessagesStep(c: Cluster, l: Label, t: nat, f: Id)
    requires Enabled(c, l) && SlotMessages(c, t, f)
    ensures SlotMessages(Apply(c, l), t, f)
  {
  }

  lemma AckedStep(c: Cluster, l: Label)
    requires ElectionInv(c) && LogInv(c) && LockInv(c) && Enabled(c, l)
    ensures OwnAcks(HistoryAfter(c, l))
    ensures forall t, f | (t, f) in AckedAfter(c, l) :: t in LeadersAfter(c, l) && f in c.ids
  {
    HistoryStep(c, l);
    forall t | t in LeadersAfter(c, l)
      ensures t in LogsAfter(c, l) && Acked(HistoryAfter(c, l), t, LeadersAfter(c, l)[t]) == |LogsAfter(c, l)[t]|
    {
      OwnAckStep(c, l, t);
    }
    if l.DoDispatch? {
      LeadingLog(c, l.n);
    } else if l.RecvAppend? {
      assert ReqOk(c.ids, c.h, l.areq);
    }
  }

  lemma RangeKeyStep(c: Cluster, l: Label, t: nat, f: Id)
    requires ElectionInv(c) && LogInv(c) && LockInv(c) && Enabled(c, l) && (t, f) in RangesAfter(c, l)
    ensures t in LeadersAfter(c, l) && f in c.ids && f != LeadersAfter(c, l)[t]
  {
    if (t, f) !in c.h.ranges {
      assert ReqOk(c.ids, c.h, l.aresp.req);
    }
    WinnerStays(c, l, t);
  }

  lemma OwnAckStep(c: Cluster, l: Label, t: nat)
    requires ElectionInv(c) && LogInv(c) && OwnAcks(c.h) && Enabled(c, l) && t in LeadersAfter(c, l)
    ensures t in LogsAfter(c, l) && Acked(HistoryAfter(c, l), t, LeadersAfter(c, l)[t]) == |LogsAfter(c, l)[t]|
  {
    if t !in c.h.leaders {
      OwnAckElected(c, l, t);
    } else {
      WinnerStays(c, l, t);
      if l.DoDispatch? && c.nodes[l.n].term == t {
        OwnAckDispatch(c, l, t);
      } else {
        OwnAckElsewhere(c, l, t);
      }
    }
  }

  lemma OwnAckDispatch(c: Cluster, l: Label, t: nat)
    requires ElectionInv(c) && LogInv(c) && Enabled(c, l) && l.DoDispatch? && c.nodes[l.n].term == t
    ensures t in c.h.leaders && c.h.leaders[t] == l.n
    ensures t in LogsAfter(c, l) && Acked(HistoryAfter(c, l), t, l.n) == |LogsAfter(c, l)[t]|
  {
    LeadingLog(c, l.n);
  }

  lemma OwnAckElected(c: Cluster, l: Label, t: nat)
    requires Enabled(c, l) && t !in c.h.leaders && t in LeadersAfter(c, l)
    ensures t in LogsAfter(c, l) && Acked(HistoryAfter(c, l), t, LeadersAfter(c, l)[t]) == |LogsAfter(c, l)[t]|
  {
  }

  lemma OwnAckElsewhere(c: Cluster, l: Label, t: nat)
    requires ElectionInv(c) && LogInv(c) && OwnAcks(c.h) && Enabled(c, l) && t in c.h.leaders
    requires !(l.DoDispatch? && c.nodes[l.n].term == t)
    ensures t in LogsAfter(c, l) && Acked(HistoryAfter(c, l), t, c.h.leaders[t]) == |LogsAfter(c, l)[t]|
  {
    if l.RecvAppend? {
      assert ReqOk(c.ids, c.h, l.areq);
    } else if Winning(c, l) {
      WinIsNew(c, l.n, l.vresp);
    }
    OwnAckStays(c, l, t, c.h.leaders[t]);
  }

  lemma OwnAckStays(c: Cluster, l: Label, t: nat, n: Id)
    requires Enabled(c, l) && t in c.h.logs
    requires l.DoDispatch? || Winning(c, l) ==> c.nodes[l.n].term != t
    requires l.RecvAppend? ==> (l.areq.term, l.n) != (t, n)
    ensures t in LogsAfter(c, l) && LogsAfter(c, l)[t] == c.h.logs[t]
    ensures Acked(HistoryAfter(c, l), t, n) == Acked(c.h, t, n)
  {
  }

  /** Every lock-step step keeps the invariant. */
  lemma LockStepStep(c: Cluster, l: Label)
    requires ElectionInv(c) && LogInv(c) && LockInv(c) && Enabled(c, l) && InOrder(c, l)
    ensures LockInv(Apply(c, l))
  {
    var c' := Apply(c, l);
    AckedStep(c, l);
    forall t, f | (t, f) in c'.h.ranges
      ensures t in c'.h.leaders && f in c'.ids && f != c'.h.leaders[t]
    {
      RangeKeyStep(c, l, t, f);
    }
    forall t, f
      ensures SlotMessages(c', t, f)
    {
      assert SlotMessages(c, t, f);
      SlotMessagesStep(c, l, t, f);
    }
    forall t, f | Paired(c', t, f)
      ensures PairOk(PairOf(c', t, f))
    {
      PairsAfter(c, l, t, f);
    }
  }

  lemma PairsAfter(c: Cluster, l: Label, t: nat, f: Id)
    requires ElectionInv(c) && LogInv(c) && LockInv(c) && Enabled(c, l) && InOrder(c, l) && Paired(Apply(c, l), t, f)
    ensures PairOk(PairOf(Apply(c, l), t, f))
  {
    if t in c.h.leaders {
      assert WinnerOk(c, t) && TermLogOk(c.h, t);
      WinnerStays(c, l, t);
      PairStep(c, l, t, f);
    } else {
      assert Winning(c, l);
      WinIsNew(c, l.n, l.vresp);
      NewPair(c, l, f);
    }
  }
}
