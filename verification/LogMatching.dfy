/**
  Log Matching (section 5.3): two logs that hold an entry with the same index and term are
  identical up to that index.  Proved under any loss, duplication or reordering of
  AppendEntries, by relating every log to the logs of the leaders its entries come from.
 */
module LogMatching {
  import opened Basics
  import opened Node
  import opened Cluster
  import opened NodeFacts
  import opened Election

  /** The first `n` entries of both logs exist and are the same. */
  ghost predicate Agree(a: Log, b: Log, n: nat) {
    n <= |a| && n <= |b| && forall j | 0 <= j < n :: a[j] == b[j]
  }

  /** Up to each of its entries, a log is the log of the leader that created that entry. */
  ghost predicate LogOk(logs: map<nat, Log>, log: Log) {
    forall i | 0 <= i < |log| :: log[i].term in logs && Agree(log, logs[log[i].term], i + 1)
  }

  /** A leader's log: older entries from before the election, then entries of its own term. */
  ghost predicate TermLogOk(h: History, t: nat)
    requires t in h.logs && t in h.start
  {
    && LogOk(h.logs, h.logs[t])
    && h.start[t] <= |h.logs[t]|
    && (forall i | 0 <= i < h.start[t] :: h.logs[t][i].term < t)
    && (forall i | h.start[t] <= i < |h.logs[t]| :: h.logs[t][i].term == t)
  }

  ghost predicate HistoryOk(h: History) {
    && h.logs.Keys == h.leaders.Keys && h.start.Keys == h.leaders.Keys
    && forall t | t in h.logs :: TermLogOk(h, t)
  }

  ghost predicate NodeLogOk(h: History, s: State) {
    LogOk(h.logs, s.log) && forall i | 0 <= i < |s.log| :: s.log[i].term <= s.term
  }

  /** A request carries a stretch of its leader's log. */
  ghost predicate ReqOk(ids: set<Id>, h: History, req: AppendReq) {
    && req.term in h.logs && req.term in h.leaders && h.leaders[req.term] == req.leader
    && req.to in ids && req.to != req.leader
    && req.prev + |req.entries| <= |h.logs[req.term]|
    && (forall i | 0 <= i < |req.entries| :: req.entries[i] == h.logs[req.term][req.prev + i])
    && req.prevTerm == LastTerm(h.logs[req.term][..req.prev])
  }

  ghost predicate BeatOk(ids: set<Id>, h: History, req: AppendReq) {
    && req.term in h.leaders && h.leaders[req.term] == req.leader
    && req.to in ids && req.to != req.leader
    && req.prev == 0 && req.entries == [] && req.commit == 0
  }

  ghost predicate LeaderLogOk(c: Cluster, t: nat)
    requires t in c.h.leaders && t in c.h.logs
  {
    var l := c.h.leaders[t];
    l in c.nodes && (c.nodes[l].term == t ==> c.nodes[l].log == c.h.logs[t])
  }

  ghost predicate LogInv(c: Cluster) {
    && HistoryOk(c.h)
    && (forall n | n in c.nodes :: NodeLogOk(c.h, c.nodes[n]))
    && (forall t | t in c.h.logs :: LeaderLogOk(c, t))
    && (forall req | req in c.wire :: ReqOk(c.ids, c.h, req))
    && (forall req | req in c.beats :: BeatOk(c.ids, c.h, req))
    && (forall resp | resp in c.replies :: resp.req in c.wire)
    && (forall n | n in c.nodes :: NodeOk(c.ids, n, c.nodes[n]))
  }

  lemma LogInit(c: Cluster)
    requires Init(c)
    ensures LogInv(c)
  {
  }

  // ---------------------------------------------------------------------------
  // Leaders' logs only grow

  ghost predicate Grows(h: History, h': History) {
    && (forall t | t in h.logs :: t in h'.logs && Agree(h.logs[t], h'.logs[t], |h.logs[t]|))
    && (forall t | t in h.leaders :: t in h'.leaders && h'.leaders[t] == h.leaders[t])
    && (forall t | t in h.start :: t in h'.start && h'.start[t] == h.start[t])
  }

  lemma LogOkGrows(h: History, h': History, log: Log)
    requires LogOk(h.logs, log) && Grows(h, h')
    ensures LogOk(h'.logs, log)
  {
    forall i | 0 <= i < |log|
      ensures log[i].term in h'.logs && Agree(log, h'.logs[log[i].term], i + 1)
    {
      assert Agree(log, h.logs[log[i].term], i + 1);
    }
  }

  lemma ReqOkGrows(ids: set<Id>, h: History, h': History, req: AppendReq)
    requires ReqOk(ids, h, req) && Grows(h, h')
    ensures ReqOk(ids, h', req)
  {
    assert h'.logs[req.term][..req.prev] == h.logs[req.term][..req.prev];
  }

  /** A stretch of a well-related log from its beginning is well related. */
  lemma PrefixLogOk(logs: map<nat, Log>, log: Log, n: nat)
    requires LogOk(logs, log) && n <= |log|
    ensures LogOk(logs, log[..n])
  {
    forall i | 0 <= i < n
      ensures log[..n][i].term in logs && Agree(log[..n], logs[log[..n][i].term], i + 1)
    {
      assert Agree(log, logs[log[i].term], i + 1);
    }
  }

  /** Equal terms at one index mean equal logs up to it. */
  lemma SameTermAgree(logs: map<nat, Log>, a: Log, b: Log, n: nat)
    requires LogOk(logs, a) && LogOk(logs, b)
    requires 0 < n <= |a| && n <= |b| && a[n - 1].term == b[n - 1].term
    ensures Agree(a, b, n)
  {
    assert Agree(a, logs[a[n - 1].term], n) && Agree(b, logs[b[n - 1].term], n);
  }

  /** Terms never decrease along a log. */
  lemma TermsSorted(h: History, log: Log, i: nat, j: nat)
    requires HistoryOk(h) && LogOk(h.logs, log) && i <= j < |log|
    ensures log[i].term <= log[j].term
  {
    var t := log[j].term;
    assert Agree(log, h.logs[t], j + 1);
    assert TermLogOk(h, t);
    assert log[i] == h.logs[t][i];
  }

  /** A follower that accepts a request agrees with its leader up to the previous entry. */
  lemma PrevAgrees(ids: set<Id>, h: History, log: Log, req: AppendReq)
    requires HistoryOk(h) && LogOk(h.logs, log) && ReqOk(ids, h, req) && PrevMatches(log, req)
    ensures Agree(log, h.logs[req.term], req.prev)
  {
    if req.prev > 0 {
      assert TermLogOk(h, req.term);
      SameTermAgree(h.logs, log, h.logs[req.term], req.prev);
    }
  }

  /** After an accepted request with entries, the follower's log is a prefix of the leader's. */
  lemma StoredIsPrefix(ids: set<Id>, h: History, log: Log, req: AppendReq)
    requires HistoryOk(h) && LogOk(h.logs, log) && ReqOk(ids, h, req) && PrevMatches(log, req)
    requires req.entries != []
    ensures StoreEntries(log, req) == h.logs[req.term][..req.prev + |req.entries|]
  {
    PrevAgrees(ids, h, log, req);
    Spliced(log, h.logs[req.term], req.prev, req.entries);
  }

  /** A stretch of a log, put after what is shared with it. */
  lemma Spliced(log: Log, lead: Log, prev: nat, entries: Log)
    requires Agree(log, lead, prev) && prev + |entries| <= |lead|
    requires forall i | 0 <= i < |entries| :: entries[i] == lead[prev + i]
    ensures log[..prev] + entries == lead[..prev + |entries|]
  {
    assert log[..prev] == lead[..prev];
    assert entries == lead[prev..prev + |entries|];
  }

  lemma StoredLogOk(ids: set<Id>, h: History, s: State, req: AppendReq)
    requires HistoryOk(h) && NodeLogOk(h, s) && ReqOk(ids, h, req) && Accepts(s, req)
    ensures LogOk(h.logs, StoreEntries(s.log, req))
    ensures forall i | 0 <= i < |StoreEntries(s.log, req)| :: StoreEntries(s.log, req)[i].term <= req.term
  {
    if req.entries != [] {
      StoredIsPrefix(ids, h, s.log, req);
      assert TermLogOk(h, req.term);
      PrefixLogOk(h.logs, h.logs[req.term], req.prev + |req.entries|);
    }
  }

  // ---------------------------------------------------------------------------
  // What a step does to the leaders' logs

  /** The history after an election. */
  function Elected(h: History, t: nat, n: Id, log: Log): History {
    h.(leaders := h.leaders[t := n], logs := h.logs[t := log], start := h.start[t := |log|])
  }

  lemma WinGrows(h: History, n: Id, t: nat, log: Log)
    requires HistoryOk(h) && t !in h.leaders
    ensures Grows(h, Elected(h, t, n, log))
  {
  }

  lemma WinHistory(h: History, n: Id, s: State)
    requires HistoryOk(h) && NodeLogOk(h, s) && s.term !in h.leaders
    ensures Grows(h, Elected(h, s.term, n, s.log)) && HistoryOk(Elected(h, s.term, n, s.log))
  {
    var h' := Elected(h, s.term, n, s.log);
    WinGrows(h, n, s.term, s.log);
    forall t | t in h'.logs
      ensures TermLogOk(h', t)
    {
      if t in h.logs {
        SameTermOk(h, h', t);
      } else {
        ElectedTermOk(h, h', n, s);
      }
    }
  }

  /** A term whose log does not change stays in order. */
  lemma SameTermOk(h: History, h': History, t: nat)
    requires t in h.logs && t in h.start && TermLogOk(h, t) && Grows(h, h') && t in h'.logs && h'.logs[t] == h.logs[t]
    ensures t in h'.start && TermLogOk(h', t)
  {
    LogOkGrows(h, h', h.logs[t]);
  }

  lemma ElectedTermOk(h: History, h': History, n: Id, s: State)
    requires NodeLogOk(h, s) && Grows(h, h') && s.term !in h.logs && h' == Elected(h, s.term, n, s.log)
    ensures TermLogOk(h', s.term)
  {
    LogOkGrows(h, h', s.log);
  }

  /** The history after a leader appends entries of its term. */
  function Appended(h: History, t: nat, log: Log): History {
    h.(logs := h.logs[t := log])
  }

  lemma ExtendedLogOk(h: History, t: nat, es: Log)
    requires t in h.logs && LogOk(h.logs, h.logs[t]) && forall i | 0 <= i < |es| :: es[i].term == t
    requires Grows(h, Appended(h, t, h.logs[t] + es))
    ensures LogOk(Appended(h, t, h.logs[t] + es).logs, h.logs[t] + es)
  {
    var log := h.logs[t] + es;
    var h' := Appended(h, t, log);
    LogOkGrows(h, h', h.logs[t]);
    forall i | 0 <= i < |log|
      ensures log[i].term in h'.logs && Agree(log, h'.logs[log[i].term], i + 1)
    {
      if i < |h.logs[t]| {
        assert Agree(h.logs[t], h'.logs[h.logs[t][i].term], i + 1);
      } else {
        assert h'.logs[t] == log;
      }
    }
  }

  lemma AppendGrows(h: History, t: nat, es: Log)
    requires t in h.logs
    ensures Grows(h, Appended(h, t, h.logs[t] + es))
  {
  }

  lemma DispatchHistory(h: History, t: nat, es: Log)
    requires HistoryOk(h) && t in h.logs && forall i | 0 <= i < |es| :: es[i].term == t
    ensures Grows(h, Appended(h, t, h.logs[t] + es))
    ensures HistoryOk(Appended(h, t, h.logs[t] + es))
  {
    var h' := Appended(h, t, h.logs[t] + es);
    AppendGrows(h, t, es);
    forall u | u in h'.logs
      ensures TermLogOk(h', u)
    {
      assert TermLogOk(h, u);
      if u == t {
        ExtendedLogOk(h, t, es);
      } else {
        SameTermOk(h, h', u);
      }
    }
  }

  /** A leader's log is its history. */
  lemma LeadingLog(c: Cluster, n: Id)
    requires ElectionInv(c) && LogInv(c) && n in c.nodes && c.nodes[n].role == Leader
    ensures c.nodes[n].term in c.h.logs && c.h.leaders[c.nodes[n].term] == n
    ensures c.nodes[n].log == c.h.logs[c.nodes[n].term]
  {
    assert LeaderLogOk(c, c.nodes[n].term);
  }

  /** The history after any step grows and stays in order. */
  lemma HistoryStep(c: Cluster, l: Label)
    requires ElectionInv(c) && LogInv(c) && Enabled(c, l)
    ensures Grows(c.h, HistoryAfter(c, l)) && HistoryOk(HistoryAfter(c, l))
  {
    var s := c.nodes[l.n];
    if Winning(c, l) {
      WinIsNew(c, l.n, l.vresp);
      assert NodeLogOk(c.h, s);
      WinHistory(c.h, l.n, s);
      SameTermLogs(c.h, Elected(c.h, s.term, l.n, s.log), HistoryAfter(c, l));
    } else if l.DoDispatch? {
      LeadingLog(c, l.n);
      DispatchHistory(c.h, s.term, NewEntries(s.term, l.cmds));
      SameTermLogs(c.h, Appended(c.h, s.term, s.log + NewEntries(s.term, l.cmds)), HistoryAfter(c, l));
    } else {
      SameTermLogs(c.h, c.h, HistoryAfter(c, l));
    }
  }

  lemma SameTermLogs(h0: History, h: History, h': History)
    requires Grows(h0, h) && HistoryOk(h) && h'.logs == h.logs && h'.leaders == h.leaders && h'.start == h.start
    ensures Grows(h0, h') && HistoryOk(h')
  {
    forall t | t in h'.logs
      ensures TermLogOk(h', t)
    {
      assert TermLogOk(h, t);
    }
  }

  // ---------------------------------------------------------------------------
  // What a step does to a node's log

  lemma NodeLogStep(c: Cluster, l: Label)
    requires ElectionInv(c) && LogInv(c) && Enabled(c, l)
    ensures NodeLogOk(HistoryAfter(c, l), NodeAfter(c, l))
  {
    var s, t, h' := c.nodes[l.n], NodeAfter(c, l), HistoryAfter(c, l);
    HistoryStep(c, l);
    assert NodeLogOk(c.h, s);
    if l.DoDispatch? {
      LeadingLog(c, l.n);
      assert TermLogOk(h', s.term);
    } else if l.RecvAppend? || l.RecvHeartbeat? {
      ReceivedLog(c, l);
    } else {
      UntouchedLog(c, l);
      LogOkGrows(c.h, h', s.log);
    }
  }

  /** All other steps leave the log of the node alone and its term no smaller. */
  lemma UntouchedLog(c: Cluster, l: Label)
    requires Enabled(c, l) && !l.DoDispatch? && !l.RecvAppend? && !l.RecvHeartbeat?
    ensures NodeAfter(c, l).log == c.nodes[l.n].log && NodeAfter(c, l).term >= c.nodes[l.n].term
  {
    match l {
      case Commit(n) => CommitQuiet(c.nodes[n]);
      case RecvReply(_, _) =>
      case RecvVoteResp(_, _) =>
      case RecvVoteReq(_, _) =>
      case _ =>
    }
  }

  lemma ReceivedLog(c: Cluster, l: Label)
    requires LogInv(c) && Enabled(c, l) && (l.RecvAppend? || l.RecvHeartbeat?)
    ensures NodeLogOk(HistoryAfter(c, l), NodeAfter(c, l))
  {
    assert NodeLogOk(c.h, c.nodes[l.n]);
    if l.RecvAppend? {
      assert ReqOk(c.ids, c.h, l.areq);
      AppendLogOk(c.ids, c.h, c.nodes[l.n], l.areq);
    } else {
      assert BeatOk(c.ids, c.h, l.areq);
      BeatLogOk(c.ids, c.h, c.nodes[l.n], l.areq);
    }
    SameNodeLog(c.h, HistoryAfter(c, l), NodeAfter(c, l));
  }

  lemma SameNodeLog(h: History, h': History, s: State)
    requires NodeLogOk(h, s) && h'.logs == h.logs
    ensures NodeLogOk(h', s)
  {
  }

  lemma AppendLogOk(ids: set<Id>, h: History, s: State, req: AppendReq)
    requires HistoryOk(h) && NodeLogOk(h, s) && ReqOk(ids, h, req)
    ensures NodeLogOk(h, AppendEntries(s, req))
  {
    AppendedLog(s, req);
    if Accepts(s, req) {
      StoredLogOk(ids, h, s, req);
    }
  }

  lemma AppendedLog(s: State, req: AppendReq)
    ensures var r := AppendEntries(s, req);
            r.term == Max(s.term, req.term) && r.log == (if Accepts(s, req) then StoreEntries(s.log, req) else s.log)
  {
  }

  lemma BeatLogOk(ids: set<Id>, h: History, s: State, req: AppendReq)
    requires NodeLogOk(h, s) && BeatOk(ids, h, req)
    ensures NodeLogOk(h, AppendEntries(s, req)) && AppendEntries(s, req).log == s.log
  {
  }

  /** A node never stores another leader's entries in a term it won itself. */
  lemma LeaderLogStep(c: Cluster, l: Label, t: nat)
    requires ElectionInv(c) && LogInv(c) && Enabled(c, l) && t in LeadersAfter(c, l)
    ensures t in LogsAfter(c, l) && LeaderLogOk(Apply(c, l), t)
  {
    if t !in c.h.leaders {
      NewLeaderLog(c, l, t);
    } else {
      WinnerStays(c, l, t);
      if l.n == c.h.leaders[t] {
        OwnLogStep(c, l, t);
        OwnLeaderLog(c, l, t);
      } else {
        OtherLogStep(c, l, t);
        assert LeaderLogOk(c, t);
        OtherLeaderLog(c, l, t);
      }
    }
  }

  lemma NewLeaderLog(c: Cluster, l: Label, t: nat)
    requires Enabled(c, l) && t !in c.h.leaders && t in LeadersAfter(c, l)
    ensures t in LogsAfter(c, l) && LeaderLogOk(Apply(c, l), t)
  {
  }

  lemma OwnLeaderLog(c: Cluster, l: Label, t: nat)
    requires Enabled(c, l) && t in LeadersAfter(c, l) && LeadersAfter(c, l)[t] == l.n && t in LogsAfter(c, l)
    requires NodeAfter(c, l).term == t ==> NodeAfter(c, l).log == LogsAfter(c, l)[t]
    ensures LeaderLogOk(Apply(c, l), t)
  {
  }

  lemma OtherLeaderLog(c: Cluster, l: Label, t: nat)
    requires Enabled(c, l) && t in c.h.leaders && t in c.h.logs && l.n != c.h.leaders[t] && LeaderLogOk(c, t)
    requires t in LeadersAfter(c, l) && LeadersAfter(c, l)[t] == c.h.leaders[t]
    requires t in LogsAfter(c, l) && LogsAfter(c, l)[t] == c.h.logs[t]
    ensures LeaderLogOk(Apply(c, l), t)
  {
  }

  lemma WinnerStays(c: Cluster, l: Label, t: nat)
    requires ElectionInv(c) && Enabled(c, l) && t in c.h.leaders
    ensures t in LeadersAfter(c, l) && LeadersAfter(c, l)[t] == c.h.leaders[t]
    ensures c.h.leaders[t] in c.nodes
  {
    assert WinnerOk(c, t);
    if Winning(c, l) {
      WinIsNew(c, l.n, l.vresp);
    }
  }

  /** A step elsewhere leaves the history of a term's leader alone. */
  lemma OtherLogStep(c: Cluster, l: Label, t: nat)
    requires ElectionInv(c) && LogInv(c) && Enabled(c, l) && t in c.h.leaders && l.n != c.h.leaders[t]
    ensures t in LogsAfter(c, l) && LogsAfter(c, l)[t] == c.h.logs[t]
  {
    if l.DoDispatch? {
      LeadingLog(c, l.n);
    } else {
      TermLogStays(c, l, t);
    }
  }

  /** Only a dispatch changes the history of a term that has a leader. */
  lemma TermLogStays(c: Cluster, l: Label, t: nat)
    requires ElectionInv(c) && Enabled(c, l) && !l.DoDispatch? && t in c.h.leaders && t in c.h.logs
    ensures t in LogsAfter(c, l) && LogsAfter(c, l)[t] == c.h.logs[t]
  {
    if Winning(c, l) {
      WinIsNew(c, l.n, l.vresp);
    }
  }

  lemma OwnLogStep(c: Cluster, l: Label, t: nat)
    requires ElectionInv(c) && LogInv(c) && Enabled(c, l) && t in c.h.leaders && l.n == c.h.leaders[t]
    ensures t in LogsAfter(c, l)
    ensures NodeAfter(c, l).term == t ==> NodeAfter(c, l).log == LogsAfter(c, l)[t]
  {
    if l.RecvAppend? || l.RecvHeartbeat? {
      OwnReceived(c, l, t);
    } else if l.DoDispatch? {
      LeadingLog(c, l.n);
      assert LeaderLogOk(c, t);
    } else {
      assert LeaderLogOk(c, t) && WinnerOk(c, t);
      OwnUntouched(c, l, t);
    }
  }

  lemma OwnReceived(c: Cluster, l: Label, t: nat)
    requires ElectionInv(c) && LogInv(c) && Enabled(c, l) && (l.RecvAppend? || l.RecvHeartbeat?)
    requires t in c.h.leaders && l.n == c.h.leaders[t]
    ensures t in LogsAfter(c, l)
    ensures NodeAfter(c, l).term == t ==> NodeAfter(c, l).log == LogsAfter(c, l)[t]
  {
    assert LeaderLogOk(c, t) && WinnerOk(c, t);
    if l.RecvAppend? {
      assert ReqOk(c.ids, c.h, l.areq);
    } else {
      assert BeatOk(c.ids, c.h, l.areq);
    }
    OwnReceive(c, l.n, l.areq, t);
  }

  lemma OwnUntouched(c: Cluster, l: Label, t: nat)
    requires ElectionInv(c) && Enabled(c, l) && !l.DoDispatch? && !l.RecvAppend? && !l.RecvHeartbeat?
    requires t in c.h.leaders && t in c.h.logs && l.n == c.h.leaders[t] && LeaderLogOk(c, t) && WinnerOk(c, t)
    ensures t in LogsAfter(c, l)
    ensures NodeAfter(c, l).term == t ==> NodeAfter(c, l).log == LogsAfter(c, l)[t]
  {
    UntouchedLog(c, l);
    TermLogStays(c, l, t);
  }

  lemma OwnReceive(c: Cluster, n: Id, req: AppendReq, t: nat)
    requires n in c.nodes && t in c.h.leaders && n == c.h.leaders[t] && WinnerOk(c, t)
    requires req.term in c.h.leaders && c.h.leaders[req.term] != n
    ensures AppendEntries(c.nodes[n], req).term == t ==>
          AppendEntries(c.nodes[n], req).log == c.nodes[n].log && c.nodes[n].term == t
  {
  }

  // ---------------------------------------------------------------------------
  // Messages

  lemma MadeReqOk(c: Cluster, n: Id, to: Id, last: nat)
    requires n in c.nodes && NodeOk(c.ids, n, c.nodes[n]) && c.nodes[n].role == Leader && to in c.nodes[n].repl
    requires last <= |c.nodes[n].log|
    requires c.nodes[n].term in c.h.logs && c.nodes[n].term in c.h.leaders
    requires c.h.leaders[c.nodes[n].term] == n && c.nodes[n].log == c.h.logs[c.nodes[n].term]
    ensures ReqOk(c.ids, c.h, MakeAppend(c.nodes[n], n, to, last, c.maxAppend))
  {
  }

  lemma WireStep(c: Cluster, l: Label, req: AppendReq)
    requires ElectionInv(c) && LogInv(c) && Enabled(c, l) && req in WireAfter(c, l)
    ensures ReqOk(c.ids, c.h, req)
  {
    if req !in c.wire {
      LeadingLog(c, l.n);
      MadeReqOk(c, l.n, l.to, l.last);
    }
  }

  lemma BeatStep(c: Cluster, l: Label, req: AppendReq)
    requires ElectionInv(c) && LogInv(c) && Enabled(c, l) && req in BeatsAfter(c, l)
    ensures BeatOk(c.ids, c.h, req)
  {
    if req !in c.beats {
      assert l.SendHeartbeat?;
      LeadingLog(c, l.n);
    }
  }

  lemma MessagesStep(c: Cluster, l: Label, h': History)
    requires ElectionInv(c) && LogInv(c) && Enabled(c, l) && Grows(c.h, h')
    ensures forall req | req in WireAfter(c, l) :: ReqOk(c.ids, h', req)
    ensures forall req | req in BeatsAfter(c, l) :: BeatOk(c.ids, h', req)
  {
    forall req | req in WireAfter(c, l)
      ensures ReqOk(c.ids, h', req)
    {
      WireStep(c, l, req);
      ReqOkGrows(c.ids, c.h, h', req);
    }
    forall req | req in BeatsAfter(c, l)
      ensures BeatOk(c.ids, h', req)
    {
      BeatStep(c, l, req);
    }
  }

  lemma RepliesStep(c: Cluster, l: Label)
    requires LogInv(c) && Enabled(c, l)
    ensures forall resp | resp in RepliesAfter(c, l) :: resp.req in WireAfter(c, l)
  {
  }

  /** Every step keeps the invariant, whatever is lost, duplicated or reordered. */
  lemma LogStep(c: Cluster, l: Label)
    requires ElectionInv(c) && LogInv(c) && Enabled(c, l)
    ensures LogInv(Apply(c, l))
  {
    var c' := Apply(c, l);
    StepIsLocal(c, l);
    HistoryStep(c, l);
    MessagesStep(c, l, c'.h);
    RepliesStep(c, l);
    NodesStep(c, l);
    forall t | t in c'.h.logs
      ensures LeaderLogOk(c', t)
    {
      LeaderLogStep(c, l, t);
    }
  }

  lemma NodesStep(c: Cluster, l: Label)
    requires ElectionInv(c) && LogInv(c) && Enabled(c, l)
    ensures forall n | n in Apply(c, l).nodes :: NodeLogOk(Apply(c, l).h, Apply(c, l).nodes[n])
    ensures forall n | n in Apply(c, l).nodes :: NodeOk(c.ids, n, Apply(c, l).nodes[n])
  {
    var c' := Apply(c, l);
    StepIsLocal(c, l);
    HistoryStep(c, l);
    NodeLogStep(c, l);
    if l.RecvReply? {
      LeadingLog(c, l.n);
      assert ReqOk(c.ids, c.h, l.aresp.req);
    }
    StepKeepsNodeOk(c, l);
    forall n | n in c'.nodes
      ensures NodeLogOk(c'.h, c'.nodes[n]) && NodeOk(c.ids, n, c'.nodes[n])
    {
      if n != l.n {
        assert NodeLogOk(c.h, c.nodes[n]);
        LogOkGrows(c.h, c'.h, c.nodes[n].log);
      }
    }
  }
}
