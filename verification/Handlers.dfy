/**
  What each handler of a node does, said without the helper functions that define it: when exactly a
  vote is given, when exactly a candidate starts to lead, what exactly a leader sends and a follower
  stores, and that what is committed is applied.
 */
module Handlers {
  import opened Basics
  import opened Node
  import I = Inflight

  // ---------------------------------------------------------------------------
  // Votes

  /** `clog` is at least as up to date as `vlog`: a later last term, or the same and at least as long. */
  predicate AtLeastAsUpToDate(clog: Log, vlog: Log) {
    var c, v := if clog == [] then 0 else clog[|clog| - 1].term, if vlog == [] then 0 else vlog[|vlog| - 1].term;
    v < c || (v == c && |vlog| <= |clog|)
  }

  /** The request describes the candidate's log. */
  predicate Describes(req: VoteReq, clog: Log) {
    req.lastIndex == |clog| && req.lastTerm == if clog == [] then 0 else clog[|clog| - 1].term
  }

  /** No other leader is known and the request is not of an older term. */
  predicate Listens(n: State, req: VoteReq) {
    (n.leader == None || n.leader == Some(req.candidate)) && n.term <= req.term
  }

  /** When exactly a vote is given, and what the answer says. */
  lemma VoteIsGivenWhen(n: State, self: Id, req: VoteReq, clog: Log)
    requires Describes(req, clog)
    ensures VoteAnswer(n, self, req).granted <==>
            && (n.leader == None || n.leader == Some(req.candidate)) && n.term <= req.term
            && (if n.voteTerm == req.term && n.voteCand != None then n.voteCand == Some(req.candidate)
                else AtLeastAsUpToDate(clog, n.log))
    ensures var a := VoteAnswer(n, self, req);
            && a.voter == self && a.to == req.candidate && a.reqTerm == req.term
            && a.term == (if Listens(n, req) then req.term else n.term)
  {
  }

  /** What a vote request leaves behind: the newer term, the one vote of the term, and nothing else. */
  lemma VoteRequestLeaves(n: State, self: Id, req: VoteReq)
    ensures var r, granted := RequestVote(n, req), VoteAnswer(n, self, req).granted;
            && r.term == (if Listens(n, req) then req.term else n.term)
            && (if granted then r.voteTerm == req.term && r.voteCand == Some(req.candidate)
                else r.voteTerm == n.voteTerm && r.voteCand == n.voteCand)
            && r.log == n.log && r.commit == n.commit && r.applied == n.applied
            && (if r.term > n.term then r.role == Follower && r.leader == None
                else r == n.(voteTerm := r.voteTerm, voteCand := r.voteCand))
  {
  }

  lemma ElectionStarts(n: State, self: Id)
    ensures var r := ElectSelf(n, self);
            && r.term == n.term + 1 == r.voteTerm && r.voteCand == Some(self) && r.role == Candidate && r.leader == None
            && r.log == n.log && r.commit == n.commit && r.applied == n.applied && r.granted == 0 && r.answered == {}
            && VoteRequest(r, self).term == r.term && VoteRequest(r, self).candidate == self
            && Describes(VoteRequest(r, self), n.log)
  {
  }

  /** A candidate leads as soon as more than half of the members gave it their vote, and not before. */
  lemma LeadsWithMajority(n: State, self: Id, ids: set<Id>, resp: VoteResp)
    requires n.role == Candidate
    ensures CountVote(n, self, ids, resp).role == Leader <==>
            resp.term <= n.term && 2 * (n.granted + (if resp.granted then 1 else 0)) > |ids|
  {
  }

  /** What counting an answer leaves behind. */
  lemma CountingLeaves(n: State, self: Id, ids: set<Id>, resp: VoteResp)
    requires n.role == Candidate
    ensures var r := CountVote(n, self, ids, resp);
            && r.term == Max(n.term, resp.term) && r.log == n.log
            && r.voteTerm == n.voteTerm && r.voteCand == n.voteCand
            && r.commit == n.commit && r.applied == n.applied
            && (r.role == Follower <==> resp.term > n.term)
            && (r.role == Candidate ==>
                  && r.answered == n.answered + {resp.voter}
                  && r.granted == n.granted + (if resp.granted then 1 else 0))
            && (r.role == Leader ==>
                  && r.leader == Some(self) && r.inflight == I.Empty() && r.repl.Keys == ids - {self}
                  && forall p | p in r.repl :: r.repl[p] == Replicator(|n.log| + 1, 0, |n.log|, false))
  {
  }

  // ---------------------------------------------------------------------------
  // Commits

  lemma {:induction false} ListIsApplied(n: State, list: seq<nat>)
    requires forall k | 0 <= k < |list| :: list[k] <= |n.log|
    ensures var r := CommitList(n, list);
            && r == n.(commit := r.commit, applied := r.applied)
            && r.commit == (if list == [] then n.commit else list[|list| - 1])
            && (forall k | 0 <= k < |list| :: list[k] <= |r.applied|)
            && Extends(n, r.applied)
            && (|r.applied| == |n.applied| || |r.applied| in list)
    decreases |list|
  {
    if list != [] {
      var m := ProcessLogs(n.(commit := list[0]), list[0]);
      assert Extends(n, m.applied);
      ListIsApplied(m, list[1..]);
      ExtendsOn(n, m, CommitList(n, list).applied);
      forall k | 0 <= k < |list|
        ensures list[k] <= |CommitList(n, list).applied|
      {
        assert k > 0 ==> list[k] == list[1..][k - 1];
      }
    }
  }

  /** More of the log has been applied, in order. */
  ghost predicate Extends(n: State, applied: Log) {
    && n.applied <= applied && (|applied| > |n.applied| ==> |applied| <= |n.log|)
    && forall i | |n.applied| <= i < |applied| :: applied[i] == n.log[i]
  }

  lemma ExtendsOn(n: State, m: State, applied: Log)
    requires m.log == n.log && Extends(n, m.applied) && Extends(m, applied)
    ensures Extends(n, applied)
  {
  }

  /** The leader's commit: everything listed is applied, from the log and in order, and the commit
      index is the last one listed. */
  lemma CommittedIsApplied(n: State)
    requires Ok(n)
    ensures var r, list := ApplyCommitted(n), n.inflight.committed;
            && r.log == n.log && r.term == n.term && r.role == n.role && r.repl == n.repl
            && r.inflight == n.inflight.(committed := [])
            && r.commit == (if list == [] then n.commit else list[|list| - 1])
            && (forall i | i in list :: i <= |r.applied|)
            && Extends(n, r.applied)
            && (|r.applied| == |n.applied| || |r.applied| in list)
  {
    ListIsApplied(n.(inflight := n.inflight.(committed := [])), n.inflight.committed);
  }

  /** A dispatch appends the commands, with the leader's term, and changes nothing but log and tracker. */
  lemma DispatchLeaves(n: State, cmds: seq<(LogType, string)>, clusterSize: nat)
    requires Ok(n)
    ensures var r := Dispatch(n, cmds, clusterSize);
            && r == n.(log := r.log, inflight := r.inflight)
            && |r.log| == |n.log| + |cmds| && r.log[..|n.log|] == n.log
            && forall i | 0 <= i < |cmds| :: r.log[|n.log| + i] == Entry(n.term, cmds[i].0, cmds[i].1)
  {
  }

  // ---------------------------------------------------------------------------
  // Requests and replies

  /** What a leader sends: its term and commit index, the entry before the next one, and at most
      `maxAppend` entries from the next one on. */
  lemma RequestCarries(n: State, self: Id, to: Id, last: nat, maxAppend: nat)
    requires to in n.repl && 1 <= n.repl[to].next <= |n.log| + 1 && last <= |n.log|
    ensures var req, next := MakeAppend(n, self, to, last, maxAppend), n.repl[to].next;
            && req.term == n.term && req.leader == self && req.to == to && req.commit == n.commit
            && req.prev == next - 1 && req.prevTerm == (if next == 1 then 0 else n.log[next - 2].term)
            && |req.entries| ==
               (if last < next then 0 else if last - next + 1 < maxAppend then last - next + 1 else maxAppend)
            && forall i | 0 <= i < |req.entries| :: req.entries[i] == n.log[next - 1 + i]
  {
  }

  /** The follower holds what precedes the new entries, and the request is not of an older term. */
  predicate Fits(n: State, req: AppendReq) {
    && n.term <= req.term
    && (req.prev == 0 || (req.prev <= |n.log| && n.log[req.prev - 1].term == req.prevTerm))
  }

  /** When exactly a request is accepted, and what the answer says. */
  lemma RequestIsAcceptedWhen(n: State, req: AppendReq)
    ensures AppendAnswer(n, req) ==
            AppendResp(req, if req.term > n.term then req.term else n.term, |n.log|, Fits(n, req))
  {
  }

  /** What a request leaves of the log. */
  lemma RequestLeavesLog(n: State, req: AppendReq)
    ensures AppendEntries(n, req).log ==
            if Fits(n, req) && req.entries != [] then n.log[..req.prev] + req.entries else n.log
  {
  }

  /** The commit index a follower adopts, and that it applies everything up to it. */
  lemma RequestIsApplied(n: State, req: AppendReq)
    ensures var r, adopts := AppendEntries(n, req), Fits(n, req) && req.commit > n.commit;
            && r.commit == (if !adopts then n.commit else if req.commit <= |r.log| then req.commit else |r.log|)
            && |r.applied| == (if adopts && r.commit > |n.applied| then r.commit else |n.applied|)
            && Extends(n.(log := r.log), r.applied)
  {
    if Fits(n, req) {
      CommitIsAdopted(LeaderSeen(n, req).(log := AppendEntries(n, req).log), req.commit);
    }
  }

  lemma CommitIsAdopted(n: State, leaderCommit: nat)
    ensures var r, adopts := AdoptCommit(n, leaderCommit), leaderCommit > n.commit;
            && r == n.(commit := r.commit, applied := r.applied)
            && r.commit == (if !adopts then n.commit else if leaderCommit <= |n.log| then leaderCommit else |n.log|)
            && |r.applied| == (if adopts && r.commit > |n.applied| then r.commit else |n.applied|)
            && Extends(n, r.applied)
  {
  }

  lemma RequestLeavesRole(n: State, req: AppendReq)
    ensures var r := AppendEntries(n, req);
            && (if n.term <= req.term then r.term == req.term && r.role == Follower && r.leader == Some(req.leader)
                else r == n)
            && r.voteTerm == n.voteTerm && r.voteCand == n.voteCand
  {
  }

  /** A heartbeat makes a node that is not ahead follow its sender, and touches neither log nor commit index. */
  lemma HeartbeatLeaves(n: State, sender: State, self: Id, to: Id)
    ensures var r := AppendEntries(n, Heartbeat(sender, self, to));
            && r.log == n.log && r.commit == n.commit && r.applied == n.applied
            && (if n.term <= sender.term then r.term == sender.term && r.role == Follower && r.leader == Some(self)
                else r == n)
  {
  }

  /** What a reply does to its replicator, and to no other. */
  lemma ReplyLeaves(n: State, resp: AppendResp)
    requires Ok(n) && resp.req.to in n.repl && n.repl[resp.req.to].next >= 1
    ensures var r, to, sent := HandleReply(n, resp), resp.req.to, |resp.req.entries|;
            var s := n.repl[to];
            && r == n.(repl := r.repl, inflight := r.inflight)
            && r.repl.Keys == n.repl.Keys && (forall p | p in n.repl && p != to :: r.repl[p] == n.repl[p])
            && (r.repl[to].stopped <==> s.stopped || resp.term > resp.req.term)
            && r.repl[to].next ==
               (if resp.term > resp.req.term || (resp.success && sent == 0) then s.next
                else if resp.success then resp.req.prev + sent + 1
                else if resp.lastLog + 1 < s.next - 1 then resp.lastLog + 1
                else if s.next > 2 then s.next - 1 else 1)
            && r.repl[to].last == s.last
            && r.repl[to].match' ==
               (if resp.term > resp.req.term || (resp.success && sent == 0) then s.match' else r.repl[to].next - 1)
            && (resp.term > resp.req.term || !resp.success || sent == 0 ==> r.inflight == n.inflight)
            && (resp.term <= resp.req.term && resp.success && sent > 0 ==>
                  r.inflight == I.CommitEach(n.inflight, resp.req.prev + 1, resp.req.prev + sent))
  {
    I.CommitRangeIsCommitEach(n.inflight, resp.req.prev + 1, resp.req.prev + |resp.req.entries|);
  }

  /** A restart keeps exactly what is on disk. */
  lemma RestartKeeps(n: State)
    ensures var r := Restarted(n);
            && r.term == n.term && r.voteTerm == n.voteTerm && r.voteCand == n.voteCand && r.log == n.log
            && r.role == Follower && r.leader == None && r.commit == 0 && r.applied == []
            && r.repl == map[] && r.inflight == I.Empty()
  {
  }
}
