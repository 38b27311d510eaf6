/**
  A Raft server as the source keeps it: fields and the stable store changed in place, log entries
  appended, applied and copied in loops, and a commit tracker object that is rebuilt for every
  election.  Each method does to the fields what the function of Node.dfy with the same name does
  to the value of the server.
 */
module Server {
  import opened Basics
  import opened Node
  import opened NodeFacts
  import opened Cluster
  import I = Inflight
  import L = InflightLog

  class RaftServer {
    const self: Id
    const peers: seq<Id>                 // the other members
    const maxAppend: nat
    // stable store and log store
    var currentTerm: nat
    var lastVoteTerm: nat
    var lastVoteCand: Option<Id>
    var log: Log
    // volatile
    var role: Role
    var leader: Option<Id>
    var commitIndex: nat
    var lastApplied: nat
    var applied: Log
    var answered: set<Id>
    var grantedVotes: nat
    var replState: map<Id, Replicator>
    var inflight: L.InflightLog<nat>

    ghost function Members(): set<Id> {
      {self} + set p | p in peers
    }

    ghost function Value(): State
      reads this, inflight
    {
      State(currentTerm, lastVoteTerm, lastVoteCand, log, role, leader, commitIndex, applied,
            answered, grantedVotes, replState, inflight.Value())
    }

    ghost predicate Valid()
      reads this, inflight
    {
      && inflight.Ok() && NodeOk(Members(), self, Value())
      && (role == Leader ==> !inflight.closed)
      && lastApplied == |applied|
      && self !in peers && (forall i, j | 0 <= i < j < |peers| :: peers[i] != peers[j])
    }

    constructor (self: Id, peers: seq<Id>, maxAppend: nat)
      requires self !in peers && forall i, j | 0 <= i < j < |peers| :: peers[i] != peers[j]
      ensures Valid() && Value() == Fresh() && fresh(inflight)
      ensures this.self == self && this.peers == peers && this.maxAppend == maxAppend
    {
      this.self, this.peers, this.maxAppend := self, peers, maxAppend;
      currentTerm, lastVoteTerm, lastVoteCand, log := 0, 0, None, [];
      role, leader, commitIndex, lastApplied, applied := Follower, None, 0, 0, [];
      answered, grantedVotes, replState := {}, 0, map[];
      inflight := new L.InflightLog();
    }

    /** What the end of a leadership does to its tracker. */
    method EndLeadership()
      requires Valid()
      modifies inflight
      ensures inflight.Ok() && inflight.Value() == I.Empty()
    {
      if role == Leader {
        var _ := inflight.Cancel();
      }
    }

    /** setState(Follower) and setCurrentTerm, with the deferred cleanup of runLeader. */
    method BecomeFollower(term: nat)
      requires Valid()
      modifies this, inflight
      ensures Valid() && inflight == old(inflight) && Value() == ToFollower(old(Value()), term)
    {
      EndLeadership();
      role, leader, currentTerm := Follower, None, term;
      answered, grantedVotes, replState := {}, 0, map[];
    }

    /** persistVote: two writes. */
    method PersistVote(term: nat, candidate: Id)
      modifies this`lastVoteTerm, this`lastVoteCand
      ensures lastVoteTerm == term && lastVoteCand == Some(candidate)
    {
      lastVoteTerm := term;
      lastVoteCand := Some(candidate);
    }

    method ElectSelf() returns (req: VoteReq)
      requires Valid() && role != Leader
      modifies this, inflight
      ensures Valid() && inflight == old(inflight)
      ensures Value() == Node.ElectSelf(old(Value()), self) && req == VoteRequest(Value(), self)
    {
      BecomeFollower(currentTerm + 1);
      role := Candidate;
      req := VoteReq(currentTerm, self, |log|, LastTerm(log));
      PersistVote(req.term, self);
    }

    /** The second half of requestVote: one vote per term, for a log that is at least as up to date. */
    method CastVote(req: VoteReq) returns (granted: bool)
      requires req.term == currentTerm
      modifies this`lastVoteTerm, this`lastVoteCand
      ensures var voted := old(lastVoteTerm) == req.term && old(lastVoteCand) != None;
              && granted == (if voted then old(lastVoteCand) == Some(req.candidate) else UpToDate(log, req))
              && (if !voted && granted then lastVoteTerm == req.term && lastVoteCand == Some(req.candidate)
                  else lastVoteTerm == old(lastVoteTerm) && lastVoteCand == old(lastVoteCand))
    {
      if lastVoteTerm == req.term && lastVoteCand != None {
        return lastVoteCand == Some(req.candidate);
      }
      var lastTerm := LastTerm(log);
      if lastTerm > req.lastTerm {
        return false;
      }
      if lastTerm == req.lastTerm && |log| > req.lastIndex {
        return false;
      }
      PersistVote(req.term, req.candidate);
      return true;
    }

    method RequestVote(req: VoteReq) returns (resp: VoteResp)
      requires Valid()
      modifies this, inflight
      ensures Valid() && inflight == old(inflight)
      ensures Value() == Node.RequestVote(old(Value()), req) && resp == VoteAnswer(old(Value()), self, req)
    {
      resp := VoteResp(self, req.candidate, req.term, currentTerm, false);
      if leader != None && leader != Some(req.candidate) {
        return;
      }
      if req.term < currentTerm {
        return;
      }
      if req.term > currentTerm {
        BecomeFollower(req.term);
        resp := resp.(term := req.term);
      }
      var granted := CastVote(req);
      resp := resp.(granted := granted);
    }

    /** One replicator per peer, each starting after the last entry. */
    method StartReplication()
      requires self !in peers
      modifies this`replState
      ensures replState == map p | p in Members() - {self} :: Replicator(|log| + 1, 0, |log|, false)
    {
      replState := map[];
      var k := 0;
      while k < |peers|
        invariant k <= |peers| && replState == map p | p in peers[..k] :: Replicator(|log| + 1, 0, |log|, false)
      {
        replState := replState[peers[k] := Replicator(|log| + 1, 0, |log|, false)];
        k := k + 1;
      }
      assert peers[..k] == peers;
      assert forall p :: p in peers <==> p in Members() - {self};
    }

    /** runLeader's setup: a fresh tracker and fresh replicators. */
    method SetupLeader()
      requires Valid() && role == Candidate
      modifies this, inflight
      ensures Valid() && fresh(inflight) && Value() == BecomeLeader(old(Value()), self, Members())
    {
      NewLeaderOk(Members(), self, Value());
      role, leader, answered, grantedVotes := Leader, Some(self), {}, 0;
      inflight := new L.InflightLog();
      StartReplication();
      assert Value() == BecomeLeader(old(Value()), self, Members());
    }

    lemma MembersSize()
      requires Valid()
      ensures |Members()| == |peers| + 1
    {
      DistinctSize(peers);
    }

    method Tally(resp: VoteResp)
      requires Valid() && role == Candidate
      modifies this`answered, this`grantedVotes
      ensures Valid()
      ensures Value() == old(Value()).(answered := old(answered) + {resp.voter},
                                       granted := old(grantedVotes) + (if resp.granted then 1 else 0))
    {
      answered := answered + {resp.voter};
      if resp.granted {
        grantedVotes := grantedVotes + 1;
      }
    }

    /** One turn of runCandidate's tally; winning also runs runLeader's setup. */
    method CountVote(resp: VoteResp)
      requires Valid() && role == Candidate
      modifies this, inflight
      ensures Valid() && (inflight == old(inflight) || fresh(inflight))
      ensures Value() == Node.CountVote(old(Value()), self, Members(), resp)
    {
      MembersSize();
      var votesNeeded := (|peers| + 1) / 2 + 1;
      if resp.term > currentTerm {
        BecomeFollower(resp.term);
        return;
      }
      Tally(resp);
      if grantedVotes >= votesNeeded {
        SetupLeader();
      }
    }

    // -------------------------------------------------------------------------
    // The log

    /** The first loop of dispatchLogs: the next indexes and the current term for a batch. */
    method Stamp(cmds: seq<(LogType, string)>) returns (entries: Log)
      ensures entries == NewEntries(currentTerm, cmds)
    {
      entries := [];
      for k := 0 to |cmds|
        invariant |entries| == k && forall i | 0 <= i < k :: entries[i] == Entry(currentTerm, cmds[i].0, cmds[i].1)
      {
        entries := entries + [Entry(currentTerm, cmds[k].0, cmds[k].1)];
      }
    }

    /** inflight.StartAll over a batch that begins at `first`. */
    method StartAll(first: nat, count: nat)
      requires inflight.Ok() && !inflight.closed && (count > 0 ==> I.CanStart(inflight.Value(), first))
      modifies inflight
      ensures inflight.Ok() && !inflight.closed
      ensures inflight.Value() == StartRange(old(inflight.Value()), first, count, Majority(|peers| + 1))
    {
      ghost var goal := StartRange(inflight.Value(), first, count, Majority(|peers| + 1));
      var next, left := first, count;
      while left > 0
        invariant left >= 0 && inflight.Ok() && !inflight.closed
        invariant ToStart(inflight.Value(), next, left, Majority(|peers| + 1), goal)
      {
        StartNext(next, left, goal);
        next, left := next + 1, left - 1;
      }
    }

    method StartNext(next: nat, ghost left: nat, ghost goal: I.Tracker<nat>)
      requires inflight.Ok() && !inflight.closed && left > 0
      requires ToStart(inflight.Value(), next, left, Majority(|peers| + 1), goal)
      modifies inflight
      ensures inflight.Ok() && !inflight.closed
      ensures ToStart(inflight.Value(), next + 1, left - 1, Majority(|peers| + 1), goal)
    {
      StartRangeStep(inflight.Value(), next, left, Majority(|peers| + 1));
      inflight.StartOne(next, next, Majority(|peers| + 1));
    }

    method DispatchLogs(cmds: seq<(LogType, string)>)
      requires Valid() && role == Leader
      modifies this`log, inflight
      ensures Valid() && Value() == Dispatch(old(Value()), cmds, |Members()|)
    {
      MembersSize();
      DispatchKeepsOk(Members(), self, Value(), cmds);
      var lastIndex := |log|;
      var entries := Stamp(cmds);
      StartAll(lastIndex + 1, |cmds|);
      log := log + entries;
    }

    /** processLogs: every entry after the last applied one, up to `index`, one by one. */
    method ProcessLogs(index: nat)
      requires Valid() && index <= |log|
      modifies this`applied, this`lastApplied
      ensures Valid() && Value() == Node.ProcessLogs(old(Value()), index)
    {
      if index <= lastApplied {
        return;
      }
      var idx := lastApplied + 1;
      while idx <= index
        invariant |old(applied)| < idx <= index + 1 && lastApplied == idx - 1 == |applied|
        invariant applied == old(applied) + log[|old(applied)|..idx - 1]
      {
        applied := applied + [log[idx - 1]];
        lastApplied := idx;
        idx := idx + 1;
      }
    }

    method CommitOne(index: nat)
      requires Valid() && index <= |log|
      modifies this`commitIndex, this`applied, this`lastApplied
      ensures Valid() && Value() == Node.ProcessLogs(old(Value()).(commit := index), index)
    {
      commitIndex := index;
      ProcessLogs(index);
    }

    /** The commit case of the leader loop. */
    method ApplyCommitted()
      requires Valid() && role == Leader
      modifies this`commitIndex, this`applied, this`lastApplied, inflight
      ensures Valid() && Value() == Node.ApplyCommitted(old(Value()))
    {
      CommitKeepsOk(Members(), self, Value());
      var ready := inflight.Take();
      ghost var v0 := Value();
      var k := 0;
      while k < |ready|
        invariant k <= |ready| && Valid() && role == Leader && log == v0.log
        invariant CommitList(v0, ready) == CommitList(Value(), ready[k..])
      {
        assert ready[k..][0] == ready[k] && ready[k..][1..] == ready[k + 1..];
        CommitOne(ready[k]);
        k := k + 1;
      }
    }

    // -------------------------------------------------------------------------
    // Replication

    /** setNewLogs: at most maxAppend entries, up to `last`. */
    method NewLogs(next: nat, last: nat) returns (entries: Log)
      requires 1 <= next <= |log| + 1 && last <= |log|
      ensures entries == log[next - 1..Max(Min(next - 1 + maxAppend, last), next - 1)]
    {
      entries := [];
      var maxIndex := Min(next - 1 + maxAppend, last);
      ghost var end := Max(maxIndex, next - 1);
      var i := next;
      while i <= maxIndex
        invariant next <= i <= end + 1 && entries == log[next - 1..i - 1]
      {
        assert log[next - 1..i] == log[next - 1..i - 1] + [log[i - 1]];
        entries := entries + [log[i - 1]];
        i := i + 1;
      }
    }

    method SetupAppendEntries(to: Id, last: nat) returns (req: AppendReq)
      requires Valid() && role == Leader && to in replState && last <= |log|
      ensures req == MakeAppend(Value(), self, to, last, maxAppend)
    {
      var next := replState[to].next;
      var prev, prevTerm := 0, 0;
      if next != 1 {
        prev, prevTerm := next - 1, log[next - 2].term;
      }
      var entries := NewLogs(next, last);
      req := AppendReq(currentTerm, self, to, prev, prevTerm, entries, commitIndex);
    }

    /** The check of the entry before the new ones. */
    method PreviousMatches(req: AppendReq) returns (ok: bool)
      ensures ok == PrevMatches(log, req)
    {
      if req.prev > 0 {
        var lastIdx, lastTerm := |log|, LastTerm(log);
        if req.prev == lastIdx {
          return req.prevTerm == lastTerm;
        } else if req.prev > |log| {
          return false;
        }
        return req.prevTerm == log[req.prev - 1].term;
      }
      return true;
    }

    /** DeleteRange from the first new index on, then StoreLogs. */
    method StoreNew(req: AppendReq)
      requires Valid() && role == Follower && PrevMatches(log, req)
      modifies this`log
      ensures Valid() && log == StoreEntries(old(log), req)
    {
      if |req.entries| > 0 {
        var first := req.prev + 1;
        if first <= |log| {
          log := log[..first - 1];
        }
        log := log + req.entries;
      }
    }

    method AdoptCommit(leaderCommit: nat)
      requires Valid()
      modifies this`commitIndex, this`applied, this`lastApplied
      ensures Valid() && Value() == Node.AdoptCommit(old(Value()), leaderCommit)
    {
      if leaderCommit > 0 && leaderCommit > commitIndex {
        var idx := Min(leaderCommit, |log|);
        commitIndex := idx;
        ProcessLogs(idx);
      }
    }

    /** An AppendEntries of a current term makes its sender the leader. */
    method SeeLeader(req: AppendReq)
      requires Valid()
      modifies this, inflight
      ensures Valid() && inflight == old(inflight) && role == Follower
      ensures Value() == LeaderSeen(old(Value()), req)
    {
      if req.term > currentTerm || role != Follower {
        BecomeFollower(req.term);
      }
      leader := Some(req.leader);
    }

    method AppendEntries(req: AppendReq) returns (resp: AppendResp)
      requires Valid()
      modifies this, inflight
      ensures Valid() && inflight == old(inflight)
      ensures Value() == Node.AppendEntries(old(Value()), req) && resp == AppendAnswer(old(Value()), req)
    {
      resp := AppendResp(req, currentTerm, |log|, false);
      if req.term < currentTerm {
        return;
      }
      SeeLeader(req);
      resp := resp.(term := req.term);
      var ok := PreviousMatches(req);
      if !ok {
        return;
      }
      StoreNew(req);
      AdoptCommit(req.commit);
      resp := resp.(success := true);
    }

    /** updateLastAppended: count the entries and move past them. */
    method UpdateLastAppended(req: AppendReq)
      requires inflight.Ok() && req.to in replState
      modifies this`replState, inflight
      ensures inflight.Ok() && inflight.closed == old(inflight.closed)
      ensures req.entries == [] ==> replState == old(replState) && inflight.Value() == old(inflight.Value())
      ensures req.entries != [] ==>
                var end := req.prev + |req.entries|;
                && replState == old(replState)[req.to := old(replState)[req.to].(match' := end, next := end + 1)]
                && inflight.Value() == I.CommitRange(old(inflight.Value()), req.prev + 1, end)
    {
      if |req.entries| > 0 {
        var end := req.prev + |req.entries|;
        inflight.CommitSpan(req.prev + 1, end);
        replState := replState[req.to := replState[req.to].(match' := end, next := end + 1)];
      }
    }

    /** After a rejection: one index back, or right after the follower's last entry, but never below 1. */
    method Backtrack(to: Id, lastLog: nat)
      requires to in replState && replState[to].next >= 1
      modifies this`replState
      ensures var next := Max(Min(old(replState)[to].next - 1, lastLog + 1), 1);
              replState == old(replState)[to := old(replState)[to].(next := next, match' := next - 1)]
    {
      var next := Max(Min(replState[to].next - 1, lastLog + 1), 1);
      replState := replState[to := replState[to].(next := next, match' := next - 1)];
    }

    /** A reply of a newer term stops the replicator. */
    method StopReplicator(resp: AppendResp)
      requires Valid() && role == Leader && resp.req.to in replState && resp.term > resp.req.term
      modifies this`replState
      ensures Valid() && Value() == Node.HandleReply(old(Value()), resp)
    {
      replState := replState[resp.req.to := replState[resp.req.to].(stopped := true)];
    }

    method HandleSuccess(resp: AppendResp)
      requires Valid() && role == Leader && resp.req.to in replState && ReplyFits(Value(), resp)
      requires resp.term <= resp.req.term && resp.success
      modifies this`replState, inflight
      ensures Valid() && Value() == Node.HandleReply(old(Value()), resp)
    {
      ReplyKeepsOk(Members(), self, Value(), resp);
      ghost var after := Node.HandleReply(Value(), resp);
      UpdateLastAppended(resp.req);
      assert Value() == after;
    }

    method HandleRejection(resp: AppendResp)
      requires Valid() && role == Leader && resp.req.to in replState && resp.term <= resp.req.term && !resp.success
      modifies this`replState
      ensures Valid() && Value() == Node.HandleReply(old(Value()), resp)
    {
      ghost var after := Node.HandleReply(Value(), resp);
      Backtrack(resp.req.to, resp.lastLog);
      assert Value() == after;
    }

    /** What replicateTo does with a reply. */
    method HandleReply(resp: AppendResp)
      requires Valid() && role == Leader && resp.req.to in replState && ReplyFits(Value(), resp)
      modifies this`replState, inflight
      ensures Valid() && Value() == Node.HandleReply(old(Value()), resp)
    {
      if resp.term > resp.req.term {
        StopReplicator(resp);
      } else if resp.success {
        HandleSuccess(resp);
      } else {
        HandleRejection(resp);
      }
    }
  }

  /** Starting `count` more entries from `first` on leads to `goal`. */
  ghost predicate ToStart(t: I.Tracker<nat>, first: nat, count: nat, need: nat, goal: I.Tracker<nat>) {
    I.Valid(t) && (count > 0 ==> I.CanStart(t, first)) && goal == StartRange(t, first, count, need)
  }

  lemma StartRangeStep(t: I.Tracker<nat>, first: nat, count: nat, need: nat)
    requires I.Valid(t) && count > 0 && I.CanStart(t, first)
    ensures I.CanStart(I.Start(t, first, first, need), first + 1)
    ensures StartRange(t, first, count, need) == StartRange(I.Start(t, first, first, need), first + 1, count - 1, need)
  {
    StartStaysConsecutive(t, first, need);
  }

  lemma NewLeaderOk(ids: set<Id>, n: Id, s: State)
    requires n in ids
    ensures NodeOk(ids, n, BecomeLeader(s, n, ids))
  {
  }

  lemma {:induction false} DistinctSize(peers: seq<Id>)
    requires forall i, j | 0 <= i < j < |peers| :: peers[i] != peers[j]
    ensures |set p | p in peers| == |peers|
  {
    if peers != [] {
      var rest, last := peers[..|peers| - 1], peers[|peers| - 1];
      DistinctSize(rest);
      assert peers == rest + [last];
      assert (set p | p in peers) == (set p | p in rest) + {last};
    }
  }
}
