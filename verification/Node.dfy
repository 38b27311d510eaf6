/**
  One Raft node as a value (internal/raft/raft.go, replication.go, state.go): its durable and
  volatile fields, and what each handler makes of them.  The class `RaftServer` in Server.dfy
  performs the same handlers in place.
 */
module Node {
  import opened Basics
  import I = Inflight

  /** A peer address. */
  datatype Id = Id(addr: string)

  datatype LogType = LogCommand | LogNoop | LogAddPeer | LogRemovePeer | LogBarrier

  /** A log entry; its index is its position in the log, counted from 1. */
  datatype Entry = Entry(term: nat, kind: LogType, data: string)

  type Log = seq<Entry>

  datatype Role = Follower | Candidate | Leader

  datatype VoteReq = VoteReq(term: nat, candidate: Id, lastIndex: nat, lastTerm: nat)

  /** The answer of `voter` to the request that `to` made in `reqTerm`. */
  datatype VoteResp = VoteResp(voter: Id, to: Id, reqTerm: nat, term: nat, granted: bool)

  datatype AppendReq =
    AppendReq(term: nat, leader: Id, to: Id, prev: nat, prevTerm: nat, entries: Log, commit: nat)

  /** The answer to `req`; the caller of the RPC holds both. */
  datatype AppendResp = AppendResp(req: AppendReq, term: nat, lastLog: nat, success: bool)

  /** followerReplication: `last` is the last log index the replicator has read, `stopped` that it
      returned after seeing a newer term. */
  datatype Replicator = Replicator(next: nat, match': nat, last: nat, stopped: bool)

  datatype State = State(
    // durable
    term: nat, voteTerm: nat, voteCand: Option<Id>, log: Log,
    // volatile
    role: Role, leader: Option<Id>, commit: nat,
    applied: Log,                       // what processLog received since the start, in order
    // while a candidate
    answered: set<Id>, granted: nat,
    // while a leader
    repl: map<Id, Replicator>, inflight: I.Tracker<nat>)

  function LastTerm(log: Log): nat {
    if log == [] then 0 else log[|log| - 1].term
  }

  /** newMajorityQuorum(clusterSize) and quorumSize() with len(peers) == clusterSize - 1. */
  function Majority(clusterSize: nat): nat {
    clusterSize / 2 + 1
  }

  function Fresh(): State {
    State(0, 0, None, [], Follower, None, 0, [], {}, 0, map[], I.Empty())
  }

  /** A process restart: the durable fields stay, everything else starts over. */
  function Restarted(n: State): State {
    Fresh().(term := n.term, voteTerm := n.voteTerm, voteCand := n.voteCand, log := n.log)
  }

  /** setState(Follower), with the cleanup of the candidate and leader loops. */
  function ToFollower(n: State, term: nat): State {
    n.(role := Follower, leader := None, term := term,
       answered := {}, granted := 0, repl := map[], inflight := I.Empty())
  }

  /** The leader's tracker speaks about positions of a log of length `n`. */
  ghost predicate TrackerOk(t: I.Tracker<nat>, n: nat) {
    && I.Valid(t)
    && (t.minCommit > 0 ==> t.maxCommit == n)
    && (forall i | i in t.ops :: t.ops[i].future == i)
    && (forall k | 0 <= k < |t.committed| :: 0 < t.committed[k] <= n)
  }

  /** The tracker of a leader follows its log. */
  ghost predicate Ok(n: State) {
    TrackerOk(n.inflight, |n.log|) && (n.role != Leader ==> n.inflight == I.Empty() && n.repl == map[])
  }

  // ---------------------------------------------------------------------------
  // Elections

  /** electSelf: a new term, a vote for ourselves, and the request sent to the peers. */
  function ElectSelf(n: State, self: Id): State {
    ToFollower(n, n.term + 1).(role := Candidate, voteTerm := n.term + 1, voteCand := Some(self))
  }

  function VoteRequest(n: State, self: Id): VoteReq {
    VoteReq(n.term, self, |n.log|, LastTerm(n.log))
  }

  /** Does a vote request get past the known-leader and stale-term checks? */
  predicate VoteHeard(n: State, req: VoteReq) {
    (n.leader == None || n.leader == Some(req.candidate)) && req.term >= n.term
  }

  /** Has this node voted in the request's term? */
  predicate AlreadyVoted(n: State, req: VoteReq) {
    n.voteTerm == req.term && n.voteCand != None
  }

  /** The candidate's log is at least as up to date as ours. */
  predicate UpToDate(log: Log, req: VoteReq) {
    && LastTerm(log) <= req.lastTerm
    && (LastTerm(log) == req.lastTerm ==> |log| <= req.lastIndex)
  }

  /** The node after the term check of requestVote. */
  function VoteTermSeen(n: State, req: VoteReq): State {
    if req.term > n.term then ToFollower(n, req.term) else n
  }

  predicate VoteGranted(n: State, req: VoteReq) {
    VoteHeard(n, req) && (if AlreadyVoted(n, req) then n.voteCand == Some(req.candidate) else UpToDate(n.log, req))
  }

  function RequestVote(n: State, req: VoteReq): State {
    if !VoteHeard(n, req) then n
    else if AlreadyVoted(n, req) || !UpToDate(n.log, req) then VoteTermSeen(n, req)
    else VoteTermSeen(n, req).(voteTerm := req.term, voteCand := Some(req.candidate))
  }

  function VoteAnswer(n: State, self: Id, req: VoteReq): VoteResp {
    VoteResp(self, req.candidate, req.term, if VoteHeard(n, req) then req.term else n.term, VoteGranted(n, req))
  }

  /** A crash inside requestVote, after its setCurrentTerm and before or between the two writes of
      persistVote: the term of the vote may be on disk, its candidate is still the previous one. */
  function TornVote(n: State, req: VoteReq, wroteVoteTerm: bool): State {
    Restarted(VoteTermSeen(n, req).(voteTerm := if wroteVoteTerm then req.term else n.voteTerm))
  }

  /** A crash inside electSelf, before or between the two writes of persistVote. */
  function TornElection(n: State, wroteVoteTerm: bool): State {
    Restarted(n.(term := n.term + 1, voteTerm := if wroteVoteTerm then n.term + 1 else n.voteTerm))
  }

  /** runLeader: fresh replicators and a fresh tracker. */
  function BecomeLeader(n: State, self: Id, ids: set<Id>): State {
    n.(role := Leader, leader := Some(self), answered := {}, granted := 0,
       repl := map p | p in ids - {self} :: Replicator(|n.log| + 1, 0, |n.log|, false),
       inflight := I.Empty())
  }

  predicate Wins(n: State, ids: set<Id>, resp: VoteResp) {
    resp.term <= n.term && n.granted + (if resp.granted then 1 else 0) >= Majority(|ids|)
  }

  /** One turn of runCandidate's tally. */
  function CountVote(n: State, self: Id, ids: set<Id>, resp: VoteResp): State {
    if resp.term > n.term then ToFollower(n, resp.term)
    else
      var m := n.(answered := n.answered + {resp.voter}, granted := n.granted + (if resp.granted then 1 else 0));
      if Wins(n, ids, resp) then BecomeLeader(m, self, ids) else m
  }

  // ---------------------------------------------------------------------------
  // The leader's log

  function NewEntries(term: nat, cmds: seq<(LogType, string)>): (es: Log)
    ensures |es| == |cmds|
    ensures forall i | 0 <= i < |es| :: es[i] == Entry(term, cmds[i].0, cmds[i].1)
  {
    if cmds == [] then [] else [Entry(term, cmds[0].0, cmds[0].1)] + NewEntries(term, cmds[1..])
  }

  /** inflight.StartAll for the indexes first..first+count-1. */
  function StartRange(t: I.Tracker<nat>, first: nat, count: nat, need: nat): (r: I.Tracker<nat>)
    requires I.Valid(t) && (count > 0 ==> I.CanStart(t, first))
    ensures I.Valid(r)
    decreases count
  {
    if count == 0 then t
    else
      var s := I.Start(t, first, first, need);
      StartStaysConsecutive(t, first, need);
      StartRange(s, first + 1, count - 1, need)
  }

  lemma {:induction false} NotifyMax(t: I.Tracker<nat>)
    requires I.Valid(t) && t.minCommit > 0
    ensures I.Notify(t).minCommit > 0 ==> I.Notify(t).maxCommit == t.maxCommit
    decreases t.maxCommit - t.minCommit
  {
    var p := I.Pop(t);
    if p.minCommit != 0 && p.ops[p.minCommit].IsCommitted() {
      NotifyMax(p);
    }
  }

  lemma {:induction false} CommitMax(t: I.Tracker<nat>, index: nat)
    requires I.Valid(t)
    ensures I.Commit(t, index).minCommit > 0 ==> I.Commit(t, index).maxCommit == t.maxCommit
  {
    if index in t.ops {
      NotifyMax(I.AddVote(t, index));
    }
  }

  lemma {:induction false} StartStaysConsecutive(t: I.Tracker<nat>, first: nat, need: nat)
    requires I.Valid(t) && I.CanStart(t, first)
    ensures I.CanStart(I.Start(t, first, first, need), first + 1)
    ensures I.Start(t, first, first, need).minCommit > 0 ==> I.Start(t, first, first, need).maxCommit == first
  {
    CommitMax(I.Track(t, first, first, need), first);
  }

  /** dispatchLogs: append locally, then mark the entries as in flight. */
  function Dispatch(n: State, cmds: seq<(LogType, string)>, clusterSize: nat): State
    requires Ok(n)
  {
    n.(log := n.log + NewEntries(n.term, cmds),
       inflight := StartRange(n.inflight, |n.log| + 1, |cmds|, Majority(clusterSize)))
  }

  /** processLogs(index): everything after the last applied entry, up to `index`. */
  function ProcessLogs(n: State, index: nat): State
    requires index <= |n.log|
  {
    if index <= |n.applied| then n else n.(applied := n.applied + n.log[|n.applied|..index])
  }

  /** The leader loop over the list that inflight.Committed() returned. */
  function CommitList(n: State, list: seq<nat>): State
    requires forall k | 0 <= k < |list| :: list[k] <= |n.log|
    decreases |list|
  {
    if list == [] then n else CommitList(ProcessLogs(n.(commit := list[0]), list[0]), list[1..])
  }

  function ApplyCommitted(n: State): State
    requires Ok(n)
  {
    CommitList(n.(inflight := n.inflight.(committed := [])), n.inflight.committed)
  }

  // ---------------------------------------------------------------------------
  // Replication

  /** setupAppendEntries, with `last` the last log index the replicator read. */
  function MakeAppend(n: State, self: Id, to: Id, last: nat, maxAppend: nat): AppendReq
    requires to in n.repl && 1 <= n.repl[to].next <= |n.log| + 1 && last <= |n.log|
  {
    var next := n.repl[to].next;
    var end := Max(Min(next - 1 + maxAppend, last), next - 1);
    AppendReq(n.term, self, to, next - 1, LastTerm(n.log[..next - 1]), n.log[next - 1..end], n.commit)
  }

  /** The request of the separate heartbeat routine: no previous entry, no entries, no commit index. */
  function Heartbeat(n: State, self: Id, to: Id): AppendReq {
    AppendReq(n.term, self, to, 0, 0, [], 0)
  }

  /** Does the follower hold the entry that precedes the new ones? */
  predicate PrevMatches(log: Log, req: AppendReq) {
    req.prev > 0 ==> req.prev <= |log| && log[req.prev - 1].term == req.prevTerm
  }

  predicate Accepts(n: State, req: AppendReq) {
    req.term >= n.term && PrevMatches(n.log, req)
  }

  /** The term, role and known leader after an AppendEntries of a current term. */
  function LeaderSeen(n: State, req: AppendReq): State {
    (if req.term > n.term || n.role != Follower then ToFollower(n, req.term) else n).(leader := Some(req.leader))
  }

  /** A crash inside appendEntries, after its setCurrentTerm and before it touches the log. */
  function TornAppend(n: State, req: AppendReq): State {
    Restarted(n.(term := Max(n.term, req.term)))
  }

  /** Everything from the first new index on is cleared, then the new entries are stored. */
  function StoreEntries(log: Log, req: AppendReq): Log
    requires PrevMatches(log, req)
  {
    if req.entries == [] then log else log[..req.prev] + req.entries
  }

  function AdoptCommit(n: State, leaderCommit: nat): State {
    if leaderCommit > n.commit then
      var idx := Min(leaderCommit, |n.log|);
      ProcessLogs(n.(commit := idx), idx)
    else n
  }

  function AppendEntries(n: State, req: AppendReq): State {
    if req.term < n.term then n
    else
      var m := LeaderSeen(n, req);
      if !PrevMatches(n.log, req) then m
      else AdoptCommit(m.(log := StoreEntries(n.log, req)), req.commit)
  }

  function AppendAnswer(n: State, req: AppendReq): AppendResp {
    AppendResp(req, Max(n.term, req.term), |n.log|, Accepts(n, req))
  }

  /** What replicateTo does with a reply. */
  function HandleReply(n: State, resp: AppendResp): State
    requires Ok(n) && resp.req.to in n.repl && n.repl[resp.req.to].next >= 1
  {
    var to, req := resp.req.to, resp.req;
    var s := n.repl[to];
    if resp.term > req.term then n.(repl := n.repl[to := s.(stopped := true)])
    else if resp.success then
      if req.entries == [] then n
      else
        var end := req.prev + |req.entries|;
        n.(repl := n.repl[to := s.(match' := end, next := end + 1)],
           inflight := I.CommitRange(n.inflight, req.prev + 1, end))
    else
      var next := Max(Min(s.next - 1, resp.lastLog + 1), 1);
      n.(repl := n.repl[to := s.(next := next, match' := next - 1)])
  }
}
