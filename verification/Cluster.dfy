/**
  A cluster of Raft nodes with fixed membership, as a step relation.

  Messages are never forgotten: every request and answer ever sent stays in its set, so a step
  may deliver it late, again, or never.  Lock-step runs (`InOrder`) also follow the slot of each
  replicator: a request is delivered at most once and before the leader's next request to that
  peer, or is lost, and so is its reply.

  `History` is written by steps and read by none of them.
 */
module Cluster {
  import opened Basics
  import opened Node

  /** The replicator's RPC in flight, per leader term and follower. */
  datatype Slot = Idle | Pending(req: AppendReq) | Replied(resp: AppendResp)

  datatype History = History(
    leaders: map<nat, Id>,                        // who won each term
    logs: map<nat, Log>,                          // the log of that leader, as far as it got in the term
    start: map<nat, nat>,                         // the length of that log at the election
    acked: map<(nat, Id), nat>,                   // up to where a node stored the log of that term's leader
    ranges: map<(nat, Id), seq<(nat, nat)>>)      // what each replicator passed to CommitRange

  datatype Cluster = Cluster(
    ids: set<Id>, maxAppend: nat,
    nodes: map<Id, State>,
    voteReqs: set<VoteReq>, voteResps: set<VoteResp>,
    wire: set<AppendReq>, beats: set<AppendReq>, replies: set<AppendResp>,
    slots: map<(nat, Id), Slot>,
    h: History)

  datatype Label =
    | StartElection(n: Id)
    | RecvVoteReq(n: Id, vreq: VoteReq)
    | RecvVoteResp(n: Id, vresp: VoteResp)
    | DoDispatch(n: Id, cmds: seq<(LogType, string)>)
    | SendAppend(n: Id, to: Id, last: nat)
    | SendHeartbeat(n: Id, to: Id)
    | RecvAppend(n: Id, areq: AppendReq)
    | RecvHeartbeat(n: Id, areq: AppendReq)
    | RecvReply(n: Id, aresp: AppendResp)
    | Commit(n: Id)
    | StepDown(n: Id)
    | Restart(n: Id)
    | CrashInVote(n: Id, vreq: VoteReq, wroteVoteTerm: bool)
    | CrashInElection(n: Id, wroteVoteTerm: bool)
    | CrashInAppend(n: Id, areq: AppendReq)

  function SlotOf(c: Cluster, term: nat, peer: Id): Slot {
    if (term, peer) in c.slots then c.slots[(term, peer)] else Idle
  }

  function Acked(h: History, term: nat, n: Id): nat {
    if (term, n) in h.acked then h.acked[(term, n)] else 0
  }

  function Ranges(h: History, term: nat, n: Id): seq<(nat, nat)> {
    if (term, n) in h.ranges then h.ranges[(term, n)] else []
  }

  /** One replicator per peer, each with a next index inside the log or just past it. */
  ghost predicate ReplicatorsOk(ids: set<Id>, n: Id, s: State) {
    && s.repl.Keys == ids - {n}
    && (forall p | p in s.repl :: 1 <= s.repl[p].next <= |s.log| + 1 && s.repl[p].last <= |s.log|)
  }

  /** What every node satisfies in every run; the handlers index the log and the tracker under it. */
  ghost predicate NodeOk(ids: set<Id>, n: Id, s: State) {
    Ok(s) && (s.role == Leader ==> ReplicatorsOk(ids, n, s))
  }

  ghost predicate Init(c: Cluster) {
    && c.nodes.Keys == c.ids
    && c.maxAppend >= 1
    && (forall n | n in c.ids :: c.nodes[n] == Fresh())
    && c.voteReqs == {} && c.voteResps == {} && c.wire == {} && c.beats == {} && c.replies == {}
    && c.slots == map[]
    && c.h == History(map[], map[], map[], map[], map[])
  }

  /** What the code demands of each step. */
  ghost predicate Enabled(c: Cluster, l: Label) {
    match l
    case StartElection(n) => Present(c, n) && c.nodes[n].role != Leader
    case RecvVoteReq(n, req) => Present(c, n) && req in c.voteReqs && req.candidate != n
    case RecvVoteResp(n, resp) =>
      && Present(c, n) && resp in c.voteResps && resp.to == n
      && c.nodes[n].role == Candidate && c.nodes[n].term == resp.reqTerm && resp.voter !in c.nodes[n].answered
    case DoDispatch(n, cmds) => Leads(c, n)
    case SendAppend(n, to, last) =>
      && Leads(c, n)
      && var s := c.nodes[n];
         && to in s.repl && !s.repl[to].stopped
         && s.repl[to].last <= last <= |s.log|
         && (s.repl[to].next <= last || last == |s.log|)
    case SendHeartbeat(n, to) => Leads(c, n) && to in c.ids - {n}
    case RecvAppend(n, req) => Present(c, n) && req in c.wire && req.to == n
    case RecvHeartbeat(n, req) => Present(c, n) && req in c.beats && req.to == n
    case RecvReply(n, resp) =>
      && Leads(c, n)
      && resp in c.replies && resp.req.leader == n && c.nodes[n].term == resp.req.term
      && resp.req.to in c.nodes[n].repl && !c.nodes[n].repl[resp.req.to].stopped
    case Commit(n) => Leads(c, n)
    case StepDown(n) => Leads(c, n)
    case Restart(n) => Present(c, n)
    case CrashInVote(n, req, wrote) =>
      && Present(c, n) && req in c.voteReqs && req.candidate != n && VoteHeard(c.nodes[n], req)
      && (wrote ==> !AlreadyVoted(c.nodes[n], req) && UpToDate(c.nodes[n].log, req))
    case CrashInElection(n, wrote) => Present(c, n) && c.nodes[n].role != Leader
    case CrashInAppend(n, req) => Present(c, n) && req in c.wire + c.beats && req.to == n
  }

  ghost predicate Present(c: Cluster, n: Id) {
    n in c.nodes && NodeOk(c.ids, n, c.nodes[n])
  }

  ghost predicate Leads(c: Cluster, n: Id) {
    Present(c, n) && c.nodes[n].role == Leader
  }

  /** The delivery discipline of replicateTo, and no vote torn apart. */
  ghost predicate InOrder(c: Cluster, l: Label) {
    match l
    case RecvAppend(n, req) => SlotOf(c, req.term, n) == Pending(req)
    case RecvReply(n, resp) => SlotOf(c, resp.req.term, resp.req.to) == Replied(resp)
    case CrashInVote(n, _, wrote) => VoteIntact(c, n, wrote)
    case CrashInElection(n, wrote) => VoteIntact(c, n, wrote)
    case _ => true
  }

  /** A crash inside persistVote does not put the term of a new vote next to an older candidate. */
  ghost predicate VoteIntact(c: Cluster, n: Id, wroteVoteTerm: bool) {
    wroteVoteTerm ==> n in c.nodes && c.nodes[n].voteCand == None
  }

  // ---------------------------------------------------------------------------
  // What a step changes, component by component

  /** The only node a step changes is the one it happens at. */
  ghost function NodeAfter(c: Cluster, l: Label): State
    requires Enabled(c, l)
  {
    var s := c.nodes[l.n];
    match l
    case StartElection(n) => ElectSelf(s, n)
    case RecvVoteReq(n, req) => RequestVote(s, req)
    case RecvVoteResp(n, resp) => CountVote(s, n, c.ids, resp)
    case DoDispatch(n, cmds) => Dispatch(s, cmds, |c.ids|)
    case SendAppend(n, to, last) => s.(repl := s.repl[to := s.repl[to].(last := last)])
    case SendHeartbeat(n, to) => s
    case RecvAppend(n, req) => AppendEntries(s, req)
    case RecvHeartbeat(n, req) => AppendEntries(s, req)
    case RecvReply(n, resp) => HandleReply(s, resp)
    case Commit(n) => ApplyCommitted(s)
    case StepDown(n) => ToFollower(s, s.term)
    case Restart(n) => Restarted(s)
    case CrashInVote(n, req, wrote) => TornVote(s, req, wrote)
    case CrashInElection(n, wrote) => TornElection(s, wrote)
    case CrashInAppend(n, req) => TornAppend(s, req)
  }

  ghost function VoteReqsAfter(c: Cluster, l: Label): set<VoteReq>
    requires Enabled(c, l)
  {
    if l.StartElection? || l.CrashInElection?
    then c.voteReqs + {VoteRequest(c.nodes[l.n].(term := c.nodes[l.n].term + 1), l.n)}
    else c.voteReqs
  }

  /** A candidate's own vote travels the same way as the others. */
  ghost function VoteRespsAfter(c: Cluster, l: Label): set<VoteResp>
    requires Enabled(c, l)
  {
    var s := c.nodes[l.n];
    if l.StartElection? then c.voteResps + {VoteResp(l.n, l.n, s.term + 1, s.term + 1, true)}
    else if l.RecvVoteReq? then c.voteResps + {VoteAnswer(s, l.n, l.vreq)}
    else c.voteResps
  }

  ghost function WireAfter(c: Cluster, l: Label): set<AppendReq>
    requires Enabled(c, l)
  {
    if l.SendAppend? then c.wire + {MakeAppend(c.nodes[l.n], l.n, l.to, l.last, c.maxAppend)} else c.wire
  }

  ghost function BeatsAfter(c: Cluster, l: Label): set<AppendReq>
    requires Enabled(c, l)
  {
    if l.SendHeartbeat? then c.beats + {Heartbeat(c.nodes[l.n], l.n, l.to)} else c.beats
  }

  ghost function RepliesAfter(c: Cluster, l: Label): set<AppendResp>
    requires Enabled(c, l)
  {
    if l.RecvAppend? then c.replies + {AppendAnswer(c.nodes[l.n], l.areq)} else c.replies
  }

  ghost function SlotsAfter(c: Cluster, l: Label): map<(nat, Id), Slot>
    requires Enabled(c, l)
  {
    var s := c.nodes[l.n];
    if l.SendAppend? then
      c.slots[(s.term, l.to) := Pending(MakeAppend(s, l.n, l.to, l.last, c.maxAppend))]
    else if l.RecvAppend? then c.slots[(l.areq.term, l.n) := Replied(AppendAnswer(s, l.areq))]
    else if l.RecvReply? then c.slots[(l.aresp.req.term, l.aresp.req.to) := Idle]
    else c.slots
  }

  ghost predicate Winning(c: Cluster, l: Label) {
    l.RecvVoteResp? && l.n in c.nodes && Wins(c.nodes[l.n], c.ids, l.vresp)
  }

  /** Does the reply make the replicator call CommitRange? */
  predicate Confirms(resp: AppendResp) {
    resp.success && resp.term <= resp.req.term && resp.req.entries != []
  }

  ghost function LeadersAfter(c: Cluster, l: Label): map<nat, Id>
    requires Enabled(c, l)
  {
    if Winning(c, l) then c.h.leaders[c.nodes[l.n].term := l.n] else c.h.leaders
  }

  ghost function LogsAfter(c: Cluster, l: Label): map<nat, Log>
    requires Enabled(c, l)
  {
    var s := c.nodes[l.n];
    if Winning(c, l) then c.h.logs[s.term := s.log]
    else if l.DoDispatch? then c.h.logs[s.term := s.log + NewEntries(s.term, l.cmds)]
    else c.h.logs
  }

  ghost function StartAfter(c: Cluster, l: Label): map<nat, nat>
    requires Enabled(c, l)
  {
    if Winning(c, l) then c.h.start[c.nodes[l.n].term := |c.nodes[l.n].log|] else c.h.start
  }

  ghost function AckedAfter(c: Cluster, l: Label): map<(nat, Id), nat>
    requires Enabled(c, l)
  {
    var s := c.nodes[l.n];
    if Winning(c, l) then c.h.acked[(s.term, l.n) := |s.log|]
    else if l.DoDispatch? then c.h.acked[(s.term, l.n) := |s.log| + |l.cmds|]
    else if l.RecvAppend? && Accepts(s, l.areq) then
      c.h.acked[(l.areq.term, l.n) := Max(Acked(c.h, l.areq.term, l.n), l.areq.prev + |l.areq.entries|)]
    else c.h.acked
  }

  ghost function RangesAfter(c: Cluster, l: Label): map<(nat, Id), seq<(nat, nat)>>
    requires Enabled(c, l)
  {
    if l.RecvReply? && Confirms(l.aresp) then
      var req := l.aresp.req;
      c.h.ranges[(req.term, req.to) := Ranges(c.h, req.term, req.to) + [(req.prev + 1, req.prev + |req.entries|)]]
    else c.h.ranges
  }

  ghost function HistoryAfter(c: Cluster, l: Label): History
    requires Enabled(c, l)
  {
    History(LeadersAfter(c, l), LogsAfter(c, l), StartAfter(c, l), AckedAfter(c, l), RangesAfter(c, l))
  }

  ghost function Apply(c: Cluster, l: Label): Cluster
    requires Enabled(c, l)
  {
    Cluster(c.ids, c.maxAppend, c.nodes[l.n := NodeAfter(c, l)],
            VoteReqsAfter(c, l), VoteRespsAfter(c, l),
            WireAfter(c, l), BeatsAfter(c, l), RepliesAfter(c, l),
            SlotsAfter(c, l), HistoryAfter(c, l))
  }

  // ---------------------------------------------------------------------------
  // Runs

  /** Step `k` of a run. */
  ghost predicate StepAt(run: seq<Cluster>, labels: seq<Label>, k: nat)
    requires k < |labels| && |run| == |labels| + 1
  {
    Enabled(run[k], labels[k]) && run[k + 1] == Apply(run[k], labels[k])
  }

  /** States `0..|labels|` of a run under arbitrary loss, duplication and reordering. */
  ghost predicate IsRun(run: seq<Cluster>, labels: seq<Label>) {
    && |run| == |labels| + 1
    && Init(run[0])
    && (forall k: nat | k < |labels| :: StepAt(run, labels, k))
  }

  ghost predicate IsLockStepRun(run: seq<Cluster>, labels: seq<Label>) {
    IsRun(run, labels) && forall k: nat | k < |labels| :: InOrder(run[k], labels[k])
  }
}
