/**
  The loop of replicateTo between one leader and one follower: the next index walks back on every
  rejection, and forward on every success, until the follower's log agrees with the leader's.
 */
module Backtracking {
  import opened Basics
  import opened Node
  import opened NodeFacts
  import opened Cluster
  import opened LogMatching
  import opened Replication
  import opened Server
  import opened Safety

  /** What Log Matching says about two logs. */
  ghost predicate Matching(a: Log, b: Log) {
    forall k: nat | k < |a| && k < |b| && a[k].term == b[k].term :: Agree(a, b, k + 1)
  }

  /** Do the logs hold an entry of the same term right before index `next`? */
  ghost predicate Met(a: Log, b: Log, next: nat) {
    next >= 1 && next - 1 <= |a| && (next == 1 || (next - 1 <= |b| && a[next - 2].term == b[next - 2].term))
  }

  /** The logs of every run satisfy it, whatever the delivery. */
  lemma RunLogsMatch(run: seq<Cluster>, labels: seq<Label>, i: nat, j: nat, a: Id, b: Id)
    requires IsRun(run, labels) && i < |run| && j < |run| && a in run[i].nodes && b in run[j].nodes
    ensures Matching(run[i].nodes[a].log, run[j].nodes[b].log)
  {
    var alog, blog := run[i].nodes[a].log, run[j].nodes[b].log;
    forall k: nat | k < |alog| && k < |blog| && alog[k].term == blog[k].term
      ensures Agree(alog, blog, k + 1)
    {
      LogMatchingTheorem(run, labels, i, j, a, b, k);
    }
  }

  /** The leader `n`, its follower `f`, and one replicator that has read the log up to `last`. */
  ghost predicate Ready(n: State, to: Id, last: nat, maxAppend: nat, f: State) {
    && Ok(n) && to in n.repl && last <= |n.log| && 1 <= n.repl[to].next <= |n.log| + 1
    && maxAppend >= 1 && f.term <= n.term && Matching(n.log, f.log)
  }

  /** The request of one round, built by MakeAppend. */
  function Ask(n: State, self: Id, to: Id, last: nat, maxAppend: nat, f: State): AppendReq
    requires Ready(n, to, last, maxAppend, f)
  {
    MakeAppend(n, self, to, last, maxAppend)
  }

  lemma PrevIsMet(n: State, self: Id, to: Id, last: nat, maxAppend: nat, f: State)
    requires Ready(n, to, last, maxAppend, f)
    ensures Accepts(f, Ask(n, self, to, last, maxAppend, f)) <==> Met(n.log, f.log, n.repl[to].next)
  {
    var next := n.repl[to].next;
    if next > 1 {
      assert n.log[..next - 1][next - 2] == n.log[next - 2];
    }
  }

  /** What one round of request and reply in the same term does to the leader `n` and the follower
      `f`.  Where the logs have met, they agree right up to the new next index, which has grown
      unless there was nothing left to send; otherwise the next index is lower, and never 0. */
  ghost predicate Progress(n: State, f: State, r: State, g: State, to: Id, last: nat)
    requires to in n.repl && n.repl[to].next >= 1
  {
    && to in r.repl && r.log == n.log && g.term == n.term && Matching(n.log, g.log)
    && var next, next' := n.repl[to].next, r.repl[to].next;
       if Met(n.log, f.log, next) then
         && Met(n.log, g.log, next') && Agree(n.log, g.log, next' - 1)
         && (if next <= last then next < next' <= last + 1 else next' == next)
       else
         && g.log == f.log && r.inflight == n.inflight && r.repl[to].match' == next' - 1
         && next' == Max(Min(next - 1, |f.log| + 1), 1) < next
  }

  lemma RejectionLowers(n: State, self: Id, to: Id, last: nat, maxAppend: nat, f: State)
    requires Ready(n, to, last, maxAppend, f) && !Met(n.log, f.log, n.repl[to].next)
    ensures var req := Ask(n, self, to, last, maxAppend, f);
            Progress(n, f, HandleReply(n, AppendAnswer(f, req)), AppendEntries(f, req), to, last)
  {
    PrevIsMet(n, self, to, last, maxAppend, f);
  }

  lemma Asked(n: State, self: Id, to: Id, last: nat, maxAppend: nat, f: State)
    requires Ready(n, to, last, maxAppend, f)
    ensures var req, next := Ask(n, self, to, last, maxAppend, f), n.repl[to].next;
            && req.term == n.term && req.to == to && req.prev == next - 1 && End(req) <= |n.log|
                  && req.entries == n.log[req.prev..End(req)]
            && (if next <= last then req.entries != [] && End(req) <= last else req.entries == [])
  {
    var next := n.repl[to].next;
    SliceEnd(next, maxAppend, last);
    assert |n.log[next - 1..Max(Min(next - 1 + maxAppend, last), next - 1)]| ==
          Max(Min(next - 1 + maxAppend, last), next - 1) - (next - 1);
  }

  lemma SliceEnd(next: nat, maxAppend: nat, last: nat)
    requires next >= 1 && maxAppend >= 1
    ensures var end := Max(Min(next - 1 + maxAppend, last), next - 1);
            if next <= last then next <= end <= last else end == next - 1
  {
  }

  /** After a success the logs agree right up to the next index, which has grown unless there was
      nothing left to send. */
  lemma SuccessRaises(n: State, self: Id, to: Id, last: nat, maxAppend: nat, f: State)
    requires Ready(n, to, last, maxAppend, f) && Met(n.log, f.log, n.repl[to].next)
    ensures var req := Ask(n, self, to, last, maxAppend, f);
            Progress(n, f, HandleReply(n, AppendAnswer(f, req)), AppendEntries(f, req), to, last)
  {
    var req := Ask(n, self, to, last, maxAppend, f);
    PrevIsMet(n, self, to, last, maxAppend, f);
    Asked(n, self, to, last, maxAppend, f);
    if req.prev > 0 {
      assert Agree(n.log, f.log, req.prev - 1 + 1);
    }
    Stored(n.log, f.log, req);
    Moved(n, f, req, to, last);
  }

  lemma Moved(n: State, f: State, req: AppendReq, to: Id, last: nat)
    requires Ok(n) && to in n.repl && n.repl[to].next >= 1 && req.to == to && req.term == n.term
    requires req.prev == n.repl[to].next - 1 && End(req) <= |n.log| && Met(n.log, f.log, n.repl[to].next)
    requires if n.repl[to].next <= last then req.entries != [] && End(req) <= last else req.entries == []
    requires Accepts(f, req) && Agree(n.log, StoreEntries(f.log, req), End(req))
    requires Matching(n.log, StoreEntries(f.log, req))
    ensures Progress(n, f, HandleReply(n, AppendAnswer(f, req)), AppendEntries(f, req), to, last)
  {
  }

  /** Entries of the leader stored on a shared prefix. */
  lemma Stored(a: Log, b: Log, req: AppendReq)
    requires Agree(a, b, req.prev) && Matching(a, b) && End(req) <= |a| && req.entries == a[req.prev..End(req)]
    requires PrevMatches(b, req)
    ensures Agree(a, StoreEntries(b, req), End(req)) && Matching(a, StoreEntries(b, req))
  {
    var d := StoreEntries(b, req);
    if req.entries != [] {
      assert d == a[..End(req)];
    }
  }

  /** One round, whichever way it goes. */
  lemma RoundMakesProgress(n: State, self: Id, to: Id, last: nat, maxAppend: nat, f: State)
    requires Ready(n, to, last, maxAppend, f)
    ensures var req := Ask(n, self, to, last, maxAppend, f);
            Progress(n, f, HandleReply(n, AppendAnswer(f, req)), AppendEntries(f, req), to, last)
  {
    if Met(n.log, f.log, n.repl[to].next) {
      SuccessRaises(n, self, to, last, maxAppend, f);
    } else {
      RejectionLowers(n, self, to, last, maxAppend, f);
    }
  }

  datatype Outcome = Done | Stopped | Failed

  /** The two servers as replicateTo finds them: the leader's replicator has read its log up to `last`. */
  ghost predicate Linked(lead: RaftServer, peer: RaftServer, last: nat)
    reads lead, peer, lead.inflight, peer.inflight
  {
    && lead.Valid() && peer.Valid() && lead != peer && lead.inflight != peer.inflight && lead.role == Leader
    && peer.self in lead.replState && last <= |lead.log|
    && lead.maxAppend >= 1 && Matching(lead.log, peer.log)
  }

  /** Where the replicator stands, and whether the logs have met there. */
  ghost function Next(lead: RaftServer, peer: RaftServer): nat
    reads lead
  {
    if peer.self in lead.replState then lead.replState[peer.self].next else 0
  }

  ghost predicate Meets(lead: RaftServer, peer: RaftServer)
    reads lead, peer
  {
    Met(lead.log, peer.log, Next(lead, peer))
  }

  /** The first half of a round: the request is built and reaches the follower. */
  method Deliver(lead: RaftServer, peer: RaftServer, last: nat) returns (resp: AppendResp)
    requires Linked(lead, peer, last)
    modifies peer, peer.inflight
    ensures Linked(lead, peer, last) && peer.inflight == old(peer.inflight)
    ensures resp.req.to == peer.self && resp.req.term == lead.currentTerm && ReplyFits(lead.Value(), resp)
    ensures resp.term > resp.req.term <==> old(peer.currentTerm) > lead.currentTerm
    ensures if old(peer.currentTerm) > lead.currentTerm then peer.Value() == old(peer.Value())
            else
              Progress(lead.Value(), old(peer.Value()), HandleReply(lead.Value(), resp), peer.Value(), peer.self, last)
  {
    ghost var n, f := lead.Value(), peer.Value();
    var req := lead.SetupAppendEntries(peer.self, last);
    resp := peer.AppendEntries(req);
    if f.term <= n.term {
      RoundMakesProgress(n, lead.self, peer.self, last, lead.maxAppend, f);
    }
  }

  /** One round of replicateTo.  `Done` says only that a reply of the same term was handled. */
  method Round(lead: RaftServer, peer: RaftServer, last: nat) returns (outcome: Outcome)
    requires Linked(lead, peer, last)
    modifies lead`replState, lead.inflight, peer, peer.inflight
    ensures Linked(lead, peer, last) && peer.inflight == old(peer.inflight)
    ensures outcome == Stopped <==> old(peer.currentTerm) > lead.currentTerm && outcome != Failed
    ensures outcome == Done ==>
          Progress(old(lead.Value()), old(peer.Value()), lead.Value(), peer.Value(), peer.self, last)
    ensures old(peer.currentTerm) > lead.currentTerm ==> peer.Value() == old(peer.Value())
    ensures old(peer.currentTerm) <= lead.currentTerm ==> peer.currentTerm <= lead.currentTerm
  {
    if * {
      return Failed;                   // the request is lost
    }
    var resp := Deliver(lead, peer, last);
    if * {
      return Failed;                   // the reply is lost
    }
    lead.HandleReply(resp);
    outcome := if resp.term > resp.req.term then Stopped else Done;
  }

  /** The loop's own exit test looks only at the next index.  It is a test of agreement too, unless
      the walk starts past `last` and its first rejection does not bring it back. */
  ghost predicate Converges(lead: RaftServer, peer: RaftServer, last: nat)
    reads lead, peer
  {
    Next(lead, peer) <= last + 1 || Meets(lead, peer) || |peer.log| < last
  }

  /** replicateTo: rounds of request and reply until the next index is past `last`, unless a message
      is lost (`Failed`) or the follower is in a newer term (`Stopped`). */
  method ReplicateTo(lead: RaftServer, peer: RaftServer, last: nat) returns (outcome: Outcome)
    requires Linked(lead, peer, last)
    modifies lead`replState, lead.inflight, peer, peer.inflight
    ensures Linked(lead, peer, last)
    ensures outcome == Done ==> Next(lead, peer) > last && peer.currentTerm == lead.currentTerm
    ensures outcome == Done ==>
              (Agree(lead.log, peer.log, last) <==>
               old(Converges(lead, peer, last)) || old(Agree(lead.log, peer.log, last)))
    ensures outcome == Done && !old(Converges(lead, peer, last)) ==> peer.log == old(peer.log)
    ensures outcome == Stopped <==> old(peer.currentTerm) > lead.currentTerm && outcome != Failed
    ensures old(peer.currentTerm) > lead.currentTerm ==> peer.log == old(peer.log)
  {
    while true
      invariant Linked(lead, peer, last) && peer.inflight == old(peer.inflight)
      invariant peer.currentTerm <= lead.currentTerm <==> old(peer.currentTerm) <= lead.currentTerm
      invariant peer.currentTerm > lead.currentTerm ==> peer.log == old(peer.log)
      invariant (Next(lead, peer) == old(Next(lead, peer)) && peer.log == old(peer.log)) ||
                (Next(lead, peer) <= last && old(Converges(lead, peer, last)))
      decreases !Meets(lead, peer), if Meets(lead, peer) then |lead.log| + 1 - Next(lead, peer) else Next(lead, peer)
    {
      outcome := Round(lead, peer, last);
      if outcome != Done || lead.replState[peer.self].next > last {
        return;
      }
    }
  }

  /** Such a walk: the next index is 3, the loop is asked for index 1, the only rejection moves it to
      2, and the logs still differ at index 1. */
  lemma WalkStopsShort(self: Id, to: Id) returns (n: State, f: State)
    ensures Ready(n, to, 1, 1, f) && n.repl[to].next == 3
    ensures var req := Ask(n, self, to, 1, 1, f);
            && HandleReply(n, AppendAnswer(f, req)).repl[to].next == 2
            && !Agree(n.log, AppendEntries(f, req).log, 1)
  {
    var mine, other := Entry(2, LogCommand, ""), Entry(1, LogCommand, "");
    n := Fresh().(term := 3, role := Leader, log := [mine, mine], repl := map[to := Replicator(3, 0, 2, false)]);
    f := Fresh().(term := 1, log := [other]);
    var req := Ask(n, self, to, 1, 1, f);
    assert AppendEntries(f, req).log == f.log && n.log[0] != f.log[0];
  }
}
