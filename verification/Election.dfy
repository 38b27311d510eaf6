/**
  Election Safety (section 5.2 of "In Search of an Understandable Consensus Algorithm"): at most
  one node ever wins a term.  Proved for every delivery of vote messages, over restarts, and over
  crashes that separate the two writes of persistVote.
 */
module Election {
  import opened Basics
  import opened Node
  import opened Cluster
  import opened NodeFacts

  // ---------------------------------------------------------------------------
  // Majorities

  lemma SubsetSize<T>(a: set<T>, b: set<T>)
    requires a <= b
    ensures |a| <= |b|
  {
    assert b == a + (b - a);
  }

  /** Two majorities of the same membership share a node. */
  lemma MajoritiesMeet<T>(ids: set<T>, a: set<T>, b: set<T>) returns (v: T)
    requires a <= ids && b <= ids
    requires |a| >= Majority(|ids|) && |b| >= Majority(|ids|)
    ensures v in a && v in b
  {
    if a * b == {} {
      assert |a + b| == |a| + |b|;
      SubsetSize(a + b, ids);
    }
    v :| v in a * b;
  }

  // ---------------------------------------------------------------------------
  // The invariant

  function Grant(term: nat, voter: Id, cand: Id): VoteResp {
    VoteResp(voter, cand, term, term, true)
  }

  /** Who, within `among`, granted `cand` a vote in `term`. */
  function Voters(resps: set<VoteResp>, term: nat, cand: Id, among: set<Id>): set<Id> {
    set v | v in among && Grant(term, v, cand) in resps
  }

  /** A granted vote is on the voter's disk, or the voter has since voted in a later term. */
  ghost predicate VoteKept(c: Cluster, r: VoteResp) {
    r.granted ==>
      && r.term == r.reqTerm
      && r.voter in c.nodes
      && r.reqTerm <= c.nodes[r.voter].voteTerm
      && (c.nodes[r.voter].voteTerm == r.reqTerm ==> c.nodes[r.voter].voteCand == Some(r.to))
  }

  ghost predicate OneVote(resps: set<VoteResp>) {
    forall r1, r2 | r1 in resps && r2 in resps && r1.granted && r2.granted && r1.voter == r2.voter
          && r1.reqTerm == r2.reqTerm ::
      r1.to == r2.to
  }

  /** A candidate counts no more votes than distinct voters granted it. */
  ghost predicate TallyOk(c: Cluster, n: Id)
    requires n in c.nodes
  {
    c.nodes[n].role == Candidate ==>
      && c.nodes[n].answered <= c.ids
      && c.nodes[n].granted <= |Voters(c.voteResps, c.nodes[n].term, n, c.nodes[n].answered)|
  }

  ghost predicate WinnerOk(c: Cluster, term: nat)
    requires term in c.h.leaders
  {
    var l := c.h.leaders[term];
    && l in c.nodes
    && term <= c.nodes[l].term
    && (c.nodes[l].term == term ==> c.nodes[l].role != Candidate)
    && |Voters(c.voteResps, term, l, c.ids)| >= Majority(|c.ids|)
  }

  ghost predicate ElectionInv(c: Cluster) {
    && c.nodes.Keys == c.ids
    && (forall n | n in c.nodes :: c.nodes[n].voteTerm <= c.nodes[n].term)
    && (forall r | r in c.voteResps :: VoteKept(c, r) && r.voter in c.ids)
    && OneVote(c.voteResps)
    && (forall n | n in c.nodes :: TallyOk(c, n))
    && (forall t | t in c.h.leaders :: WinnerOk(c, t))
    && (forall n | n in c.nodes :: LeadsOk(c, n))
  }

  /** Who leads has won its term. */
  ghost predicate LeadsOk(c: Cluster, n: Id)
    requires n in c.nodes
  {
    c.nodes[n].role == Leader ==> c.nodes[n].term in c.h.leaders && c.h.leaders[c.nodes[n].term] == n
  }

  lemma ElectionInit(c: Cluster)
    requires Init(c)
    ensures ElectionInv(c)
  {
  }

  /** More answers on the wire never take a voter away. */
  lemma VotersGrow(resps: set<VoteResp>, resps': set<VoteResp>, term: nat, cand: Id, among: set<Id>, among': set<Id>)
    requires resps <= resps' && among <= among'
    ensures |Voters(resps, term, cand, among)| <= |Voters(resps', term, cand, among')|
  {
    SubsetSize(Voters(resps, term, cand, among), Voters(resps', term, cand, among'));
  }

  /** What a node may do to its election fields without touching an invariant. */
  ghost predicate Quiet(s: State, t: State) {
    && s.term <= t.term
    && t.voteTerm == s.voteTerm && t.voteCand == s.voteCand
    && (t.role == Leader ==> s.role == Leader && t.term == s.term)
    && (t.role == Candidate ==>
          s.role == Candidate && t.term == s.term && t.granted == s.granted && t.answered == s.answered)
  }

  ghost predicate OnlyAt(c: Cluster, c': Cluster, n: Id) {
    && n in c.nodes
    && c'.ids == c.ids && c'.nodes.Keys == c.nodes.Keys
    && forall m | m in c.nodes && m != n :: c'.nodes[m] == c.nodes[m]
  }

  lemma QuietStep(c: Cluster, c': Cluster, n: Id)
    requires ElectionInv(c) && OnlyAt(c, c', n)
    requires Quiet(c.nodes[n], c'.nodes[n])
    requires c'.voteResps == c.voteResps && c'.h.leaders == c.h.leaders
    ensures ElectionInv(c')
  {
    VotesStay(c, c', n);
    WinnersStay(c, c', n);
    forall m | m in c'.nodes
      ensures TallyOk(c', m) && LeadsOk(c', m)
    {
      assert TallyOk(c, m) && LeadsOk(c, m);
    }
  }

  lemma VotesStay(c: Cluster, c': Cluster, n: Id)
    requires (forall r | r in c.voteResps :: VoteKept(c, r) && r.voter in c.ids) && OnlyAt(c, c', n)
    requires c'.voteResps == c.voteResps
    requires c'.nodes[n].voteTerm == c.nodes[n].voteTerm && c'.nodes[n].voteCand == c.nodes[n].voteCand
    ensures forall r | r in c'.voteResps :: VoteKept(c', r) && r.voter in c'.ids
  {
    forall r | r in c'.voteResps
      ensures VoteKept(c', r) && r.voter in c'.ids
    {
      assert VoteKept(c, r);
    }
  }

  /** Winners stay winners while votes are only added and nobody goes back to being a candidate. */
  lemma WinnersStay(c: Cluster, c': Cluster, n: Id)
    requires (forall t | t in c.h.leaders :: WinnerOk(c, t)) && OnlyAt(c, c', n)
    requires c'.h.leaders == c.h.leaders && c.voteResps <= c'.voteResps && c.nodes[n].term <= c'.nodes[n].term
    requires c'.nodes[n].role == Candidate ==> c.nodes[n].role == Candidate || c.nodes[n].term < c'.nodes[n].term
    ensures forall t | t in c'.h.leaders :: WinnerOk(c', t)
  {
    forall t | t in c'.h.leaders
      ensures WinnerOk(c', t)
    {
      assert WinnerOk(c, t);
      VotersGrow(c.voteResps, c'.voteResps, t, c.h.leaders[t], c.ids, c.ids);
    }
  }

  /** A node puts a vote (or, torn by a crash, only its term) on disk. */
  ghost predicate Voted(s: State, t: State) {
    && s.term <= t.term && t.voteTerm <= t.term
    && (t.role == Leader ==> s.role == Leader && t.term == s.term)
    && (t.voteTerm == s.voteTerm || (s.voteTerm < t.voteTerm && s.term <= t.voteTerm))
    && (t.voteTerm == s.voteTerm ==> t.voteCand == s.voteCand || s.voteCand == None)
    && (t.role == Candidate ==> if s.role == Candidate && t.term == s.term
                                then t.granted == s.granted && t.answered == s.answered
                                else t.granted == 0 && t.answered == {} && s.term < t.term)
  }

  /** The node answers with the vote it has on disk. */
  ghost predicate Answered(c: Cluster, c': Cluster, n: Id, r: VoteResp)
    requires n in c'.nodes
  {
    && c'.voteResps == c.voteResps + {r} && r.voter == n
    && (r.granted ==> r.term == r.reqTerm == c'.nodes[n].voteTerm && c'.nodes[n].voteCand == Some(r.to))
  }

  lemma VotesKept(c: Cluster, c': Cluster, n: Id, r: VoteResp)
    requires (forall q | q in c.voteResps :: VoteKept(c, q) && q.voter in c.ids) && c.nodes.Keys == c.ids
    requires (forall m | m in c.nodes :: c.nodes[m].voteTerm <= c.nodes[m].term) && OneVote(c.voteResps)
    requires OnlyAt(c, c', n) && Voted(c.nodes[n], c'.nodes[n])
    requires c'.voteResps == c.voteResps || Answered(c, c', n, r)
    ensures forall q | q in c'.voteResps :: VoteKept(c', q) && q.voter in c'.ids
    ensures OneVote(c'.voteResps)
  {
    forall q | q in c'.voteResps
      ensures VoteKept(c', q) && q.voter in c'.ids
    {
      if q in c.voteResps {
        assert VoteKept(c, q);
      }
    }
    forall r1, r2 | r1 in c'.voteResps && r2 in c'.voteResps && r1.granted && r2.granted && r1.voter == r2.voter
          && r1.reqTerm == r2.reqTerm
      ensures r1.to == r2.to
    {
      assert VoteKept(c', r1) && VoteKept(c', r2);
    }
  }

  lemma VoteStep(c: Cluster, c': Cluster, n: Id, r: VoteResp)
    requires ElectionInv(c) && OnlyAt(c, c', n) && Voted(c.nodes[n], c'.nodes[n])
    requires c'.voteResps == c.voteResps || Answered(c, c', n, r)
    requires c'.h.leaders == c.h.leaders
    ensures ElectionInv(c')
  {
    VotesKept(c, c', n, r);
    WinnersStay(c, c', n);
    TalliesAfterVote(c, c', n, r);
    forall m | m in c'.nodes
      ensures LeadsOk(c', m)
    {
      assert LeadsOk(c, m);
    }
  }

  lemma TalliesAfterVote(c: Cluster, c': Cluster, n: Id, r: VoteResp)
    requires (forall m | m in c.nodes :: TallyOk(c, m)) && OnlyAt(c, c', n) && Voted(c.nodes[n], c'.nodes[n])
    requires c'.voteResps == c.voteResps || Answered(c, c', n, r)
    ensures forall m | m in c'.nodes :: TallyOk(c', m)
  {
    forall m | m in c'.nodes
      ensures TallyOk(c', m)
    {
      assert TallyOk(c, m);
      if c'.nodes[m].role == Candidate && c.nodes[m].role == Candidate && c.nodes[m].term == c'.nodes[m].term {
        VotersGrow(c.voteResps, c'.voteResps, c.nodes[m].term, m, c.nodes[m].answered, c'.nodes[m].answered);
      }
    }
  }

  /** The candidate has not counted the voter's answer yet. */
  ghost predicate Counting(c: Cluster, n: Id, resp: VoteResp) {
    && n in c.nodes && resp in c.voteResps && resp.to == n
    && c.nodes[n].role == Candidate && c.nodes[n].term == resp.reqTerm && resp.voter !in c.nodes[n].answered
  }

  lemma SameVote(c: Cluster, term: nat, voter: Id, a: Id, b: Id)
    requires ElectionInv(c) && Grant(term, voter, a) in c.voteResps && Grant(term, voter, b) in c.voteResps
    ensures a == b
  {
    assert Grant(term, voter, a).to == Grant(term, voter, b).to;
  }

  /** A candidate that counts its last missing vote is the first winner of its term. */
  lemma WinIsNew(c: Cluster, n: Id, resp: VoteResp)
    requires ElectionInv(c) && Counting(c, n, resp) && Wins(c.nodes[n], c.ids, resp)
    ensures c.nodes[n].term !in c.h.leaders
    ensures |Voters(c.voteResps, c.nodes[n].term, n, c.ids)| >= Majority(|c.ids|)
  {
    var s := c.nodes[n];
    CountedOk(c, n, resp);
    VotersGrow(c.voteResps, c.voteResps, s.term, n, s.answered + {resp.voter}, c.ids);
    if s.term in c.h.leaders {
      assert WinnerOk(c, s.term);
      var l := c.h.leaders[s.term];
      var v := MajoritiesMeet(c.ids, Voters(c.voteResps, s.term, n, c.ids), Voters(c.voteResps, s.term, l, c.ids));
      SameVote(c, s.term, v, n, l);
    }
  }

  lemma CountedOk(c: Cluster, n: Id, resp: VoteResp)
    requires ElectionInv(c) && Counting(c, n, resp)
    ensures c.nodes[n].granted + (if resp.granted then 1 else 0)
         <= |Voters(c.voteResps, c.nodes[n].term, n, c.nodes[n].answered + {resp.voter})|
  {
    var s := c.nodes[n];
    assert TallyOk(c, n) && VoteKept(c, resp);
    var before := Voters(c.voteResps, s.term, n, s.answered);
    var after := Voters(c.voteResps, s.term, n, s.answered + {resp.voter});
    if resp.granted {
      assert Grant(s.term, resp.voter, n) == resp;
      assert before + {resp.voter} <= after;
      SubsetSize(before + {resp.voter}, after);
    } else {
      SubsetSize(before, after);
    }
  }

  /** What counting a vote of the same term does to the election fields. */
  ghost predicate Tallied(s: State, t: State, resp: VoteResp, wins: bool) {
    && t.term == s.term && t.voteTerm == s.voteTerm && t.voteCand == s.voteCand
    && t.role == (if wins then Leader else Candidate)
    && (!wins ==> t.answered == s.answered + {resp.voter} && t.granted == s.granted + (if resp.granted then 1 else 0))
  }

  /** A vote counted without a win, or a win. */
  lemma TallyStep(c: Cluster, c': Cluster, n: Id, resp: VoteResp, wins: bool)
    requires ElectionInv(c) && OnlyAt(c, c', n) && Counting(c, n, resp) && wins == Wins(c.nodes[n], c.ids, resp)
    requires Tallied(c.nodes[n], c'.nodes[n], resp, wins) && c'.voteResps == c.voteResps
    requires c'.h.leaders == if wins then c.h.leaders[c.nodes[n].term := n] else c.h.leaders
    ensures ElectionInv(c')
  {
    VotesStay(c, c', n);
    CountedOk(c, n, resp);
    TalliesAfterTally(c, c', n, resp, wins);
    if wins {
      WinIsNew(c, n, resp);
      WinnersAfterWin(c, c', n);
    } else {
      WinnersStay(c, c', n);
    }
    LeadersAfterTally(c, c', n, resp, wins);
  }

  lemma LeadersAfterTally(c: Cluster, c': Cluster, n: Id, resp: VoteResp, wins: bool)
    requires (forall m | m in c.nodes :: LeadsOk(c, m)) && OnlyAt(c, c', n)
    requires Tallied(c.nodes[n], c'.nodes[n], resp, wins)
    requires c'.h.leaders == if wins then c.h.leaders[c.nodes[n].term := n] else c.h.leaders
    requires wins ==> c.nodes[n].term !in c.h.leaders
    ensures forall m | m in c'.nodes :: LeadsOk(c', m)
  {
    forall m | m in c'.nodes
      ensures LeadsOk(c', m)
    {
      assert LeadsOk(c, m);
    }
  }

  lemma TalliesAfterTally(c: Cluster, c': Cluster, n: Id, resp: VoteResp, wins: bool)
    requires (forall m | m in c.nodes :: TallyOk(c, m)) && OnlyAt(c, c', n) && resp.voter in c.ids
    requires Tallied(c.nodes[n], c'.nodes[n], resp, wins) && c'.voteResps == c.voteResps && c.nodes[n].role == Candidate
    requires c.nodes[n].granted + (if resp.granted then 1 else 0)
          <= |Voters(c.voteResps, c.nodes[n].term, n, c.nodes[n].answered + {resp.voter})|
    ensures forall m | m in c'.nodes :: TallyOk(c', m)
  {
    forall m | m in c'.nodes
      ensures TallyOk(c', m)
    {
      assert TallyOk(c, m);
    }
  }

  lemma WinnersAfterWin(c: Cluster, c': Cluster, n: Id)
    requires (forall t | t in c.h.leaders :: WinnerOk(c, t)) && OnlyAt(c, c', n)
    requires c'.voteResps == c.voteResps && c'.h.leaders == c.h.leaders[c.nodes[n].term := n]
    requires c'.nodes[n].term == c.nodes[n].term && c'.nodes[n].role == Leader
    requires |Voters(c.voteResps, c.nodes[n].term, n, c.ids)| >= Majority(|c.ids|)
    ensures forall t | t in c'.h.leaders :: WinnerOk(c', t)
  {
    forall t | t in c'.h.leaders
      ensures WinnerOk(c', t)
    {
      if t != c.nodes[n].term {
        assert WinnerOk(c, t);
      }
    }
  }

  ghost predicate Voting(l: Label) {
    l.StartElection? || l.RecvVoteReq? || l.RecvVoteResp? || l.CrashInVote? || l.CrashInElection?
  }

  lemma StepIsLocal(c: Cluster, l: Label)
    requires Enabled(c, l) && c.nodes.Keys == c.ids
    ensures OnlyAt(c, Apply(c, l), l.n)
  {
  }

  lemma AppendQuiet(s: State, req: AppendReq)
    ensures Quiet(s, AppendEntries(s, req))
    ensures AppendEntries(s, req).role == Leader ==> AppendEntries(s, req) == s
  {
  }

  lemma CommitQuiet(s: State)
    requires Ok(s)
    ensures var r := ApplyCommitted(s);
            r == s.(inflight := s.inflight.(committed := []), commit := r.commit, applied := r.applied)
  {
    CommitListQuiet(s.(inflight := s.inflight.(committed := [])), s.inflight.committed);
  }

  lemma QuietLabel(c: Cluster, l: Label)
    requires Enabled(c, l) && !Voting(l)
    ensures Quiet(c.nodes[l.n], NodeAfter(c, l))
  {
    match l {
      case Commit(n) => CommitQuiet(c.nodes[n]);
      case RecvAppend(n, req) => AppendQuiet(c.nodes[n], req);
      case RecvHeartbeat(n, req) => AppendQuiet(c.nodes[n], req);
      case _ => QuietElsewise(c, l);
    }
  }

  lemma QuietElsewise(c: Cluster, l: Label)
    requires Enabled(c, l) && !Voting(l) && !l.Commit? && !l.RecvAppend? && !l.RecvHeartbeat?
    ensures Quiet(c.nodes[l.n], NodeAfter(c, l))
  {
  }

  lemma VotingLabel(c: Cluster, l: Label)
    requires Enabled(c, l) && Voting(l) && !l.RecvVoteResp? && c.nodes[l.n].voteTerm <= c.nodes[l.n].term
    ensures Voted(c.nodes[l.n], NodeAfter(c, l))
  {
  }

  /** The answer that a voting step gives, if it gives one. */
  ghost function AnswerOf(c: Cluster, l: Label): VoteResp
    requires Enabled(c, l)
  {
    if l.RecvVoteReq? then VoteAnswer(c.nodes[l.n], l.n, l.vreq) else Grant(c.nodes[l.n].term + 1, l.n, l.n)
  }

  lemma VotingAnswer(c: Cluster, l: Label)
    requires Enabled(c, l) && Voting(l) && !l.RecvVoteResp?
    ensures Apply(c, l).voteResps == c.voteResps || Answered(c, Apply(c, l), l.n, AnswerOf(c, l))
  {
  }

  lemma TallyLabel(c: Cluster, n: Id, resp: VoteResp)
    requires Enabled(c, RecvVoteResp(n, resp))
    ensures var s, t := c.nodes[n], CountVote(c.nodes[n], n, c.ids, resp);
            if resp.term > s.term then Quiet(s, t) else Tallied(s, t, resp, Wins(s, c.ids, resp))
  {
  }

  /** Every step keeps the invariant, whatever the delivery and wherever a crash falls. */
  lemma ElectionStep(c: Cluster, l: Label)
    requires ElectionInv(c) && Enabled(c, l)
    ensures ElectionInv(Apply(c, l))
  {
    if !Voting(l) {
      QuietElectionStep(c, l);
    } else if l.RecvVoteResp? {
      TallyElectionStep(c, l.n, l.vresp);
    } else {
      VotingElectionStep(c, l);
    }
  }

  lemma QuietElectionStep(c: Cluster, l: Label)
    requires ElectionInv(c) && Enabled(c, l) && !Voting(l)
    ensures ElectionInv(Apply(c, l))
  {
    StepIsLocal(c, l);
    QuietLabel(c, l);
    QuietStep(c, Apply(c, l), l.n);
  }

  lemma TallyElectionStep(c: Cluster, n: Id, resp: VoteResp)
    requires ElectionInv(c) && Enabled(c, RecvVoteResp(n, resp))
    ensures ElectionInv(Apply(c, RecvVoteResp(n, resp)))
  {
    var l := RecvVoteResp(n, resp);
    StepIsLocal(c, l);
    TallyLabel(c, n, resp);
    if resp.term > c.nodes[n].term {
      QuietStep(c, Apply(c, l), n);
    } else {
      TallyStep(c, Apply(c, l), n, resp, Wins(c.nodes[n], c.ids, resp));
    }
  }

  lemma VotingElectionStep(c: Cluster, l: Label)
    requires ElectionInv(c) && Enabled(c, l) && Voting(l) && !l.RecvVoteResp?
    ensures ElectionInv(Apply(c, l))
  {
    StepIsLocal(c, l);
    VotingLabel(c, l);
    VotingAnswer(c, l);
    VoteStep(c, Apply(c, l), l.n, AnswerOf(c, l));
  }
}
