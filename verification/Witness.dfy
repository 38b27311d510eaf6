/**
  The steps of a cluster lead somewhere: a lock-step run of three nodes, one of them silent, in which a
  node is elected, an entry is dispatched, stored by a follower, committed, and applied by both.
 */
module Witness {
  import opened Basics
  import opened Node
  import opened Cluster
  import opened Election
  import opened Handlers
  import I = Inflight

  /** Leader to be, follower, and a node that never answers. */
  datatype Trio = Trio(a: Id, b: Id, c: Id) {
    ghost predicate Distinct() {
      a != b && b != c && a != c
    }

    function Ids(): set<Id> {
      {a, b, c}
    }
  }

  const X := Entry(1, LogCommand, "x")

  /** The two nodes that matter, and the slot between them. */
  ghost predicate At(k: Cluster, t: Trio, a: State, b: State, slot: Slot) {
    && t.Distinct() && k.ids == t.Ids() && |k.ids| == 3 && k.maxAppend == 1 && k.nodes.Keys == t.Ids()
    && k.nodes[t.a] == a && k.nodes[t.b] == b && SlotOf(k, 1, t.b) == slot
  }

  function Standing(t: Trio, answered: set<Id>, granted: nat): State {
    Fresh().(term := 1, role := Candidate, voteTerm := 1, voteCand := Some(t.a),
             answered := answered, granted := granted)
  }

  function Leading(t: Trio, log: Log, next: nat, match': nat, last: nat, inflight: I.Tracker<nat>): State {
    Fresh().(term := 1, role := Leader, leader := Some(t.a), voteTerm := 1, voteCand := Some(t.a), log := log,
             repl := map[t.b := Replicator(next, match', last, false), t.c := Replicator(1, 0, 0, false)],
             inflight := inflight)
  }

  function Voter(t: Trio): State {
    Fresh().(term := 1, voteTerm := 1, voteCand := Some(t.a))
  }

  function Request(t: Trio): VoteReq {
    VoteReq(1, t.a, 0, 0)
  }

  /** The request with the entry, and the one that tells that it is committed. */
  function Entries(t: Trio): AppendReq {
    AppendReq(1, t.a, t.b, 0, 0, [X], 0)
  }

  function Committed(t: Trio): AppendReq {
    AppendReq(1, t.a, t.b, 1, 1, [], 1)
  }

  function Waiting(): I.Tracker<nat> {
    I.Tracker(map[1 := I.Op(1, 1, 2)], 1, 1, [])
  }

  function Ready(): I.Tracker<nat> {
    I.Tracker(map[], 0, 0, [1])
  }

  function Stored(t: Trio): State {
    Voter(t).(leader := Some(t.a), log := [X])
  }

  function Applied(s: State): State {
    s.(commit := 1, applied := [X])
  }

  function Success(t: Trio): AppendResp {
    AppendResp(Entries(t), 1, 0, true)
  }

  // ---------------------------------------------------------------------------
  // One step

  ghost predicate Step(k: Cluster, k': Cluster) {
    exists l :: Enabled(k, l) && InOrder(k, l) && k' == Apply(k, l)
  }

  /** A lock-step run ends here. */
  ghost predicate Reached(k: Cluster) {
    exists run, labels :: IsLockStepRun(run, labels) && run[|labels|] == k
  }

  /** One step more, given as the run that has it. */
  lemma Extend(run: seq<Cluster>, labels: seq<Label>, run': seq<Cluster>, labels': seq<Label>, l: Label)
    requires IsLockStepRun(run, labels) && Enabled(run[|labels|], l) && InOrder(run[|labels|], l)
    requires run' == run + [Apply(run[|labels|], l)] && labels' == labels + [l]
    ensures IsLockStepRun(run', labels')
  {
    forall i: nat | i < |labels'|
      ensures StepAt(run', labels', i) && InOrder(run'[i], labels'[i])
    {
      if i < |labels| {
        assert StepAt(run, labels, i) && InOrder(run[i], labels[i]);
      }
    }
  }

  lemma Ends(run: seq<Cluster>, labels: seq<Label>, k: Cluster)
    requires IsLockStepRun(run, labels) && run[|labels|] == k
    ensures Reached(k)
  {
  }

  lemma Reaches(k: Cluster, k': Cluster)
    requires Reached(k) && Step(k, k')
    ensures Reached(k')
  {
    var run, labels :| IsLockStepRun(run, labels) && run[|labels|] == k;
    var l :| Enabled(k, l) && InOrder(k, l) && k' == Apply(k, l);
    Extend(run, labels, run + [k'], labels + [l], l);
    Ends(run + [k'], labels + [l], k');
  }

  lemma ReadyAfterVote()
    ensures I.Valid(Waiting()) && I.CommitEach(Waiting(), 1, 1) == Ready()
  {
    assert I.Notify(I.AddVote(Waiting(), 1)) == Ready();
    assert I.CommitEach(Waiting(), 1, 1) == I.CommitEach(Ready(), 2, 1) == Ready();
  }

  lemma WaitingAfterStart()
    ensures I.Valid(I.Empty<nat>()) && I.CanStart(I.Empty<nat>(), 1) && StartRange(I.Empty(), 1, 1, 2) == Waiting()
  {
    assert I.Start(I.Empty(), 1, 1, 2) == Waiting();
  }

  /** A leader of the trio meets what the handlers ask for. */
  lemma LeaderIsOk(t: Trio, log: Log, next: nat, match': nat, last: nat, inflight: I.Tracker<nat>)
    requires t.Distinct() && TrackerOk(inflight, |log|) && 1 <= next <= |log| + 1 && last <= |log|
    ensures NodeOk(t.Ids(), t.a, Leading(t, log, next, match', last, inflight))
  {
  }

  lemma Dispatched(t: Trio)
    requires t.Distinct()
    ensures NodeOk(t.Ids(), t.a, Leading(t, [], 1, 0, 0, I.Empty()))
    ensures Dispatch(Leading(t, [], 1, 0, 0, I.Empty()), [(LogCommand, "x")], 3) == Leading(t, [X], 1, 0, 0, Waiting())
  {
    LeaderIsOk(t, [], 1, 0, 0, I.Empty());
    WaitingAfterStart();
  }

  lemma Sent(t: Trio)
    requires t.Distinct()
    ensures NodeOk(t.Ids(), t.a, Leading(t, [X], 1, 0, 0, Waiting()))
    ensures MakeAppend(Leading(t, [X], 1, 0, 0, Waiting()), t.a, t.b, 1, 1) == Entries(t)
    ensures var s := Leading(t, [X], 1, 0, 0, Waiting());
            s.(repl := s.repl[t.b := s.repl[t.b].(last := 1)]) == Leading(t, [X], 1, 0, 1, Waiting())
  {
    LeaderIsOk(t, [X], 1, 0, 0, Waiting());
  }

  lemma Told(t: Trio)
    requires t.Distinct()
    ensures NodeOk(t.Ids(), t.a, Applied(Leading(t, [X], 2, 1, 1, I.Empty())))
    ensures MakeAppend(Applied(Leading(t, [X], 2, 1, 1, I.Empty())), t.a, t.b, 1, 1) == Committed(t)
    ensures var s := Applied(Leading(t, [X], 2, 1, 1, I.Empty()));
            s.(repl := s.repl[t.b := s.repl[t.b].(last := 1)]) == s
  {
    LeaderIsOk(t, [X], 2, 1, 1, I.Empty());
  }

  lemma Confirmed(t: Trio)
    requires t.Distinct()
    ensures NodeOk(t.Ids(), t.a, Leading(t, [X], 1, 0, 1, Waiting()))
    ensures HandleReply(Leading(t, [X], 1, 0, 1, Waiting()), Success(t)) == Leading(t, [X], 2, 1, 1, Ready())
  {
    ReadyAfterVote();
    LeaderIsOk(t, [X], 1, 0, 1, Waiting());
  }

  // ---------------------------------------------------------------------------
  // Step by step

  lemma Stands(k: Cluster, t: Trio) returns (k': Cluster)
    requires Init(k) && t.Distinct() && k.ids == t.Ids() && |k.ids| == 3 && k.maxAppend == 1
    ensures Step(k, k') && At(k', t, Standing(t, {}, 0), Fresh(), Idle)
    ensures Request(t) in k'.voteReqs && Grant(1, t.a, t.a) in k'.voteResps
  {
    var l := StartElection(t.a);
    k' := Apply(k, l);
    assert InOrder(k, l);
  }

  lemma CountsOwnVote(k: Cluster, t: Trio) returns (k': Cluster)
    requires At(k, t, Standing(t, {}, 0), Fresh(), Idle)
    requires Request(t) in k.voteReqs && Grant(1, t.a, t.a) in k.voteResps
    ensures Step(k, k') && At(k', t, Standing(t, {t.a}, 1), Fresh(), Idle) && Request(t) in k'.voteReqs
  {
    var l := RecvVoteResp(t.a, Grant(1, t.a, t.a));
    k' := Apply(k, l);
    assert InOrder(k, l);
  }

  lemma Votes(k: Cluster, t: Trio) returns (k': Cluster)
    requires At(k, t, Standing(t, {t.a}, 1), Fresh(), Idle) && Request(t) in k.voteReqs
    ensures Step(k, k') && At(k', t, Standing(t, {t.a}, 1), Voter(t), Idle) && Grant(1, t.b, t.a) in k'.voteResps
  {
    var l := RecvVoteReq(t.b, Request(t));
    k' := Apply(k, l);
    assert InOrder(k, l);
  }

  lemma Wins(k: Cluster, t: Trio) returns (k': Cluster)
    requires At(k, t, Standing(t, {t.a}, 1), Voter(t), Idle) && Grant(1, t.b, t.a) in k.voteResps
    ensures Step(k, k') && At(k', t, Leading(t, [], 1, 0, 0, I.Empty()), Voter(t), Idle)
  {
    var l := RecvVoteResp(t.a, Grant(1, t.b, t.a));
    var r := CountVote(k.nodes[t.a], t.a, k.ids, l.vresp);
    assert r.repl == Leading(t, [], 1, 0, 0, I.Empty()).repl;
    k' := Apply(k, l);
    assert InOrder(k, l);
  }

  lemma Dispatches(k: Cluster, t: Trio) returns (k': Cluster)
    requires At(k, t, Leading(t, [], 1, 0, 0, I.Empty()), Voter(t), Idle)
    ensures Step(k, k') && At(k', t, Leading(t, [X], 1, 0, 0, Waiting()), Voter(t), Idle)
  {
    Dispatched(t);
    var l := DoDispatch(t.a, [(LogCommand, "x")]);
    k' := Apply(k, l);
    assert InOrder(k, l);
  }

  lemma Sends(k: Cluster, t: Trio) returns (k': Cluster)
    requires At(k, t, Leading(t, [X], 1, 0, 0, Waiting()), Voter(t), Idle)
    ensures Step(k, k') && At(k', t, Leading(t, [X], 1, 0, 1, Waiting()), Voter(t), Pending(Entries(t)))
    ensures Entries(t) in k'.wire
  {
    Sent(t);
    var l := SendAppend(t.a, t.b, 1);
    k' := Apply(k, l);
    assert InOrder(k, l);
  }

  lemma Stores(k: Cluster, t: Trio) returns (k': Cluster)
    requires At(k, t, Leading(t, [X], 1, 0, 1, Waiting()), Voter(t), Pending(Entries(t))) && Entries(t) in k.wire
    ensures Step(k, k') && At(k', t, Leading(t, [X], 1, 0, 1, Waiting()), Stored(t), Replied(Success(t)))
    ensures Success(t) in k'.replies
  {
    var l := RecvAppend(t.b, Entries(t));
    k' := Apply(k, l);
    assert InOrder(k, l);
  }

  lemma Confirms(k: Cluster, t: Trio) returns (k': Cluster)
    requires At(k, t, Leading(t, [X], 1, 0, 1, Waiting()), Stored(t), Replied(Success(t))) && Success(t) in k.replies
    ensures Step(k, k') && At(k', t, Leading(t, [X], 2, 1, 1, Ready()), Stored(t), Idle)
  {
    Confirmed(t);
    var l := RecvReply(t.a, Success(t));
    k' := Apply(k, l);
    assert InOrder(k, l);
  }

  lemma Commits(k: Cluster, t: Trio) returns (k': Cluster)
    requires At(k, t, Leading(t, [X], 2, 1, 1, Ready()), Stored(t), Idle)
    ensures Step(k, k') && At(k', t, Applied(Leading(t, [X], 2, 1, 1, I.Empty())), Stored(t), Idle)
  {
    LeaderIsOk(t, [X], 2, 1, 1, Ready());
    var s := k.nodes[t.a].(inflight := I.Empty());
    assert CommitList(s, [1]) == CommitList(Applied(s), []) == Applied(s);
    var l := Commit(t.a);
    k' := Apply(k, l);
    assert InOrder(k, l);
  }

  lemma Tells(k: Cluster, t: Trio) returns (k': Cluster)
    requires At(k, t, Applied(Leading(t, [X], 2, 1, 1, I.Empty())), Stored(t), Idle)
    ensures Step(k, k') && Committed(t) in k'.wire
    ensures At(k', t, Applied(Leading(t, [X], 2, 1, 1, I.Empty())), Stored(t), Pending(Committed(t)))
  {
    Told(t);
    var l := SendAppend(t.a, t.b, 1);
    k' := Apply(k, l);
    assert InOrder(k, l);
  }

  lemma Follows(k: Cluster, t: Trio) returns (k': Cluster)
    requires At(k, t, Applied(Leading(t, [X], 2, 1, 1, I.Empty())), Stored(t), Pending(Committed(t)))
    requires Committed(t) in k.wire
    ensures Step(k, k') && k'.nodes.Keys == k'.ids == t.Ids()
    ensures k'.nodes[t.a].applied == [X] && k'.nodes[t.b].applied == [X]
  {
    RequestIsApplied(k.nodes[t.b], Committed(t));
    var l := RecvAppend(t.b, Committed(t));
    k' := Apply(k, l);
    assert InOrder(k, l);
  }

  // ---------------------------------------------------------------------------
  // The run

  lemma Elects(k: Cluster, t: Trio) returns (r: Cluster)
    requires Reached(k) && Init(k) && t.Distinct() && k.ids == t.Ids() && |k.ids| == 3 && k.maxAppend == 1
    ensures Reached(r) && At(r, t, Leading(t, [], 1, 0, 0, I.Empty()), Voter(t), Idle)
  {
    var k1 := Stands(k, t);
    Reaches(k, k1);
    var k2 := CountsOwnVote(k1, t);
    Reaches(k1, k2);
    var k3 := Votes(k2, t);
    Reaches(k2, k3);
    r := Wins(k3, t);
    Reaches(k3, r);
  }

  lemma Replicates(k: Cluster, t: Trio) returns (r: Cluster)
    requires Reached(k) && At(k, t, Leading(t, [], 1, 0, 0, I.Empty()), Voter(t), Idle)
    ensures Reached(r) && At(r, t, Leading(t, [X], 2, 1, 1, Ready()), Stored(t), Idle)
  {
    var k1 := Dispatches(k, t);
    Reaches(k, k1);
    var k2 := Sends(k1, t);
    Reaches(k1, k2);
    var k3 := Stores(k2, t);
    Reaches(k2, k3);
    r := Confirms(k3, t);
    Reaches(k3, r);
  }

  lemma AppliesAtBoth(k: Cluster, t: Trio) returns (r: Cluster)
    requires Reached(k) && At(k, t, Leading(t, [X], 2, 1, 1, Ready()), Stored(t), Idle)
    ensures Reached(r) && r.nodes.Keys == r.ids == t.Ids()
    ensures r.nodes[t.a].applied == [X] && r.nodes[t.b].applied == [X]
  {
    var k1 := Commits(k, t);
    Reaches(k, k1);
    var k2 := Tells(k1, t);
    Reaches(k1, k2);
    r := Follows(k2, t);
    Reaches(k2, r);
  }

  lemma Start(t: Trio) returns (k: Cluster)
    requires t.Distinct()
    ensures Reached(k) && Init(k) && k.ids == t.Ids() && |k.ids| == 3 && k.maxAppend == 1
  {
    var nodes := map n | n in t.Ids() :: Fresh();
    k := Cluster(t.Ids(), 1, nodes, {}, {}, {}, {}, {}, map[], History(map[], map[], map[], map[], map[]));
    assert |t.Ids()| == 3;
    var labels: seq<Label> := [];
    assert IsLockStepRun([k], labels) && [k][|labels|] == k;
  }

  /** With two of three nodes, an entry gets elected for, dispatched, stored, committed and applied. */
  lemma TwoOfThreeApply(t: Trio) returns (run: seq<Cluster>, labels: seq<Label>)
    requires t.Distinct()
    ensures IsLockStepRun(run, labels) && run[|labels|].nodes.Keys == run[|labels|].ids == {t.a, t.b, t.c}
    ensures run[|labels|].nodes[t.a].applied == [X] && run[|labels|].nodes[t.b].applied == [X]
  {
    var k := Start(t);
    k := Elects(k, t);
    k := Replicates(k, t);
    k := AppliesAtBoth(k, t);
    run, labels :| IsLockStepRun(run, labels) && run[|labels|] == k;
  }
}
