/**
  VerifyLeader (internal/raft/future.go, raft.go, replication.go): a future is shown to every
  replicator, heartbeat and replication replies vote on it in any order, and the leader loop answers
  it.  Votes are cast one at a time, also those of one notifyAll.
 */
module VerifyLeader {
  import opened Basics
  import opened Node

  /** verifyFuture.  `armed` is `notifyCh != nil`, `epoch` the leadership it was started in. */
  datatype Future = Future(quorum: nat, votes: nat, armed: bool, answer: Option<bool>, epoch: nat)

  /** A replicator belongs to one leadership; a ballot is its word on one future. */
  datatype Voter = Voter(epoch: nat, peer: Id)
  datatype Ballot = Ballot(voter: Voter, v: nat, yes: bool)

  datatype World = World(
    peers: set<Id>, leading: bool, epoch: nat,
    futures: map<nat, Future>,
    channel: seq<nat>,                  // verifyCh
    waiting: map<Voter, seq<nat>>,      // followerReplication.notify
    ballots: set<Ballot>,               // taken off a notify list, not yet voted
    tracked: set<nat>,                  // leaderState.notify
    // history
    cast: seq<Ballot>, sent: seq<nat>)

  datatype Step =
    | Submit(v: nat)
    | Take                              // a loop receives from verifyCh
    | NotifyAll(voter: Voter, yes: bool)
    | Vote(b: Ballot)                   // an outstanding ballot, whichever comes first
    | Win
    | StepDown

  // ---------------------------------------------------------------------------
  // Single futures

  function NewFuture(): Future {
    Future(0, 0, false, None, 0)
  }

  /** deferError.respond: only the first answer counts. */
  function Respond(u: Future, ok: bool): Future {
    if u.answer == None then u.(answer := Some(ok)) else u
  }

  /** Does a vote make the future notify its channel? */
  predicate Notifies(u: Future, yes: bool) {
    u.armed && (!yes || u.votes + 1 >= u.quorum)
  }

  function Voted(u: Future, yes: bool): Future {
    if !u.armed then u
    else u.(votes := if yes then u.votes + 1 else u.votes, armed := !Notifies(u, yes))
  }

  /** A future as the source keeps it. */
  class VerifyFuture {
    var quorumSize: nat
    var votes: nat
    var notify: bool
    var responded: Option<bool>

    /** `epoch` is history: the source does not record it. */
    ghost function Value(epoch: nat): Future
      reads this
    {
      Future(quorumSize, votes, notify, responded, epoch)
    }

    constructor ()
      ensures Value(0) == NewFuture()
    {
      quorumSize, votes, notify, responded := 0, 0, false, None;
    }

    /** True when the future is sent on its channel. */
    method Vote(leader: bool) returns (sent: bool)
      modifies this
      ensures forall epoch ::
            Value(epoch) == Voted(old(Value(epoch)), leader) && sent == Notifies(old(Value(epoch)), leader)
    {
      sent := false;
      if !notify {
        return;
      }
      if leader {
        votes := votes + 1;
        if votes >= quorumSize {
          sent, notify := true, false;
        }
      } else {
        sent, notify := true, false;
      }
    }

    method Answer(ok: bool)
      modifies this
      ensures forall epoch :: Value(epoch) == Respond(old(Value(epoch)), ok)
    {
      if responded == None {
        responded := Some(ok);
      }
    }
  }

  // ---------------------------------------------------------------------------
  // Steps

  function QuorumSize(w: World): nat {
    Majority(|w.peers| + 1)
  }

  function Waiting(w: World, r: Voter): seq<nat> {
    if r in w.waiting then w.waiting[r] else []
  }

  ghost predicate Enabled(w: World, s: Step) {
    match s
    case Submit(v) => v !in w.futures
    case Take => w.channel != [] && w.channel[0] in w.futures
    case NotifyAll(_, _) => true
    case Vote(b) => b in w.ballots && b.v in w.futures
    case Win => !w.leading
    case StepDown => w.leading
  }

  /** verifyLeader */
  function Verify(w: World, v: nat): World
    requires v in w.futures
  {
    var u := w.futures[v].(votes := 1, quorum := QuorumSize(w), epoch := w.epoch);
    if u.quorum == 1 then w.(futures := w.futures[v := Respond(u, true)])
    else
      w.(futures := w.futures[v := u.(armed := true)], tracked := w.tracked + {v},
         waiting := map r | r in w.waiting.Keys + (set p | p in w.peers :: Voter(w.epoch, p)) ::
           Waiting(w, r) + (if r.epoch == w.epoch && r.peer in w.peers then [v] else []))
  }

  function Settle(w: World, v: nat, ok: bool): World
    requires v in w.futures
  {
    w.(futures := w.futures[v := Respond(w.futures[v], ok)], tracked := w.tracked - {v})
  }

  /** The deferred cleanup of runLeader. */
  function Cleanup(w: World): World {
    w.(leading := false, tracked := {},
       futures := map v | v in w.futures :: if v in w.tracked then Respond(w.futures[v], false) else w.futures[v])
  }

  function Received(w: World, v: nat): World
    requires v in w.futures
  {
    var u := w.futures[v];
    if !w.leading then Settle(w, v, false).(tracked := w.tracked)
    else if u.quorum == 0 then Verify(w, v)
    else if u.votes < u.quorum then Cleanup(Settle(w, v, false))
    else Settle(w, v, true)
  }

  function BallotsOf(r: Voter, list: seq<nat>, yes: bool): set<Ballot> {
    set v | v in list :: Ballot(r, v, yes)
  }

  function CastOne(w: World, b: Ballot): World
    requires b.v in w.futures
  {
    var u := w.futures[b.v];
    var told := if Notifies(u, b.yes) then [b.v] else [];
    w.(ballots := w.ballots - {b}, futures := w.futures[b.v := Voted(u, b.yes)],
       channel := w.channel + told, cast := w.cast + [b], sent := w.sent + told)
  }

  function Do(w: World, s: Step): World
    requires Enabled(w, s)
  {
    match s
    case Submit(v) => w.(futures := w.futures[v := NewFuture()], channel := w.channel + [v])
    case Take => Received(w.(channel := w.channel[1..]), w.channel[0])
    case NotifyAll(r, yes) =>
      w.(waiting := w.waiting[r := []], ballots := w.ballots + BallotsOf(r, Waiting(w, r), yes))
    case Vote(b) => CastOne(w, b)
    case Win => w.(leading := true, epoch := w.epoch + 1, tracked := {})
    case StepDown => Cleanup(w)
  }

  // ---------------------------------------------------------------------------
  // The invariant

  /** The followers that said yes on `v`. */
  ghost function Yes(cast: seq<Ballot>, v: nat): set<Id> {
    set b | b in cast && b.v == v && b.yes :: b.voter.peer
  }

  ghost predicate NoDenial(cast: seq<Ballot>, v: nat) {
    forall b | b in cast && b.v == v :: b.yes
  }

  /** At some moment the leader and the followers that had said yes were a quorum, and none had said no. */
  ghost predicate QuorumBeforeNo(cast: seq<Ballot>, v: nat, quorum: nat) {
    exists k: nat :: QuorumAt(cast, v, quorum, k)
  }

  ghost predicate QuorumAt(cast: seq<Ballot>, v: nat, quorum: nat, k: nat) {
    k <= |cast| && NoDenial(cast[..k], v) && |Yes(cast[..k], v)| + 1 >= quorum
  }

  /** A replicator that was shown the future. */
  ghost predicate Known(w: World, r: Voter, v: nat) {
    v in w.futures && w.futures[v].quorum > 0 && r.epoch == w.futures[v].epoch && r.peer in w.peers
  }

  ghost predicate HasCast(cast: seq<Ballot>, r: Voter, v: nat) {
    exists i | 0 <= i < |cast| :: cast[i].voter == r && cast[i].v == v
  }

  /** The word of a replicator on a future is in at most one place: on its list, on its way, or cast. */
  ghost predicate OncePerVoter(w: World) {
    && (forall r | r in w.waiting :: ListOk(w, r, w.waiting[r]))
    && (forall b | b in w.ballots :: Known(w, b.voter, b.v) && !HasCast(w.cast, b.voter, b.v))
    && (forall a, b | a in w.ballots && b in w.ballots && a.voter == b.voter && a.v == b.v :: a == b)
    && (forall b | b in w.cast :: Known(w, b.voter, b.v))
    && (forall i, j | 0 <= i < j < |w.cast| :: w.cast[i].voter != w.cast[j].voter || w.cast[i].v != w.cast[j].v)
  }

  ghost predicate ListOk(w: World, r: Voter, list: seq<nat>) {
    && (forall i, j | 0 <= i < j < |list| :: list[i] != list[j])
    && (forall v | v in list :: Known(w, r, v) && !HasCast(w.cast, r, v) && Ballot(r, v, true) !in w.ballots
          && Ballot(r, v, false) !in w.ballots)
  }

  ghost predicate FutureOk(w: World, v: nat)
    requires v in w.futures
  {
    var u := w.futures[v];
    && (u.quorum == 0 ==> !u.armed && u.answer != Some(true))
    && (u.quorum > 0 ==>
          && u.quorum == QuorumSize(w)
          && (u.armed ==> NoDenial(w.cast, v) && u.votes == 1 + |Yes(w.cast, v)| && u.votes < u.quorum)
          && (u.votes >= u.quorum ==> QuorumBeforeNo(w.cast, v, u.quorum))
          && (u.answer == Some(true) ==> u.votes >= u.quorum))
  }

  ghost predicate SentOk(w: World) {
    && (forall i, j | 0 <= i < j < |w.sent| :: w.sent[i] != w.sent[j])
    && (forall v | v in w.sent :: v in w.futures && w.futures[v].quorum > 0 && !w.futures[v].armed)
    && (forall v | v in w.channel :: v in w.futures)
  }

  ghost predicate Inv(w: World) {
    OncePerVoter(w) && SentOk(w) && (forall v | v in w.futures :: FutureOk(w, v)) && w.tracked <= w.futures.Keys
  }

  // ---------------------------------------------------------------------------
  // Every step keeps it

  /** Only the futures' answers, or futures nobody was shown, change. */
  ghost predicate OnlyAnswers(w: World, w': World) {
    && w'.peers == w.peers && w'.waiting == w.waiting && w'.ballots == w.ballots && w'.cast == w.cast
          && w'.sent == w.sent
    && (forall v | v in w'.channel :: v in w.channel || v in w'.futures) && w'.tracked <= w.tracked
    && (forall v | v in w.futures :: v in w'.futures && AnswerOnly(w.futures[v], w'.futures[v]))
    && (forall v | v in w'.futures && v !in w.futures :: w'.futures[v] == NewFuture())
  }

  ghost predicate AnswerOnly(u: Future, u': Future) {
    && u' == u.(answer := u'.answer)
    && (u'.answer == Some(true) && u.answer != Some(true) ==> u.quorum > 0 && u.votes >= u.quorum)
  }

  lemma AnswersKeep(w: World, w': World)
    requires Inv(w) && OnlyAnswers(w, w')
    ensures Inv(w')
  {
    forall r | r in w'.waiting
      ensures ListOk(w', r, w'.waiting[r])
    {
      assert ListOk(w, r, w.waiting[r]);
    }
    forall v | v in w'.futures
      ensures FutureOk(w', v)
    {
      if v in w.futures {
        assert FutureOk(w, v) && AnswerOnly(w.futures[v], w'.futures[v]);
      }
    }
  }

  lemma CleanupAnswers(w: World)
    ensures OnlyAnswers(w, Cleanup(w))
  {
  }

  /** Moving a list on its way. */
  lemma NotifyAllKeeps(w: World, r: Voter, yes: bool)
    requires Inv(w)
    ensures Inv(Do(w, NotifyAll(r, yes)))
  {
    var w' := Do(w, NotifyAll(r, yes));
    if r in w.waiting {
      assert ListOk(w, r, w.waiting[r]);
    }
    forall q | q in w'.waiting
      ensures ListOk(w', q, w'.waiting[q])
    {
      if q != r {
        assert ListOk(w, q, w.waiting[q]);
      }
    }
    forall v | v in w'.futures
      ensures FutureOk(w', v)
    {
      assert FutureOk(w, v);
    }
  }

  /** Showing a future to the replicators for the first time. */
  lemma VerifyKeepsLists(w: World, v: nat)
    requires OncePerVoter(w) && v in w.futures && w.futures[v].quorum == 0
    requires forall r | r in w.waiting :: v !in w.waiting[r]
    requires forall b | b in w.ballots || b in w.cast :: b.v != v
    ensures OncePerVoter(Verify(w, v))
  {
    var w' := Verify(w, v);
    forall r | r in w'.waiting
      ensures ListOk(w', r, w'.waiting[r])
    {
      if r in w.waiting {
        assert ListOk(w, r, w.waiting[r]);
      }
    }
  }

  lemma VerifyKeeps(w: World, v: nat)
    requires Inv(w) && v in w.futures && w.futures[v].quorum == 0
    ensures Inv(Verify(w, v))
  {
    NeverSeen(w, v);
    VerifyKeepsLists(w, v);
    forall x | x in w.futures
      ensures FutureOk(Verify(w, v), x)
    {
      assert FutureOk(w, x);
      if x == v {
        FirstVotes(w, v);
      }
    }
  }

  /** Nobody has a word on a future before it is shown. */
  lemma NeverSeen(w: World, v: nat)
    requires Inv(w) && v in w.futures && w.futures[v].quorum == 0
    ensures forall r | r in w.waiting :: v !in w.waiting[r]
    ensures forall b | b in w.ballots || b in w.cast :: b.v != v
  {
    forall r | r in w.waiting
      ensures v !in w.waiting[r]
    {
      assert ListOk(w, r, w.waiting[r]);
    }
  }

  lemma FirstVotes(w: World, v: nat)
    requires forall b | b in w.cast :: b.v != v
    ensures NoDenial(w.cast, v) && Yes(w.cast, v) == {} && QuorumBeforeNo(w.cast, v, 1)
  {
    assert QuorumAt(w.cast, v, 1, 0);
  }

  lemma ReceivedKeeps(w: World, v: nat)
    requires Inv(w) && v in w.futures
    ensures Inv(Received(w, v))
  {
    var u := w.futures[v];
    assert FutureOk(w, v);
    if w.leading && u.quorum == 0 {
      VerifyKeeps(w, v);
    } else if w.leading && u.votes < u.quorum {
      AnswersKeep(w, Settle(w, v, false));
      CleanupAnswers(Settle(w, v, false));
      AnswersKeep(Settle(w, v, false), Cleanup(Settle(w, v, false)));
    } else {
      AnswersKeep(w, Received(w, v));
    }
  }

  /** Ballots cast on other futures change nothing about this one. */
  lemma OtherCast(cast: seq<Ballot>, b: Ballot, v: nat)
    requires b.v != v
    ensures Yes(cast + [b], v) == Yes(cast, v) && (NoDenial(cast + [b], v) <==> NoDenial(cast, v))
  {
  }

  lemma QuorumStays(cast: seq<Ballot>, b: Ballot, v: nat, quorum: nat)
    requires QuorumBeforeNo(cast, v, quorum)
    ensures QuorumBeforeNo(cast + [b], v, quorum)
  {
    var k: nat :| QuorumAt(cast, v, quorum, k);
    assert (cast + [b])[..k] == cast[..k];
    assert QuorumAt(cast + [b], v, quorum, k);
  }

  /** A yes from a follower that had not voted adds exactly one. */
  lemma YesAdds(w: World, b: Ballot)
    requires OncePerVoter(w) && b in w.ballots && b.yes
    ensures |Yes(w.cast + [b], b.v)| == |Yes(w.cast, b.v)| + 1
    ensures NoDenial(w.cast, b.v) ==> NoDenial(w.cast + [b], b.v)
  {
    assert Known(w, b.voter, b.v) && !HasCast(w.cast, b.voter, b.v);
    assert Yes(w.cast + [b], b.v) == Yes(w.cast, b.v) + {b.voter.peer};
    assert forall a | a in w.cast && a.v == b.v :: Known(w, a.voter, a.v) && a.voter.peer != b.voter.peer;
  }

  lemma CastKeepsOnce(w: World, b: Ballot)
    requires OncePerVoter(w) && b in w.ballots && b.v in w.futures
    ensures OncePerVoter(CastOne(w, b))
  {
    var w' := CastOne(w, b);
    CastKeepsLists(w, b);
    CastIsNew(w, b);
    forall a | a in w'.ballots
      ensures Known(w', a.voter, a.v) && !HasCast(w'.cast, a.voter, a.v)
    {
      assert Known(w, a.voter, a.v) && !HasCast(w.cast, a.voter, a.v);
    }
  }

  lemma CastKeepsLists(w: World, b: Ballot)
    requires OncePerVoter(w) && b in w.ballots && b.v in w.futures
    ensures var w' := CastOne(w, b); forall r | r in w'.waiting :: ListOk(w', r, w'.waiting[r])
  {
    var w' := CastOne(w, b);
    forall r | r in w'.waiting
      ensures ListOk(w', r, w'.waiting[r])
    {
      assert ListOk(w, r, w.waiting[r]);
    }
  }

  lemma CastIsNew(w: World, b: Ballot)
    requires !HasCast(w.cast, b.voter, b.v)
    requires forall i, j | 0 <= i < j < |w.cast| :: w.cast[i].voter != w.cast[j].voter || w.cast[i].v != w.cast[j].v
    ensures var cast := w.cast + [b];
            forall i, j | 0 <= i < j < |cast| :: cast[i].voter != cast[j].voter || cast[i].v != cast[j].v
  {
  }

  lemma CastFuture(w: World, b: Ballot, v: nat)
    requires Inv(w) && b in w.ballots && b.v in w.futures && v in w.futures
    ensures FutureOk(CastOne(w, b), v)
  {
    assert FutureOk(w, v) && Known(w, b.voter, b.v);
    var u, w' := w.futures[v], CastOne(w, b);
    if u.quorum > 0 && u.votes >= u.quorum {
      QuorumStays(w.cast, b, v, u.quorum);
    }
    if v != b.v {
      OtherCast(w.cast, b, v);
    } else if b.yes && u.armed {
      YesAdds(w, b);
      assert w'.cast[..|w'.cast|] == w'.cast;
      assert u.votes + 1 >= u.quorum ==> QuorumAt(w'.cast, v, u.quorum, |w'.cast|);
    }
  }

  lemma VoteKeeps(w: World, b: Ballot)
    requires Inv(w) && b in w.ballots && b.v in w.futures
    ensures Inv(CastOne(w, b))
  {
    CastKeepsOnce(w, b);
    assert Known(w, b.voter, b.v);
    forall v | v in w.futures
      ensures FutureOk(CastOne(w, b), v)
    {
      CastFuture(w, b, v);
    }
  }

  lemma StepKeeps(w: World, s: Step)
    requires Inv(w) && Enabled(w, s)
    ensures Inv(Do(w, s))
  {
    match s {
      case NotifyAll(r, yes) => NotifyAllKeeps(w, r, yes);
      case Vote(b) => VoteKeeps(w, b);
      case Take =>
        AnswersKeep(w, w.(channel := w.channel[1..]));
        ReceivedKeeps(w.(channel := w.channel[1..]), w.channel[0]);
      case StepDown =>
        CleanupAnswers(w);
        AnswersKeep(w, Do(w, s));
      case _ => AnswersKeep(w, Do(w, s));
    }
  }

  // ---------------------------------------------------------------------------
  // Runs

  ghost predicate Init(w: World) {
    !w.leading && w.futures == map[] && w.channel == [] && w.waiting == map[] && w.ballots == {} && w.tracked == {}
          && w.cast == [] && w.sent == []
  }

  ghost predicate StepAt(run: seq<World>, steps: seq<Step>, k: nat)
    requires k < |steps| && |run| == |steps| + 1
  {
    Enabled(run[k], steps[k]) && run[k + 1] == Do(run[k], steps[k])
  }

  ghost predicate IsRun(run: seq<World>, steps: seq<Step>) {
    |run| == |steps| + 1 && Init(run[0]) && forall k: nat | k < |steps| :: StepAt(run, steps, k)
  }

  lemma {:induction false} RunHolds(run: seq<World>, steps: seq<Step>, k: nat)
    requires IsRun(run, steps) && k < |run|
    ensures Inv(run[k])
  {
    if k > 0 {
      RunHolds(run, steps, k - 1);
      assert StepAt(run, steps, k - 1);
      StepKeeps(run[k - 1], steps[k - 1]);
    }
  }

  /** In any interleaving a future is notified at most once. */
  lemma NotifiedOnce(run: seq<World>, steps: seq<Step>, k: nat, i: nat, j: nat)
    requires IsRun(run, steps) && k < |run| && i < j < |run[k].sent|
    ensures run[k].sent[i] != run[k].sent[j]
  {
    RunHolds(run, steps, k);
  }

  /** Each replicator votes on a future at most once, and all that vote on it are peers of one leadership. */
  lemma VotesOnce(run: seq<World>, steps: seq<Step>, k: nat, i: nat, j: nat)
    requires IsRun(run, steps) && k < |run| && i < j < |run[k].cast| && run[k].cast[i].v == run[k].cast[j].v
    ensures run[k].cast[i].voter.peer != run[k].cast[j].voter.peer
    ensures run[k].cast[i].voter.epoch == run[k].cast[j].voter.epoch
  {
    RunHolds(run, steps, k);
    assert run[k].cast[i] in run[k].cast && run[k].cast[j] in run[k].cast;
  }

  /** A future succeeds only if the leader and distinct followers forming a quorum said yes before any
      follower said no. */
  lemma VerifiedByQuorum(run: seq<World>, steps: seq<Step>, k: nat, v: nat)
    requires IsRun(run, steps) && k < |run| && v in run[k].futures && run[k].futures[v].answer == Some(true)
    ensures QuorumBeforeNo(run[k].cast, v, Majority(|run[k].peers| + 1)) && Yes(run[k].cast, v) <= run[k].peers
  {
    RunHolds(run, steps, k);
    assert FutureOk(run[k], v);
  }

  /** The first answer of a future is its answer. */
  lemma {:induction false} AnsweredOnce(run: seq<World>, steps: seq<Step>, i: nat, j: nat, v: nat)
    requires IsRun(run, steps) && i <= j < |run| && v in run[i].futures && run[i].futures[v].answer != None
    ensures v in run[j].futures && run[j].futures[v].answer == run[i].futures[v].answer
    decreases j
  {
    if i < j {
      AnsweredOnce(run, steps, i, j - 1, v);
      assert StepAt(run, steps, j - 1);
    }
  }
}
