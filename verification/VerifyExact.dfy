/**
  The other half of VerifyLeader: every replicator is asked, a future is notified as soon as it is
  decided, and the answer is the decision.
 */
module VerifyExact {
  import opened Basics
  import opened Node
  import opened VerifyLeader

  /** A follower said no while the leader and those that had said yes were still short of a quorum. */
  ghost predicate Denied(cast: seq<Ballot>, v: nat, quorum: nat) {
    exists j: nat :: DeniedAt(cast, v, quorum, j)
  }

  ghost predicate DeniedAt(cast: seq<Ballot>, v: nat, quorum: nat, j: nat) {
    j < |cast| && cast[j].v == v && !cast[j].yes && |Yes(cast[..j], v)| + 1 < quorum
  }

  /** The replicator's word on a future: still to be asked for, on its way, or cast. */
  ghost predicate HasWord(w: World, r: Voter, v: nat) {
    || v in Waiting(w, r) || Ballot(r, v, true) in w.ballots || Ballot(r, v, false) in w.ballots
    || HasCast(w.cast, r, v)
  }

  ghost predicate Exact(w: World, v: nat)
    requires v in w.futures
  {
    var u := w.futures[v];
    && (u.quorum == 1 ==> u.answer != None)
    && (u.quorum > 1 ==>
          && (u.armed || v in w.sent)
          && (!u.armed && u.votes < u.quorum ==> Denied(w.cast, v, u.quorum))
          && (u.answer == None ==> w.leading && v in w.tracked)
          && (forall p | p in w.peers :: HasWord(w, Voter(u.epoch, p), v)))
  }

  /** A future that has not been shown is in the channel at most once, and one that has been is there
      only because it was notified. */
  ghost predicate ChannelOk(w: World) {
    && (forall i | 0 <= i < |w.channel| :: w.channel[i] in w.futures)
    && (forall i | 0 <= i < |w.channel| && w.futures[w.channel[i]].quorum > 0 ::
          w.futures[w.channel[i]].quorum > 1 && !w.futures[w.channel[i]].armed)
    && (forall i, j | 0 <= i < j < |w.channel| && w.channel[i] == w.channel[j] :: w.futures[w.channel[i]].quorum > 0)
  }

  ghost predicate ExactInv(w: World) {
    ChannelOk(w) && forall v | v in w.futures :: Exact(w, v)
  }

  // ---------------------------------------------------------------------------
  // Denied and confirmed exclude each other

  lemma YesGrows(cast: seq<Ballot>, v: nat, j: nat, k: nat)
    requires j <= k <= |cast|
    ensures |Yes(cast[..j], v)| <= |Yes(cast[..k], v)|
  {
    forall b | b in cast[..j]
      ensures b in cast[..k]
    {
    }
    SubsetCard(Yes(cast[..j], v), Yes(cast[..k], v));
  }

  lemma SubsetCard(a: set<Id>, b: set<Id>)
    requires a <= b
    ensures |a| <= |b|
  {
    assert b == a + (b - a);
  }

  lemma DeniedExcludesQuorum(cast: seq<Ballot>, v: nat, quorum: nat)
    requires Denied(cast, v, quorum)
    ensures !QuorumBeforeNo(cast, v, quorum) && !NoDenial(cast, v)
  {
    var j: nat :| DeniedAt(cast, v, quorum, j);
    forall k: nat
      ensures !QuorumAt(cast, v, quorum, k)
    {
      if k <= j {
        YesGrows(cast, v, k, j);
      } else if k <= |cast| {
        assert cast[..k][j] == cast[j];
      }
    }
    assert cast[j] in cast;
  }

  lemma NoQuorumYet(cast: seq<Ballot>, v: nat, quorum: nat)
    requires |Yes(cast, v)| + 1 < quorum
    ensures !QuorumBeforeNo(cast, v, quorum)
  {
    forall k: nat
      ensures !QuorumAt(cast, v, quorum, k)
    {
      if k <= |cast| {
        YesGrows(cast, v, k, |cast|);
        assert cast[..|cast|] == cast;
      }
    }
  }

  lemma DeniedStays(cast: seq<Ballot>, b: Ballot, v: nat, quorum: nat)
    requires Denied(cast, v, quorum)
    ensures Denied(cast + [b], v, quorum)
  {
    var j: nat :| DeniedAt(cast, v, quorum, j);
    assert (cast + [b])[..j] == cast[..j];
    assert DeniedAt(cast + [b], v, quorum, j);
  }

  // ---------------------------------------------------------------------------
  // Every step keeps it

  /** Nothing about a future changes but its answer, and it does not lose one. */
  ghost predicate Answers(w: World, w': World, v: nat)
    requires v in w.futures
  {
    && v in w'.futures && w'.futures[v] == w.futures[v].(answer := w'.futures[v].answer)
    && (w.futures[v].answer != None ==> w'.futures[v].answer == w.futures[v].answer)
  }

  lemma ExactAfterAnswer(w: World, w': World, v: nat)
    requires v in w.futures && Exact(w, v) && Answers(w, w', v)
    requires w'.peers == w.peers && w'.sent == w.sent && w'.cast == w.cast
    requires w'.ballots == w.ballots && w'.waiting == w.waiting
    requires w'.futures[v].answer == None && w.futures[v].quorum > 1 ==> w'.leading && v in w'.tracked
    ensures Exact(w', v)
  {
    forall p | p in w.peers && w.futures[v].quorum > 1
      ensures HasWord(w', Voter(w'.futures[v].epoch, p), v)
    {
      assert HasWord(w, Voter(w.futures[v].epoch, p), v);
    }
  }

  lemma SubmitExact(w: World, v: nat)
    requires ExactInv(w) && v !in w.futures
    ensures ExactInv(Do(w, Submit(v)))
  {
    var w' := Do(w, Submit(v));
    forall x | x in w'.futures
      ensures Exact(w', x)
    {
      if x != v {
        ExactAfterAnswer(w, w', x);
      }
    }
  }

  lemma NotifyAllExact(w: World, r: Voter, yes: bool)
    requires ExactInv(w)
    ensures ExactInv(Do(w, NotifyAll(r, yes)))
  {
    var w' := Do(w, NotifyAll(r, yes));
    forall x | x in w'.futures
      ensures Exact(w', x)
    {
      assert Exact(w, x);
      forall p | p in w.peers && w.futures[x].quorum > 1
        ensures HasWord(w', Voter(w.futures[x].epoch, p), x)
      {
        assert HasWord(w, Voter(w.futures[x].epoch, p), x);
      }
    }
  }

  /** Ballots cast on a future, and on others. */
  lemma WordsAfterVote(w: World, b: Ballot, v: nat, p: Id)
    requires b in w.ballots && b.v in w.futures && v in w.futures && HasWord(w, Voter(w.futures[v].epoch, p), v)
    ensures HasWord(CastOne(w, b), Voter(w.futures[v].epoch, p), v)
  {
    var w', r := CastOne(w, b), Voter(w.futures[v].epoch, p);
    if HasCast(w.cast, r, v) {
      var i :| 0 <= i < |w.cast| && w.cast[i].voter == r && w.cast[i].v == v;
      assert w'.cast[i].voter == r && w'.cast[i].v == v;
    } else if b.voter == r && b.v == v {
      assert w'.cast[|w.cast|] == b;
    }
  }

  lemma VoteExact(w: World, b: Ballot, v: nat)
    requires Inv(w) && b in w.ballots && b.v in w.futures && v in w.futures && Exact(w, v)
    ensures Exact(CastOne(w, b), v)
  {
    var w', u := CastOne(w, b), w.futures[v];
    assert FutureOk(w, v);
    if u.quorum > 1 {
      forall p | p in w.peers
        ensures HasWord(w', Voter(u.epoch, p), v)
      {
        WordsAfterVote(w, b, v, p);
      }
      if Denied(w.cast, v, u.quorum) {
        DeniedStays(w.cast, b, v, u.quorum);
      }
      if v == b.v && u.armed && !b.yes {
        assert w'.cast[..|w.cast|] == w.cast;
        assert DeniedAt(w'.cast, v, u.quorum, |w.cast|);
      }
    }
  }

  lemma VoteKeepsChannel(w: World, b: Ballot)
    requires Inv(w) && ChannelOk(w) && b in w.ballots && b.v in w.futures
    ensures ChannelOk(CastOne(w, b))
  {
    assert Known(w, b.voter, b.v) && FutureOk(w, b.v);
    assert w.futures[b.v].armed ==> w.futures[b.v].quorum > 1;
  }

  /** A future that is taken was in the channel once, or has been shown. */
  lemma HeadTaken(w: World)
    requires ChannelOk(w) && w.channel != []
    ensures ChannelOk(w.(channel := w.channel[1..]))
    ensures w.futures[w.channel[0]].quorum == 0 ==> w.channel[0] !in w.channel[1..]
  {
    assert forall i | 0 <= i < |w.channel[1..]| :: w.channel[1..][i] == w.channel[i + 1];
  }

  lemma VerifyExactly(w: World, v: nat)
    requires ExactInv(w) && v in w.futures && w.futures[v].quorum == 0 && w.leading && v !in w.channel
    ensures ExactInv(Verify(w, v))
  {
    var w' := Verify(w, v);
    forall x | x in w'.futures
      ensures Exact(w', x)
    {
      assert Exact(w, x);
      if x != v {
        WordsStay(w, v, x);
      } else if QuorumSize(w) > 1 {
        AllAsked(w, v);
      }
    }
  }

  lemma WordsStay(w: World, v: nat, x: nat)
    requires v in w.futures && x in w.futures && x != v && Exact(w, x)
    ensures Exact(Verify(w, v), x)
  {
    forall p | p in w.peers && w.futures[x].quorum > 1
      ensures HasWord(Verify(w, v), Voter(w.futures[x].epoch, p), x)
    {
      assert HasWord(w, Voter(w.futures[x].epoch, p), x);
    }
  }

  /** Showing a future puts it on the list of every replicator of the leadership. */
  lemma AllAsked(w: World, v: nat)
    requires v in w.futures && QuorumSize(w) > 1
    ensures forall p | p in w.peers :: v in Waiting(Verify(w, v), Voter(w.epoch, p))
  {
  }

  lemma ReceivedExact(w: World, v: nat)
    requires ExactInv(w) && v in w.futures && (w.futures[v].quorum == 0 ==> v !in w.channel)
    ensures ExactInv(Received(w, v))
  {
    if w.leading && w.futures[v].quorum == 0 {
      VerifyExactly(w, v);
    } else {
      ReceivedAnswers(w, v);
      AnsweringExact(w, Received(w, v));
    }
  }

  lemma ReceivedAnswers(w: World, v: nat)
    requires v in w.futures && Exact(w, v) && !(w.leading && w.futures[v].quorum == 0)
    requires forall x | x in w.futures :: Exact(w, x)
    ensures OnlyAnswered(w, Received(w, v))
  {
    forall x | x in w.futures
      ensures Answers(w, Received(w, v), x)
      ensures Received(w, v).futures[x].answer == None && w.futures[x].quorum > 1 ==>
                Received(w, v).leading && x in Received(w, v).tracked
    {
      assert Exact(w, x);
    }
  }

  /** Answers are given, and what stays unanswered is tracked by a leader. */
  ghost predicate OnlyAnswered(w: World, w': World) {
    && w'.futures.Keys == w.futures.Keys && (forall v | v in w.futures :: Answers(w, w', v))
    && w'.peers == w.peers && w'.sent == w.sent && w'.cast == w.cast && w'.ballots == w.ballots
    && w'.waiting == w.waiting && w'.channel == w.channel
    && (forall v | v in w.futures && w'.futures[v].answer == None && w.futures[v].quorum > 1 ::
          w'.leading && v in w'.tracked)
  }

  lemma AnsweringExact(w: World, w': World)
    requires ExactInv(w) && OnlyAnswered(w, w')
    ensures ExactInv(w')
  {
    forall x | x in w'.futures
      ensures Exact(w', x)
    {
      ExactAfterAnswer(w, w', x);
    }
  }

  lemma LeadershipAnswers(w: World, s: Step)
    requires (forall x | x in w.futures :: Exact(w, x)) && Enabled(w, s) && (s.Win? || s.StepDown?)
    ensures OnlyAnswered(w, Do(w, s))
  {
    forall x | x in w.futures
      ensures Answers(w, Do(w, s), x)
      ensures Do(w, s).futures[x].answer == None && w.futures[x].quorum > 1 ==>
                Do(w, s).leading && x in Do(w, s).tracked
    {
      assert Exact(w, x);
    }
  }

  lemma StepExact(w: World, s: Step)
    requires Inv(w) && ExactInv(w) && Enabled(w, s)
    ensures ExactInv(Do(w, s))
  {
    match s {
      case Submit(v) => SubmitExact(w, v);
      case NotifyAll(r, yes) => NotifyAllExact(w, r, yes);
      case Vote(b) =>
        VoteKeepsChannel(w, b);
        forall v | v in w.futures
          ensures Exact(CastOne(w, b), v)
        {
          VoteExact(w, b, v);
        }
      case Take => TakeExact(w);
      case _ =>
        LeadershipAnswers(w, s);
        AnsweringExact(w, Do(w, s));
    }
  }

  lemma TakeExact(w: World)
    requires Inv(w) && ExactInv(w) && Enabled(w, Take)
    ensures ExactInv(Do(w, Take))
  {
    var w1 := w.(channel := w.channel[1..]);
    HeadTaken(w);
    AnswersKeep(w, w1);
    forall x | x in w1.futures
      ensures Exact(w1, x)
    {
      ExactAfterAnswer(w, w1, x);
    }
    ReceivedExact(w1, w.channel[0]);
  }

  // ---------------------------------------------------------------------------
  // Runs

  lemma {:induction false} RunExact(run: seq<World>, steps: seq<Step>, k: nat)
    requires IsRun(run, steps) && k < |run|
    ensures Inv(run[k]) && ExactInv(run[k])
  {
    RunHolds(run, steps, k);
    if k > 0 {
      RunExact(run, steps, k - 1);
      assert StepAt(run, steps, k - 1);
      StepExact(run[k - 1], steps[k - 1]);
    }
  }

  /** A replicator that hears from its follower gives that word on everything it was asked, and a word on
      its way is cast as it was given. */
  lemma WordIsGiven(run: seq<World>, steps: seq<Step>, k: nat)
    requires IsRun(run, steps) && k < |steps| && StepAt(run, steps, k)
    ensures var w, w' := run[k], run[k + 1];
            match steps[k] {
              case NotifyAll(r, yes) =>
                && Waiting(w', r) == [] && w'.cast == w.cast
                && forall v | v in Waiting(w, r) :: Ballot(r, v, yes) in w'.ballots
              case Vote(b) => w'.cast == w.cast + [b] && w'.ballots == w.ballots - {b}
              case Submit(v) => w'.channel == w.channel + [v] && v in w'.futures && w'.futures[v].answer == None
              case Win => w'.leading && w'.epoch != w.epoch && w'.channel == w.channel && w'.futures == w.futures
              case _ => w'.cast == w.cast && w'.ballots == w.ballots
            }
  {
  }

  /** The leader loop answers a future by its count. */
  lemma AnsweredByCount(w: World, v: nat)
    requires v in w.futures && w.leading && w.futures[v].quorum > 0 && w.futures[v].answer == None
    ensures var w', yes := Received(w, v), w.futures[v].votes >= w.futures[v].quorum;
            v in w'.futures && w'.futures[v].answer == Some(yes) && w'.leading == yes
  {
  }

  /** When the leader loop takes a future that has been shown and not answered, the answer is yes exactly
      if a quorum said yes before anyone said no; otherwise it is no and the node stops leading. */
  lemma TakenIsDecided(run: seq<World>, steps: seq<Step>, k: nat, v: nat)
    requires IsRun(run, steps) && k < |steps| && StepAt(run, steps, k) && steps[k] == Take && run[k].channel[0] == v
    requires run[k].leading && run[k].futures[v].quorum > 0 && run[k].futures[v].answer == None
    ensures v in run[k + 1].futures
    ensures var yes := QuorumBeforeNo(run[k].cast, v, Majority(|run[k].peers| + 1));
            run[k + 1].futures[v].answer == Some(yes) && run[k + 1].leading == yes
  {
    RunExact(run, steps, k);
    var w := run[k];
    assert FutureOk(w, v) && Exact(w, v) && !w.futures[v].armed;
    AnsweredByCount(w.(channel := w.channel[1..]), v);
    if w.futures[v].votes < w.futures[v].quorum {
      DeniedExcludesQuorum(w.cast, v, w.futures[v].quorum);
    }
  }

  /** A new future is shown to every replicator of the leadership, succeeds at once in a cluster of one,
      and is refused by a node that does not lead. */
  lemma TakenIsShown(run: seq<World>, steps: seq<Step>, k: nat, v: nat)
    requires IsRun(run, steps) && k < |steps| && StepAt(run, steps, k) && steps[k] == Take && run[k].channel[0] == v
    requires run[k].futures[v].quorum == 0 && run[k].futures[v].answer == None
    ensures v in run[k + 1].futures
    ensures var w := run[k + 1];
            if !run[k].leading then w.futures[v].answer == Some(false)
            else if w.peers == {} then w.futures[v].answer == Some(true)
            else w.futures[v].answer == None && forall p | p in w.peers :: v in Waiting(w, Voter(w.epoch, p))
  {
    if run[k].leading && run[k].peers != {} {
      AllAsked(run[k].(channel := run[k].channel[1..]), v);
    }
  }

  /** A future is notified exactly when it is decided: a quorum has said yes, or someone has said no. */
  lemma NotifiedWhenDecided(run: seq<World>, steps: seq<Step>, k: nat, v: nat)
    requires IsRun(run, steps) && k < |run| && v in run[k].futures && run[k].futures[v].quorum > 1
    ensures v in run[k].sent <==>
            QuorumBeforeNo(run[k].cast, v, Majority(|run[k].peers| + 1)) || !NoDenial(run[k].cast, v)
  {
    FutureAt(run, steps, k, v);
    DecidedWhenSent(run[k], v);
  }

  lemma FutureAt(run: seq<World>, steps: seq<Step>, k: nat, v: nat)
    requires IsRun(run, steps) && k < |run| && v in run[k].futures
    ensures FutureOk(run[k], v) && Exact(run[k], v) && (v in run[k].sent ==> !run[k].futures[v].armed)
  {
    RunExact(run, steps, k);
  }

  lemma DecidedWhenSent(w: World, v: nat)
    requires v in w.futures && FutureOk(w, v) && Exact(w, v) && w.futures[v].quorum > 1
    requires v in w.sent ==> !w.futures[v].armed
    ensures v in w.sent <==> QuorumBeforeNo(w.cast, v, QuorumSize(w)) || !NoDenial(w.cast, v)
  {
    if w.futures[v].armed {
      NoQuorumYet(w.cast, v, w.futures[v].quorum);
    } else if w.futures[v].votes < w.futures[v].quorum {
      DeniedExcludesQuorum(w.cast, v, w.futures[v].quorum);
    }
  }

  /** Every follower's word on a future that was shown is somewhere: on its list, on its way, or cast. */
  lemma EveryoneIsAsked(run: seq<World>, steps: seq<Step>, k: nat, v: nat, p: Id)
    requires IsRun(run, steps) && k < |run| && v in run[k].futures && run[k].futures[v].quorum > 1 && p in run[k].peers
    ensures HasWord(run[k], Voter(run[k].futures[v].epoch, p), v)
  {
    RunExact(run, steps, k);
    assert Exact(run[k], v);
  }

  /** A node that does not lead has answered every future that was shown. */
  lemma NoneLeftWaiting(run: seq<World>, steps: seq<Step>, k: nat, v: nat)
    requires IsRun(run, steps) && k < |run| && v in run[k].futures && run[k].futures[v].quorum > 0 && !run[k].leading
    ensures run[k].futures[v].answer != None
  {
    RunExact(run, steps, k);
    assert Exact(run[k], v);
  }
}
