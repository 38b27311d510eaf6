/**
  The leader's batch filter (internal/raft/raft.go, leaderLoop): peer changes are checked in the
  order a swap-remove loop meets them, each gathered future is answered with an error or kept for
  dispatch, and nothing gets past an accepted removal of the leader itself.
 */
module BatchFilter {
  import opened Basics
  import opened Node

  datatype Item = Item(id: nat, kind: LogType, peer: Id)

  datatype Error = ErrNotLeader | ErrKnownPeer | ErrUnknownPeer

  datatype Verdict = Keep | Answer(err: Error)

  /** The leader's membership, the peers it replicates to, and whether an accepted entry will make it
      step down. */
  datatype Members = Members(self: Id, peers: seq<Id>, replicating: set<Id>, stepDown: bool)

  predicate Known(m: Members, p: Id) {
    p in m.peers || p == m.self
  }

  predicate IsPeerChange(x: Item) {
    x.kind == LogAddPeer || x.kind == LogRemovePeer
  }

  /** preparePeerChange, and the check for a leader that is about to step down. */
  function Check(m: Members, x: Item): Verdict {
    if m.stepDown then Answer(ErrNotLeader)
    else if x.kind == LogAddPeer && Known(m, x.peer) then Answer(ErrKnownPeer)
    else if x.kind == LogRemovePeer && !Known(m, x.peer) then Answer(ErrUnknownPeer)
    else Keep
  }

  function Exclude(peers: seq<Id>, p: Id): seq<Id> {
    if peers == [] then []
    else
      var n := |peers| - 1;
      Exclude(peers[..n], p) + (if peers[n] == p then [] else [peers[n]])
  }

  /** The peer set that preparePeerChange writes into the entry. */
  function PeerSet(m: Members, x: Item): seq<Id> {
    if x.kind == LogAddPeer then [x.peer, m.self] + m.peers else Exclude([m.self] + m.peers, x.peer)
  }

  /** processLog of an accepted entry before its commit. */
  function Apply(m: Members, x: Item): Members {
    if !IsPeerChange(x) then m
    else if x.kind == LogRemovePeer && m.self !in PeerSet(m, x) then Replicating(m.(stepDown := true))
    else Replicating(m.(peers := Exclude(PeerSet(m, x), m.self)))
  }

  /** Replication is started to every peer that has none; it stops only after the commit. */
  function Replicating(m: Members): Members {
    m.(replicating := m.replicating + set p | p in m.peers)
  }

  function Next(m: Members, x: Item): Members {
    if Check(m, x) == Keep then Apply(m, x) else m
  }

  // ---------------------------------------------------------------------------
  // The loop, on values

  /** What the loop has looked at, in order, and the verdicts. */
  type Trace = seq<(Item, Verdict)>

  /** Dropping the front of the unexamined items moves the last one to the front. */
  function Refill(rest: seq<Item>): (r: seq<Item>)
    requires rest != []
    ensures |r| == |rest| - 1
  {
    if |rest| == 1 then [] else [rest[|rest| - 1]] + rest[1..|rest| - 1]
  }

  function Examine(m: Members, rest: seq<Item>): (t: Trace)
    ensures |t| == |rest|
    decreases |rest|
  {
    if rest == [] then []
    else
      var x := rest[0];
      [(x, Check(m, x))] + Examine(Next(m, x), if Check(m, x) == Keep then rest[1..] else Refill(rest))
  }

  function Items(t: Trace): seq<Item> {
    if t == [] then [] else [t[0].0] + Items(t[1..])
  }

  function Kept(t: Trace): seq<Item> {
    if t == [] then [] else (if t[0].1 == Keep then [t[0].0] else []) + Kept(t[1..])
  }

  function Answered(t: Trace): seq<(Item, Error)> {
    if t == [] then []
    else (match t[0].1 case Keep => [] case Answer(err) => [(t[0].0, err)]) + Answered(t[1..])
  }

  function Dropped(t: Trace): seq<Item> {
    if t == [] then [] else (if t[0].1 == Keep then [] else [t[0].0]) + Dropped(t[1..])
  }

  function Final(m: Members, t: Trace): Members
    decreases |t|
  {
    if t == [] then m else Final(if t[0].1 == Keep then Apply(m, t[0].0) else m, t[1..])
  }

  // ---------------------------------------------------------------------------
  // Properties

  lemma RefillSame(rest: seq<Item>)
    requires rest != []
    ensures multiset([rest[0]]) + multiset(Refill(rest)) == multiset(rest)
  {
    var n := |rest|;
    if n == 1 {
      assert rest == [rest[0]];
    } else {
      assert rest == [rest[0]] + rest[1..n - 1] + [rest[n - 1]];
    }
  }

  lemma ExamineStep(m: Members, rest: seq<Item>)
    requires rest != []
    ensures var x := rest[0];
            var t, t' := Examine(m, rest), Examine(Next(m, x), if Check(m, x) == Keep then rest[1..] else Refill(rest));
            && Items(t) == [x] + Items(t')
            && (if Check(m, x) == Keep then Kept(t) == [x] + Kept(t') else Kept(t) == Kept(t'))
            && Answered(t) == Answered([(x, Check(m, x))]) + Answered(t')
            && Final(m, t) == Final(Next(m, x), t')
  {
    var x := rest[0];
    var t' := Examine(Next(m, x), if Check(m, x) == Keep then rest[1..] else Refill(rest));
    assert Examine(m, rest)[1..] == t';
  }

  /** Every gathered future is examined exactly once. */
  lemma {:induction false} ExaminedOnce(m: Members, rest: seq<Item>)
    ensures multiset(Items(Examine(m, rest))) == multiset(rest)
    decreases |rest|
  {
    if rest != [] {
      var x := rest[0];
      ExamineStep(m, rest);
      RefillSame(rest);
      assert rest == [x] + rest[1..];
      ExaminedOnce(Next(m, x), if Check(m, x) == Keep then rest[1..] else Refill(rest));
    }
  }

  /** What was examined was kept or answered, never both and never neither. */
  lemma {:induction false} KeptOrAnswered(t: Trace)
    ensures multiset(Kept(t)) + multiset(Dropped(t)) == multiset(Items(t))
  {
    if t != [] {
      KeptOrAnswered(t[1..]);
    }
  }

  /** The dropped futures are the answered ones, each with one error. */
  lemma {:induction false} DroppedAreAnswered(t: Trace)
    ensures |Answered(t)| == |Dropped(t)| && forall i | 0 <= i < |Answered(t)| :: Answered(t)[i].0 == Dropped(t)[i]
  {
    if t != [] {
      var answered, dropped := Answered(t[1..]), Dropped(t[1..]);
      DroppedAreAnswered(t[1..]);
      if t[0].1 == Keep {
        assert Answered(t) == answered && Dropped(t) == dropped;
      } else {
        assert Answered(t) == [(t[0].0, t[0].1.err)] + answered && Dropped(t) == [t[0].0] + dropped;
      }
    }
  }

  /** Conservation: the kept and the answered futures are the gathered ones. */
  lemma BatchConservation(m: Members, rest: seq<Item>)
    ensures var t := Examine(m, rest);
            && multiset(Kept(t)) + multiset(Dropped(t)) == multiset(rest)
            && |Answered(t)| == |Dropped(t)| && forall i | 0 <= i < |Answered(t)| :: Answered(t)[i].0 == Dropped(t)[i]
  {
    ExaminedOnce(m, rest);
    KeptOrAnswered(Examine(m, rest));
    DroppedAreAnswered(Examine(m, rest));
  }

  /** Accepting this entry makes the leader step down. */
  predicate RemovesSelf(m: Members, x: Item) {
    x.kind == LogRemovePeer && x.peer == m.self
  }

  lemma {:induction false} ExcludeIs(peers: seq<Id>, p: Id)
    ensures p !in Exclude(peers, p)
    ensures forall q | q != p :: q in Exclude(peers, p) <==> q in peers
    ensures p !in peers ==> Exclude(peers, p) == peers
  {
    if peers != [] {
      var n := |peers| - 1;
      ExcludeIs(peers[..n], p);
      assert peers == peers[..n] + [peers[n]];
    }
  }

  /** The set of peers after an accepted change, and when it makes the leader step down. */
  lemma ApplyIs(m: Members, x: Item)
    requires m.self !in m.peers && Check(m, x) == Keep
    ensures Apply(m, x).self == m.self && Apply(m, x).self !in Apply(m, x).peers
    ensures Apply(m, x).stepDown <==> RemovesSelf(m, x)
    ensures forall q :: q in Apply(m, x).peers <==>
              if x.kind == LogAddPeer && q == x.peer then true
              else q in m.peers && !(x.kind == LogRemovePeer && q == x.peer)
    ensures m.replicating <= Apply(m, x).replicating
    ensures (forall q | q in m.peers :: q in m.replicating) ==>
              forall q | q in Apply(m, x).peers :: q in Apply(m, x).replicating
  {
    if IsPeerChange(x) {
      ExcludeIs([m.self] + m.peers, x.peer);
      ExcludeIs(PeerSet(m, x), m.self);
    }
  }

  lemma {:induction false} FinalNext(m: Members, t: Trace, x: (Item, Verdict))
    ensures Final(m, t + [x]) == if x.1 == Keep then Apply(Final(m, t), x.0) else Final(m, t)
    decreases |t|
  {
    if t != [] {
      FinalNext(if t[0].1 == Keep then Apply(m, t[0].0) else m, t[1..], x);
      assert (t + [x])[1..] == t[1..] + [x];
    }
  }

  /** Each future is checked against the membership that the accepted ones before it left. */
  lemma {:induction false} CheckedInTurn(m: Members, rest: seq<Item>, i: nat)
    requires i < |rest|
    ensures var t := Examine(m, rest); t[i].1 == Check(Final(m, t[..i]), t[i].0)
    decreases |rest|
  {
    if i > 0 {
      var x := rest[0];
      var next := if Check(m, x) == Keep then rest[1..] else Refill(rest);
      var t, t' := Examine(m, rest), Examine(Next(m, x), next);
      CheckedInTurn(Next(m, x), next, i - 1);
      assert t[i] == t'[i - 1] && t[..i][1..] == t'[..i - 1];
    }
  }

  /** A removal of the leader was accepted among the first `i` examined futures. */
  ghost predicate SelfRemoved(m: Members, t: Trace, i: nat)
    requires i <= |t|
  {
    exists k | 0 <= k < i :: RemovesSelf(m, t[k].0) && t[k].1 == Keep
  }

  /** Whether `p` is a member, by the last accepted change that names it. */
  predicate KnownBefore(m: Members, t: Trace, i: nat, p: Id)
    requires i <= |t|
  {
    if i == 0 then Known(m, p)
    else if t[i - 1].1 == Keep && IsPeerChange(t[i - 1].0) && t[i - 1].0.peer == p then t[i - 1].0.kind == LogAddPeer
    else KnownBefore(m, t, i - 1, p)
  }

  /** The membership after the first `i` examined futures. */
  lemma {:induction false} MembersAfter(m: Members, rest: seq<Item>, i: nat)
    requires m.self !in m.peers && !m.stepDown && i <= |rest|
    ensures var t := Examine(m, rest);
            var n := Final(m, t[..i]);
            && n.self == m.self && n.self !in n.peers && (n.stepDown <==> SelfRemoved(m, t, i))
            && (!n.stepDown ==> forall p :: Known(n, p) <==> KnownBefore(m, t, i, p))
  {
    if i > 0 {
      var t := Examine(m, rest);
      var x := t[i - 1];
      var n := Final(m, t[..i - 1]);
      MembersAfter(m, rest, i - 1);
      CheckedInTurn(m, rest, i - 1);
      FinalNext(m, t[..i - 1], x);
      assert t[..i] == t[..i - 1] + [x];
      MembersNext(m, t, i, n, Final(m, t[..i]));
    }
  }

  lemma MembersNext(m: Members, t: Trace, i: nat, n: Members, n': Members)
    requires 0 < i <= |t| && t[i - 1].1 == Check(n, t[i - 1].0)
    requires n.self == m.self && n.self !in n.peers && (n.stepDown <==> SelfRemoved(m, t, i - 1))
    requires !n.stepDown ==> forall p :: Known(n, p) <==> KnownBefore(m, t, i - 1, p)
    requires n' == Next(n, t[i - 1].0)
    ensures n'.self == m.self && n'.self !in n'.peers && (n'.stepDown <==> SelfRemoved(m, t, i))
    ensures !n'.stepDown ==> forall p :: Known(n', p) <==> KnownBefore(m, t, i, p)
  {
    var x := t[i - 1];
    assert SelfRemoved(m, t, i) <==> SelfRemoved(m, t, i - 1) || (RemovesSelf(m, x.0) && x.1 == Keep);
    if x.1 == Keep {
      ApplyIs(n, x.0);
      forall p | !n'.stepDown
        ensures Known(n', p) <==> KnownBefore(m, t, i, p)
      {
        assert Known(n, p) <==> KnownBefore(m, t, i - 1, p);
      }
    }
  }

  /** Which verdict each future gets: nothing is kept after an accepted removal of the leader; until
      then, adding a member and removing a stranger are refused and everything else is kept. */
  lemma VerdictIs(m: Members, rest: seq<Item>, i: nat)
    requires m.self !in m.peers && !m.stepDown && i < |rest|
    ensures var t := Examine(m, rest);
            var x, known := t[i].0, KnownBefore(m, t, i, t[i].0.peer);
            if SelfRemoved(m, t, i) then t[i].1 == Answer(ErrNotLeader)
            else if x.kind == LogAddPeer then t[i].1 == (if known then Answer(ErrKnownPeer) else Keep)
            else if x.kind == LogRemovePeer then t[i].1 == (if known then Keep else Answer(ErrUnknownPeer))
            else t[i].1 == Keep
  {
    MembersAfter(m, rest, i);
    CheckedInTurn(m, rest, i);
  }

  /** Nothing examined after an accepted removal of the leader is dispatched, and ErrNotLeader is the
      answer of exactly those futures. */
  lemma NothingPastSelfRemoval(m: Members, rest: seq<Item>, i: nat)
    requires m.self !in m.peers && !m.stepDown && i < |rest|
    ensures var t := Examine(m, rest);
            t[i].1 == Answer(ErrNotLeader) <==> exists k | 0 <= k < i :: RemovesSelf(m, t[k].0) && t[k].1 == Keep
  {
    VerdictIs(m, rest, i);
  }

  // ---------------------------------------------------------------------------
  // The loop, in place

  method ExcludePeer(peers: seq<Id>, p: Id) returns (others: seq<Id>)
    ensures others == Exclude(peers, p)
  {
    others := [];
    var k := 0;
    while k < |peers|
      invariant k <= |peers| && others == Exclude(peers[..k], p)
    {
      assert peers[..k + 1][..k] == peers[..k];
      if peers[k] != p {
        others := others + [peers[k]];
      }
      k := k + 1;
    }
    assert peers[..k] == peers;
  }

  method PeerContained(peers: seq<Id>, p: Id) returns (found: bool)
    ensures found == (p in peers)
  {
    var k := 0;
    while k < |peers|
      invariant k <= |peers| && p !in peers[..k]
    {
      if peers[k] == p {
        return true;
      }
      k := k + 1;
    }
    assert peers[..k] == peers;
    return false;
  }

  class Leader {
    const self: Id
    var peers: seq<Id>
    var replicating: set<Id>             // the keys of replState
    var stepDown: bool
    var answers: seq<(Item, Error)>

    ghost function Value(): Members
      reads this
    {
      Members(self, peers, replicating, stepDown)
    }

    /** preparePeerChange; the peer set is the entry's new data. */
    method PreparePeerChange(x: Item) returns (ok: bool, peerSet: seq<Id>)
      requires IsPeerChange(x) && !stepDown
      modifies this`answers
      ensures ok <==> Check(Value(), x) == Keep
      ensures ok ==> answers == old(answers) && peerSet == PeerSet(Value(), x)
      ensures !ok ==> answers == old(answers) + [(x, Check(Value(), x).err)]
    {
      var known := PeerContained(peers, x.peer);
      known := known || self == x.peer;
      peerSet := [];
      if x.kind == LogAddPeer && known {
        answers := answers + [(x, ErrKnownPeer)];
        return false, [];
      }
      if x.kind == LogRemovePeer && !known {
        answers := answers + [(x, ErrUnknownPeer)];
        return false, [];
      }
      if x.kind == LogAddPeer {
        peerSet := [x.peer, self] + peers;
      } else {
        peerSet := ExcludePeer([self] + peers, x.peer);
      }
      ok := true;
    }

    method StartReplication()
      modifies this`replicating
      ensures replicating == old(replicating) + set p | p in peers
    {
      var k := 0;
      while k < |peers|
        invariant k <= |peers| && replicating == old(replicating) + set p | p in peers[..k]
      {
        if peers[k] !in replicating {
          replicating := replicating + {peers[k]};
        }
        k := k + 1;
      }
      assert peers[..k] == peers;
    }

    /** processLog with precommit set. */
    method ProcessLog(x: Item, peerSet: seq<Id>)
      requires IsPeerChange(x) && peerSet == PeerSet(Value(), x)
      modifies this`peers, this`stepDown, this`replicating
      ensures Value() == Apply(old(Value()), x)
    {
      var contained := PeerContained(peerSet, self);
      if !contained && x.kind == LogRemovePeer {
        stepDown := true;
      } else {
        peers := ExcludePeer(peerSet, self);
      }
      StartReplication();
    }

    /** One item: its verdict, with the answer sent and the change applied. */
    method Decide(x: Item) returns (keep: bool)
      modifies this`peers, this`replicating, this`stepDown, this`answers
      ensures keep <==> Check(old(Value()), x) == Keep
      ensures Value() == Next(old(Value()), x)
      ensures answers == old(answers) + Answered([(x, Check(old(Value()), x))])
    {
      if stepDown {
        answers := answers + [(x, ErrNotLeader)];
        return false;
      }
      if x.kind != LogAddPeer && x.kind != LogRemovePeer {
        return true;
      }
      var ok, peerSet := PreparePeerChange(x);
      if ok {
        ProcessLog(x, peerSet);
      }
      return ok;
    }

    /** The swap-remove loop over the gathered items; the first `n` slots are what is dispatched. */
    method Filter(ready: array<Option<Item>>, ghost items: seq<Item>) returns (n: nat)
      requires ready.Length == |items| && Holds(ready, 0, items)
      modifies this`peers, this`replicating, this`stepDown, this`answers, ready
      ensures n == |Kept(Examine(old(Value()), items))| && Holds(ready, 0, Kept(Examine(old(Value()), items)))
      ensures answers == old(answers) + Answered(Examine(old(Value()), items))
      ensures Value() == Final(old(Value()), Examine(old(Value()), items))
    {
      ghost var t := Examine(Value(), items);
      n := ready.Length;
      var i: nat := 0;
      ghost var done, rest := [], items;
      while i < n
        invariant |done| == i && |rest| == n - i && n <= ready.Length
        invariant Holds(ready, 0, done) && Holds(ready, i, rest)
        invariant done + Kept(Examine(Value(), rest)) == Kept(t)
        invariant answers + Answered(Examine(Value(), rest)) == old(answers) + Answered(t)
        invariant Final(Value(), Examine(Value(), rest)) == Final(old(Value()), t)
        decreases n - i
      {
        var x := ready[i].value;
        Advance(Value(), rest, done, answers, Kept(t), old(answers) + Answered(t));
        var keep := Decide(x);
        if keep {
          HoldsOneMore(ready, done, i, rest);
          i := i + 1;
          done, rest := done + [x], rest[1..];
        } else {
          Drop(ready, i, n, done, rest);
          n := n - 1;
          rest := Refill(rest);
        }
      }
      assert rest == [] && Kept(t) == done;
    }
  }

  /** The items in consecutive slots. */
  ghost predicate Holds(ready: array<Option<Item>>, lo: nat, items: seq<Item>)
    reads ready
  {
    lo + |items| <= ready.Length && forall k | lo <= k < lo + |items| :: ready[k] == Some(items[k - lo])
  }

  lemma HoldsOneMore(ready: array<Option<Item>>, done: seq<Item>, i: nat, rest: seq<Item>)
    requires |done| == i && rest != [] && Holds(ready, 0, done) && Holds(ready, i, rest)
    ensures Holds(ready, 0, done + [rest[0]]) && Holds(ready, i + 1, rest[1..])
  {
  }

  /** The swap: the last unexamined item takes the place of the one dropped. */
  method Drop(ready: array<Option<Item>>, i: nat, n: nat, ghost done: seq<Item>, ghost rest: seq<Item>)
    requires |done| == i < n <= ready.Length && |rest| == n - i && Holds(ready, 0, done) && Holds(ready, i, rest)
    modifies ready
    ensures Holds(ready, 0, done) && Holds(ready, i, Refill(rest))
  {
    ready[i] := ready[n - 1];
    ready[n - 1] := None;
  }

  /** What is done and what is still to come always add up to the same. */
  lemma Advance(
      m: Members, rest: seq<Item>, done: seq<Item>, said: seq<(Item, Error)>, kept: seq<Item>,
      answers: seq<(Item, Error)>)
    requires rest != [] && done + Kept(Examine(m, rest)) == kept && said + Answered(Examine(m, rest)) == answers
    ensures var x := rest[0];
            var t' := Examine(Next(m, x), if Check(m, x) == Keep then rest[1..] else Refill(rest));
            && (if Check(m, x) == Keep then done + [x] else done) + Kept(t') == kept
            && said + Answered([(x, Check(m, x))]) + Answered(t') == answers
            && Final(m, Examine(m, rest)) == Final(Next(m, x), t')
  {
    var x := rest[0];
    var t' := Examine(Next(m, x), if Check(m, x) == Keep then rest[1..] else Refill(rest));
    ExamineStep(m, rest);
    Regroup(done, [x], Kept(t'));
    Regroup(said, Answered([(x, Check(m, x))]), Answered(t'));
  }
}
