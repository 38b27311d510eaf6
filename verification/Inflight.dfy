/**
  The leader's commit tracker (internal/raft/inflight.go).

  `Tracker` is the value of the tracker; `Ledger` is an independent account of
  the same run, which only counts votes per started entry.  InflightLog.dfy
  performs the same operations in place, with the NOTIFY loop of the source.
 */
module Inflight {
  import opened Basics

  datatype Op<F> = Op(future: F, count: nat, need: nat) {
    /** majorityQuorum.IsCommitted */
    predicate IsCommitted() {
      count >= need
    }
  }

  datatype Tracker<F> = Tracker(ops: map<nat, Op<F>>, minCommit: nat, maxCommit: nat, committed: seq<F>)

  function Empty<F>(): Tracker<F> {
    Tracker(map[], 0, 0, [])
  }

  /** Tracked operations fill exactly minCommit..maxCommit; both are 0 when nothing is tracked. */
  ghost predicate Valid<F>(t: Tracker<F>) {
    && (t.minCommit == 0 ==> t.maxCommit == 0 && t.ops == map[])
    && (t.minCommit > 0 ==>
          && t.minCommit <= t.maxCommit
          && forall i :: i in t.ops <==> t.minCommit <= i <= t.maxCommit)
  }

  /** Moves the first tracked operation to the committed list. */
  function Pop<F>(t: Tracker<F>): (r: Tracker<F>)
    requires Valid(t) && t.minCommit > 0
    ensures Valid(r)
  {
    var last := t.minCommit == t.maxCommit;
    assert last ==> t.ops - {t.minCommit} == map[];
    Tracker(t.ops - {t.minCommit},
            if last then 0 else t.minCommit + 1,
            if last then 0 else t.maxCommit,
            t.committed + [t.ops[t.minCommit].future])
  }

  /** The NOTIFY loop: pop the first operation, and go on while the next one has its own quorum. */
  function Notify<F>(t: Tracker<F>): (r: Tracker<F>)
    requires Valid(t) && t.minCommit > 0
    ensures Valid(r)
    decreases t.maxCommit - t.minCommit
  {
    var p := Pop(t);
    if p.minCommit != 0 && p.ops[p.minCommit].IsCommitted() then Notify(p) else p
  }

  /** A count for the operation at `index`, before the committed list is looked at. */
  function AddVote<F>(t: Tracker<F>, index: nat): (r: Tracker<F>)
    requires Valid(t) && index in t.ops
    ensures Valid(r)
  {
    t.(ops := t.ops[index := t.ops[index].(count := t.ops[index].count + 1)])
  }

  function Commit<F>(t: Tracker<F>, index: nat): (r: Tracker<F>)
    requires Valid(t)
    ensures Valid(r)
  {
    if index !in t.ops then t
    else
      var v := AddVote(t, index);
      if !v.ops[index].IsCommitted() || index != v.minCommit then v else Notify(v)
  }

  /** Commits lo..hi in ascending order. */
  function CommitEach<F>(t: Tracker<F>, lo: nat, hi: nat): (r: Tracker<F>)
    requires Valid(t)
    ensures Valid(r)
    decreases hi + 1 - lo
  {
    if lo > hi then t else CommitEach(Commit(t, lo), lo + 1, hi)
  }

  /** CommitRange skips the indexes below minCommit. */
  function CommitRange<F>(t: Tracker<F>, lo: nat, hi: nat): (r: Tracker<F>)
    requires Valid(t)
    ensures Valid(r)
  {
    CommitEach(t, if t.minCommit >= lo then t.minCommit else lo, hi)
  }

  /** What dispatchLogs guarantees of the index it starts: positive, and the next one. */
  predicate CanStart<F>(t: Tracker<F>, index: nat) {
    index > 0 && (t.minCommit > 0 ==> index == t.maxCommit + 1)
  }

  function Track<F>(t: Tracker<F>, index: nat, future: F, need: nat): (r: Tracker<F>)
    requires Valid(t) && CanStart(t, index)
    ensures Valid(r) && index in r.ops && r.maxCommit == index
  {
    Tracker(t.ops[index := Op(future, 0, need)],
            if t.minCommit == 0 then index else t.minCommit,
            if index > t.maxCommit then index else t.maxCommit,
            t.committed)
  }

  function Start<F>(t: Tracker<F>, index: nat, future: F, need: nat): (r: Tracker<F>)
    requires Valid(t) && CanStart(t, index)
    ensures Valid(r)
  {
    Commit(Track(t, index, future, need), index)
  }

  // ---------------------------------------------------------------------------
  // What one commit does, counted per index

  function InRange(i: nat, lo: nat, hi: nat): nat {
    if lo <= i <= hi then 1 else 0
  }

  /** A tracked entry that has its quorum once the votes of lo..hi are in. */
  ghost predicate Earned<F>(t: Tracker<F>, future: F, lo: nat, hi: nat) {
    exists i: nat :: i in t.ops && t.ops[i].future == future && t.ops[i].need <= t.ops[i].count + InRange(i, lo, hi)
  }

  /** `r` follows from `t` by giving every index of lo..hi one vote: nothing tracked is lost, and
      every newly committed entry has its quorum. */
  ghost predicate Counts<F>(t: Tracker<F>, r: Tracker<F>, lo: nat, hi: nat) {
    && (forall i | i in r.ops :: i in t.ops && r.ops[i] == t.ops[i].(count := t.ops[i].count + InRange(i, lo, hi)))
    && t.committed <= r.committed
    && (forall k | |t.committed| <= k < |r.committed| ::
          Earned(t, r.committed[k], lo, hi))
  }

  lemma {:induction false} NotifyCounts<F>(t: Tracker<F>)
    requires Valid(t) && t.minCommit > 0 && t.ops[t.minCommit].IsCommitted()
    ensures Counts(t, Notify(t), 1, 0)
    decreases t.maxCommit - t.minCommit
  {
    var p := Pop(t);
    PopCounts(t);
    if p.minCommit != 0 && p.ops[p.minCommit].IsCommitted() {
      NotifyCounts(p);
      PopThenCounts(t, Notify(p));
    }
  }

  lemma PopCounts<F>(t: Tracker<F>)
    requires Valid(t) && t.minCommit > 0 && t.ops[t.minCommit].IsCommitted()
    ensures Counts(t, Pop(t), 1, 0)
  {
    assert Earned(t, t.ops[t.minCommit].future, 1, 0);
  }

  lemma PopThenCounts<F>(t: Tracker<F>, r: Tracker<F>)
    requires Valid(t) && t.minCommit > 0 && Counts(t, Pop(t), 1, 0) && Counts(Pop(t), r, 1, 0)
    ensures Counts(t, r, 1, 0)
  {
    var p := Pop(t);
    forall k | |t.committed| <= k < |r.committed|
      ensures Earned(t, r.committed[k], 1, 0)
    {
      if k < |p.committed| {
        assert r.committed[k] == p.committed[k];
      } else {
        assert Earned(p, r.committed[k], 1, 0);
      }
    }
  }

  lemma VoteThenNotify<F>(t: Tracker<F>, v: Tracker<F>, r: Tracker<F>, index: nat)
    requires Valid(t) && index in t.ops && v == AddVote(t, index) && Counts(v, r, 1, 0)
    ensures Counts(t, r, index, index)
  {
    forall k | |t.committed| <= k < |r.committed|
      ensures Earned(t, r.committed[k], index, index)
    {
      assert Earned(v, r.committed[k], 1, 0);
    }
  }

  lemma {:induction false} CommitCounts<F>(t: Tracker<F>, index: nat)
    requires Valid(t)
    ensures Counts(t, Commit(t, index), index, index)
  {
    if index in t.ops {
      var v := AddVote(t, index);
      if v.ops[index].IsCommitted() && index == v.minCommit {
        NotifyCounts(v);
        VoteThenNotify(t, v, Notify(v), index);
      }
    }
  }

  lemma {:induction false} CommitEachCounts<F>(t: Tracker<F>, lo: nat, hi: nat)
    requires Valid(t)
    ensures Counts(t, CommitEach(t, lo, hi), lo, hi)
    decreases hi + 1 - lo
  {
    if lo <= hi {
      CommitCounts(t, lo);
      CommitEachCounts(Commit(t, lo), lo + 1, hi);
      CountsCompose(t, Commit(t, lo), CommitEach(t, lo, hi), lo, hi);
    }
  }

  /** One vote for `lo`, then one for each of the rest. */
  lemma CountsCompose<F>(t: Tracker<F>, m: Tracker<F>, r: Tracker<F>, lo: nat, hi: nat)
    requires lo <= hi && Counts(t, m, lo, lo) && Counts(m, r, lo + 1, hi)
    ensures Counts(t, r, lo, hi)
  {
    forall k | |t.committed| <= k < |r.committed|
      ensures Earned(t, r.committed[k], lo, hi)
    {
      if k < |m.committed| {
        assert r.committed[k] == m.committed[k];
        EarnedWider(t, m.committed[k], lo, hi);
      } else {
        EarnedEarlier(t, m, r.committed[k], lo, hi);
      }
    }
  }

  lemma EarnedWider<F>(t: Tracker<F>, future: F, lo: nat, hi: nat)
    requires lo <= hi && Earned(t, future, lo, lo)
    ensures Earned(t, future, lo, hi)
  {
    var i: nat :| i in t.ops && t.ops[i].future == future && t.ops[i].need <= t.ops[i].count + InRange(i, lo, lo);
  }

  lemma EarnedEarlier<F>(t: Tracker<F>, m: Tracker<F>, future: F, lo: nat, hi: nat)
    requires lo <= hi && Counts(t, m, lo, lo) && Earned(m, future, lo + 1, hi)
    ensures Earned(t, future, lo, hi)
  {
    var i: nat :| i in m.ops && m.ops[i].future == future && m.ops[i].need <= m.ops[i].count + InRange(i, lo + 1, hi);
    assert i in t.ops;
  }

  /** Clipping the range at minCommit changes nothing: CommitRange commits every index asked for. */
  lemma {:induction false} CommitRangeIsCommitEach<F>(t: Tracker<F>, lo: nat, hi: nat)
    requires Valid(t)
    ensures CommitRange(t, lo, hi) == CommitEach(t, lo, hi)
    decreases hi + 1 - lo
  {
    if lo <= hi && lo < t.minCommit {
      assert lo !in t.ops;
      CommitRangeIsCommitEach(t, lo + 1, hi);
    }
  }

  // ---------------------------------------------------------------------------
  // Refinement: the tracker hands out the longest prefix that has its quorums

  /** An account of a run: the entries started, the votes each received (the leader's own
      included), the quorum each needs, and how many entries were handed out. */
  datatype Ledger<F> = Ledger(base: nat, futures: seq<F>, votes: seq<nat>, needs: seq<nat>, taken: nat)

  ghost predicate LedgerOk<F>(s: Ledger<F>) {
    s.base > 0 && |s.futures| == |s.votes| == |s.needs|
  }

  /** The first `k` entries all have their own quorum, and the next one, if any, has not. */
  ghost predicate IsLongestReady<F>(s: Ledger<F>, k: nat) {
    && LedgerOk(s)
    && k <= |s.futures|
    && (forall i | 0 <= i < k :: s.votes[i] >= s.needs[i])
    && (k < |s.futures| ==> s.votes[k] < s.needs[k])
  }

  /** The tracker when the first `m` entries have left it. */
  ghost predicate Tracks<F>(t: Tracker<F>, s: Ledger<F>, m: nat) {
    && LedgerOk(s)
    && s.taken <= m <= |s.futures|
    && |t.committed| == m - s.taken
    && (forall k | 0 <= k < |t.committed| :: t.committed[k] == s.futures[s.taken + k])
    && (m == |s.futures| ==> t.minCommit == 0)
    && (m < |s.futures| ==> t.minCommit == s.base + m && t.maxCommit == s.base + |s.futures| - 1)
    && Valid(t)
    && (forall i | i in t.ops :: s.base <= i < s.base + |s.futures|)
    && (forall i | i in t.ops :: t.ops[i] == OpOf(s, i))
  }

  /** The operation the ledger holds at `index`. */
  ghost function OpOf<F>(s: Ledger<F>, index: nat): Op<F>
    requires LedgerOk(s) && s.base <= index < s.base + |s.futures|
  {
    Op(s.futures[index - s.base], s.votes[index - s.base], s.needs[index - s.base])
  }

  ghost predicate RefinesAt<F>(t: Tracker<F>, s: Ledger<F>, m: nat) {
    Tracks(t, s, m) && IsLongestReady(s, m)
  }

  /** What has left the tracker is the longest prefix of entries that all have their own quorum. */
  ghost predicate Refines<F>(t: Tracker<F>, s: Ledger<F>) {
    Valid(t) && LedgerOk(s) && exists m: nat :: RefinesAt(t, s, m)
  }

  lemma {:induction false} NotifyDrains<F>(t: Tracker<F>, s: Ledger<F>, m: nat)
    requires Tracks(t, s, m) && m < |s.futures|
    requires forall i | 0 <= i <= m :: s.votes[i] >= s.needs[i]
    ensures Refines(Notify(t), s)
    decreases |s.futures| - m
  {
    var p := Pop(t);
    assert Tracks(p, s, m + 1);
    if m + 1 < |s.futures| && s.votes[m + 1] >= s.needs[m + 1] {
      NotifyDrains(p, s, m + 1);
    } else {
      assert RefinesAt(p, s, m + 1);
    }
  }

  /** One more vote for the entry at `index`; votes for anything never started are not recorded. */
  function LedgerCommit<F>(s: Ledger<F>, index: nat): Ledger<F>
    requires |s.futures| == |s.votes|
  {
    if s.base <= index < s.base + |s.votes|
    then s.(votes := s.votes[index - s.base := s.votes[index - s.base] + 1])
    else s
  }

  lemma {:induction false} AddVoteTracks<F>(t: Tracker<F>, s: Ledger<F>, m: nat, index: nat)
    requires Tracks(t, s, m) && index in t.ops
    ensures Tracks(AddVote(t, index), LedgerCommit(s, index), m)
  {
    var v, s' := AddVote(t, index), LedgerCommit(s, index);
    forall i | i in v.ops
      ensures v.ops[i] == OpOf(s', i)
    {
      assert t.ops[i] == OpOf(s, i);
    }
  }

  /** The first `m` entries have their quorums, and entry `m` lacks its own or is about to be counted. */
  ghost predicate Frontier<F>(s: Ledger<F>, m: nat, index: nat) {
    && LedgerOk(s) && m <= |s.futures|
    && (forall i | 0 <= i < m :: s.votes[i] >= s.needs[i])
    && (m < |s.futures| && s.votes[m] >= s.needs[m] ==> index == s.base + m)
  }

  lemma {:induction false} CommitRefines<F>(t: Tracker<F>, s: Ledger<F>, m: nat, index: nat)
    requires Tracks(t, s, m) && Frontier(s, m, index)
    ensures Refines(Commit(t, index), LedgerCommit(s, index))
  {
    if index in t.ops {
      AddVoteTracks(t, s, m, index);
      CountedRefines(AddVote(t, index), LedgerCommit(s, index), m, index);
    } else {
      IgnoredTracks(t, s, m, index);
      assert RefinesAt(t, LedgerCommit(s, index), m);
    }
  }

  /** The second half of a commit, after the vote is in. */
  lemma {:induction false} CountedRefines<F>(v: Tracker<F>, s: Ledger<F>, m: nat, index: nat)
    requires Tracks(v, s, m) && index in v.ops && (forall i | 0 <= i < m :: s.votes[i] >= s.needs[i])
    requires m < |s.futures| && s.votes[m] >= s.needs[m] ==> index == s.base + m
    ensures Refines(if !v.ops[index].IsCommitted() || index != v.minCommit then v else Notify(v), s)
  {
    if v.ops[index].IsCommitted() && index == v.minCommit {
      NotifyDrains(v, s, m);
    } else {
      assert RefinesAt(v, s, m);
    }
  }

  /** A vote for an entry that left the tracker, or was never started, changes nothing in it. */
  lemma IgnoredTracks<F>(t: Tracker<F>, s: Ledger<F>, m: nat, index: nat)
    requires Tracks(t, s, m) && index !in t.ops
    ensures index < s.base + m || index >= s.base + |s.futures|
    ensures Tracks(t, LedgerCommit(s, index), m)
  {
  }

  /** A new entry before its first vote. */
  function LedgerTrack<F>(s: Ledger<F>, future: F, need: nat): Ledger<F> {
    s.(futures := s.futures + [future], votes := s.votes + [0], needs := s.needs + [need])
  }

  /** A new entry, started with the leader's own vote. */
  function LedgerStart<F>(s: Ledger<F>, future: F, need: nat): Ledger<F>
    requires |s.futures| == |s.votes|
  {
    LedgerCommit(LedgerTrack(s, future, need), s.base + |s.futures|)
  }

  lemma {:induction false} FirstVote<F>(s: Ledger<F>, future: F, need: nat)
    requires LedgerOk(s)
    ensures LedgerStart(s, future, need)
         == s.(futures := s.futures + [future], votes := s.votes + [1], needs := s.needs + [need])
  {
    assert (s.votes + [0])[|s.votes| := 1] == s.votes + [1];
  }

  /** Tracking a new entry before its first vote. */
  lemma {:induction false} TrackRefines<F>(t: Tracker<F>, s: Ledger<F>, m: nat, future: F, need: nat)
    requires Tracks(t, s, m) && IsLongestReady(s, m)
    ensures CanStart(t, s.base + |s.futures|)
    ensures TracksFrontier(Track(t, s.base + |s.futures|, future, need), LedgerTrack(s, future, need),
                           m, s.base + |s.futures|)
  {
    TrackFrontier(s, m, future, need);
  }

  lemma TrackFrontier<F>(s: Ledger<F>, m: nat, future: F, need: nat)
    requires IsLongestReady(s, m)
    ensures Frontier(LedgerTrack(s, future, need), m, s.base + |s.futures|)
  {
  }

  lemma NextCanStart<F>(t: Tracker<F>, s: Ledger<F>)
    requires Refines(t, s)
    ensures CanStart(t, s.base + |s.futures|)
  {
    var m: nat :| RefinesAt(t, s, m);
  }

  lemma {:induction false} StartRefines<F>(t: Tracker<F>, s: Ledger<F>, future: F, need: nat)
    requires Refines(t, s) && CanStart(t, s.base + |s.futures|)
    ensures Refines(Start(t, s.base + |s.futures|, future, need), LedgerStart(s, future, need))
  {
    var m: nat :| RefinesAt(t, s, m);
    TrackRefines(t, s, m, future, need);
    CommitTracked(Track(t, s.base + |s.futures|, future, need), LedgerTrack(s, future, need), m, s.base + |s.futures|);
  }

  lemma {:induction false} CommitTracked<F>(t: Tracker<F>, s: Ledger<F>, m: nat, index: nat)
    requires TracksFrontier(t, s, m, index)
    ensures Refines(Commit(t, index), LedgerCommit(s, index))
  {
    CommitRefines(t, s, m, index);
  }

  ghost predicate TracksFrontier<F>(t: Tracker<F>, s: Ledger<F>, m: nat, index: nat) {
    Tracks(t, s, m) && Frontier(s, m, index)
  }

  datatype Event<F> =
    | EStart(future: F, need: nat)
    | EStartAll(batch: seq<(F, nat)>)
    | ECommit(index: nat)
    | ECommitRange(lo: nat, hi: nat)
    | ETake

  /** What a run started, in order, computed from the events alone. */
  function Started<F>(events: seq<Event<F>>): seq<F> {
    if events == [] then [] else Started(events[..|events| - 1]) + StartedBy(events[|events| - 1])
  }

  function StartedBy<F>(e: Event<F>): seq<F> {
    match e
    case EStart(future, _) => [future]
    case EStartAll(batch) => Futures(batch)
    case _ => []
  }

  function Futures<F>(batch: seq<(F, nat)>): seq<F> {
    if batch == [] then [] else [batch[0].0] + Futures(batch[1..])
  }

  /** A run's state: the tracker, what `Committed` handed out so far, and the ledger. */
  datatype Account<F> = Account(tracker: Tracker<F>, handed: seq<F>, ledger: Ledger<F>)

  ghost predicate Agrees<F>(a: Account<F>) {
    && Refines(a.tracker, a.ledger)
    && a.ledger.taken <= |a.ledger.futures|
    && a.handed == a.ledger.futures[..a.ledger.taken]
  }

  ghost function LedgerCommitEach<F>(s: Ledger<F>, lo: nat, hi: nat): (r: Ledger<F>)
    requires |s.futures| == |s.votes|
    ensures |r.futures| == |r.votes| && r.base == s.base && r.futures == s.futures && r.taken == s.taken
    decreases hi + 1 - lo
  {
    if lo > hi then s else LedgerCommitEach(LedgerCommit(s, lo), lo + 1, hi)
  }

  lemma HandedStays<F>(s: Ledger<F>, future: F, need: nat)
    requires LedgerOk(s) && s.taken <= |s.futures|
    ensures var r := LedgerStart(s, future, need);
            && r.base == s.base && r.taken == s.taken && r.futures == s.futures + [future]
            && r.futures[..r.taken] == s.futures[..s.taken]
  {
    FirstVote(s, future, need);
  }

  ghost function StartOne<F>(a: Account<F>, future: F, need: nat): (r: Account<F>)
    requires Agrees(a)
    ensures Agrees(r) && r.ledger == LedgerStart(a.ledger, future, need)
  {
    NextCanStart(a.tracker, a.ledger);
    StartRefines(a.tracker, a.ledger, future, need);
    HandedStays(a.ledger, future, need);
    Account(Start(a.tracker, a.ledger.base + |a.ledger.futures|, future, need), a.handed,
            LedgerStart(a.ledger, future, need))
  }

  ghost function StartAll<F>(a: Account<F>, batch: seq<(F, nat)>): (r: Account<F>)
    requires Agrees(a)
    ensures Agrees(r) && r.ledger.base == a.ledger.base && r.ledger.futures == a.ledger.futures + Futures(batch)
    decreases |batch|
  {
    if batch == [] then a
    else
      Regroup(a.ledger.futures, [batch[0].0], Futures(batch[1..]));
      StartAll(StartOne(a, batch[0].0, batch[0].1), batch[1..])
  }

  lemma {:induction false} CommitEachRefines<F>(t: Tracker<F>, s: Ledger<F>, lo: nat, hi: nat)
    requires Refines(t, s)
    ensures Refines(CommitEach(t, lo, hi), LedgerCommitEach(s, lo, hi))
    decreases hi + 1 - lo
  {
    if lo <= hi {
      CommitOneRefines(t, s, lo);
      CommitEachRefines(Commit(t, lo), LedgerCommit(s, lo), lo + 1, hi);
    }
  }

  lemma {:induction false} CommitOneRefines<F>(t: Tracker<F>, s: Ledger<F>, index: nat)
    requires Refines(t, s)
    ensures Refines(Commit(t, index), LedgerCommit(s, index))
  {
    var m: nat :| RefinesAt(t, s, m);
    CommitRefines(t, s, m, index);
  }

  ghost function Handle<F>(a: Account<F>, e: Event<F>): (r: Account<F>)
    requires Agrees(a)
    ensures Agrees(r) && r.ledger.base == a.ledger.base && r.ledger.futures == a.ledger.futures + StartedBy(e)
  {
    match e
    case EStart(future, need) => StartOne(a, future, need)
    case EStartAll(batch) => StartAll(a, batch)
    case ECommit(index) =>
      CommitOneRefines(a.tracker, a.ledger, index);
      Account(Commit(a.tracker, index), a.handed, LedgerCommit(a.ledger, index))
    case ECommitRange(lo, hi) => CommitAll(a, lo, hi)
    case ETake => TakeAll(a)
  }

  ghost function CommitAll<F>(a: Account<F>, lo: nat, hi: nat): (r: Account<F>)
    requires Agrees(a)
    ensures Agrees(r) && r.ledger.base == a.ledger.base && r.ledger.futures == a.ledger.futures
  {
    CommitRangeIsCommitEach(a.tracker, lo, hi);
    CommitEachRefines(a.tracker, a.ledger, lo, hi);
    Account(CommitRange(a.tracker, lo, hi), a.handed, LedgerCommitEach(a.ledger, lo, hi))
  }

  ghost function TakeAll<F>(a: Account<F>): (r: Account<F>)
    requires Agrees(a)
    ensures Agrees(r) && r.ledger.base == a.ledger.base && r.ledger.futures == a.ledger.futures
  {
    TakeRefines(a.tracker, a.ledger);
    Account(a.tracker.(committed := []), a.handed + a.tracker.committed,
            a.ledger.(taken := a.ledger.taken + |a.tracker.committed|))
  }

  lemma {:induction false} TakeRefines<F>(t: Tracker<F>, s: Ledger<F>)
    requires Refines(t, s)
    ensures Refines(t.(committed := []), s.(taken := s.taken + |t.committed|))
    ensures s.taken + |t.committed| <= |s.futures|
    ensures s.futures[..s.taken] + t.committed == s.futures[..s.taken + |t.committed|]
  {
    var m: nat :| RefinesAt(t, s, m);
    assert RefinesAt(t.(committed := []), s.(taken := m), m);
  }

  /** A run from a fresh tracker, the first index started being `base`. */
  ghost function Run<F>(base: nat, events: seq<Event<F>>): (a: Account<F>)
    requires base > 0
    ensures Agrees(a) && a.ledger.base == base && a.ledger.futures == Started(events)
  {
    if events == [] then
      var s := Ledger(base, [], [], [], 0);
      assert RefinesAt(Empty(), s, 0);
      Account(Empty(), [], s)
    else Handle(Run(base, events[..|events| - 1]), events[|events| - 1])
  }

  /** Over any run, the entries handed out plus those queued are, in index order, the longest
      prefix of the started entries that all have their own quorum; the other started entries
      are exactly the tracked ones, at consecutive indexes. */
  lemma {:induction false} InflightRefinement<F>(base: nat, events: seq<Event<F>>, a: Account<F>) returns (ready: nat)
    requires base > 0 && a == Run(base, events)
    ensures a.ledger.base == base && a.ledger.futures == Started(events) && IsLongestReady(a.ledger, ready)
    ensures a.handed + a.tracker.committed == a.ledger.futures[..ready]
    ensures forall i :: i in a.tracker.ops <==> base + ready <= i < base + |a.ledger.futures|
    ensures forall i | i in a.tracker.ops :: a.tracker.ops[i] == OpOf(a.ledger, i)
  {
    ready := ReadyOf(a);
  }

  lemma {:induction false} ReadyOf<F>(a: Account<F>) returns (ready: nat)
    requires Agrees(a)
    ensures IsLongestReady(a.ledger, ready)
    ensures a.handed + a.tracker.committed == a.ledger.futures[..ready]
    ensures forall i :: i in a.tracker.ops <==> a.ledger.base + ready <= i < a.ledger.base + |a.ledger.futures|
    ensures forall i | i in a.tracker.ops :: a.tracker.ops[i] == OpOf(a.ledger, i)
  {
    var s := a.ledger;
    ready :| RefinesAt(a.tracker, s, ready);
    assert a.tracker.committed == s.futures[s.taken..ready];
  }

  /** The tracked futures, in index order. */
  ghost function Tracked<F>(t: Tracker<F>): seq<F>
    requires Valid(t)
  {
    if t.minCommit == 0 then []
    else seq(t.maxCommit + 1 - t.minCommit, k requires 0 <= k < t.maxCommit + 1 - t.minCommit =>
          t.ops[t.minCommit + k].future)
  }

  lemma TrackedIsRest<F>(t: Tracker<F>, s: Ledger<F>, m: nat)
    requires Tracks(t, s, m)
    ensures Tracked(t) == s.futures[m..]
  {
  }

  lemma NothingLost<F>(a: Account<F>)
    requires Agrees(a)
    ensures a.handed + a.tracker.committed + Tracked(a.tracker) == a.ledger.futures
  {
    var s := a.ledger;
    var m: nat :| RefinesAt(a.tracker, s, m);
    TrackedIsRest(a.tracker, s, m);
    assert a.tracker.committed == s.futures[s.taken..m];
    assert s.futures[..s.taken] + s.futures[s.taken..m] + s.futures[m..] == s.futures;
  }

  /** Conservation: over any run, the futures handed out, then those queued, then those tracked are
      exactly the started ones, each once and in the order they were started. */
  lemma {:induction false} InflightConservation<F>(base: nat, events: seq<Event<F>>)
    requires base > 0
    ensures var a := Run(base, events);
            Valid(a.tracker) && a.handed + a.tracker.committed + Tracked(a.tracker) == Started(events)
  {
    NothingLost(Run(base, events));
  }
}
