/**
  Where the assumptions of the lock-step theorems are needed: what the code does with a request that
  arrives late, and with a vote whose two writes were separated by a crash.
 */
module Boundaries {
  import opened Basics
  import opened Node
  import opened LogMatching
  import opened Replication

  // ---------------------------------------------------------------------------
  // Late requests

  /** The request carries a stretch of the leader's log, and the logs agree before it. */
  ghost predicate FromLeader(s: State, req: AppendReq, log: Log) {
    Accepts(s, req) && End(req) <= |log| && req.entries == log[req.prev..End(req)] && Agree(s.log, log, req.prev)
  }

  /** A follower keeps what it shares with the leader exactly when the request reaches at least as far:
      everything after the last entry of a request is cleared, matching or not. */
  lemma LateRequestTruncates(s: State, req: AppendReq, log: Log, shared: nat)
    requires FromLeader(s, req, log) && Agree(s.log, log, shared)
    ensures Agree(AppendEntries(s, req).log, log, shared) <==> req.entries == [] || shared <= End(req)
    ensures req.entries != [] ==> AppendEntries(s, req).log == log[..End(req)]
  {
    if req.entries != [] {
      assert s.log[..req.prev] + req.entries == log[..End(req)];
    }
  }

  /** A request delivered a second time makes the follower lose an entry it has acknowledged since. */
  lemma DuplicateLosesEntry(leader: Id, to: Id) returns (first: AppendReq, second: AppendReq)
    ensures var s2 := AppendEntries(AppendEntries(Fresh(), first), second);
            && AppendAnswer(AppendEntries(Fresh(), first), second).success && |s2.log| == 2
            && AppendAnswer(s2, first).success && |AppendEntries(s2, first).log| == 1
  {
    var x, y := Entry(1, LogCommand, "x"), Entry(1, LogCommand, "y");
    first := AppendReq(1, leader, to, 0, 0, [x], 0);
    second := AppendReq(1, leader, to, 1, 1, [y], 0);
    var s1 := AppendEntries(Fresh(), first);
    assert s1.log == [x];
    assert AppendEntries(s1, second).log == [x, y];
  }

  /** `shared` is how far the logs agree, and no further. */
  ghost predicate SharedPrefix(a: Log, b: Log, shared: nat) {
    Agree(a, b, shared) && !Agree(a, b, shared + 1)
  }

  /** The commit index a follower adopts lies in what it then shares with the leader exactly when the
      request brings entries, or the follower has no other entries up to that index: the code takes the
      smaller of the leader's commit index and its own last index, not the last index of the request. */
  lemma AdoptedCommitIsShared(s: State, req: AppendReq, log: Log, shared: nat)
    requires FromLeader(s, req, log) && SharedPrefix(s.log, log, shared) && s.commit < req.commit
    ensures Agree(AppendEntries(s, req).log, log, AppendEntries(s, req).commit) <==>
            req.entries != [] || Min(req.commit, |s.log|) <= shared
  {
    LateRequestTruncates(s, req, log, shared);
  }

  /** So an empty request whose commit index was read after its last index can commit a stale entry:
      the leader has since appended and committed another one in its place. */
  lemma LateCommitIndexAppliesStale(leader: Id, to: Id) returns (s: State, req: AppendReq, log: Log)
    ensures FromLeader(s, req, log) && req.entries == [] && 0 < req.commit <= |log|
    ensures var r := AppendEntries(s, req); |r.applied| == 1 && r.applied[0] != log[0]
  {
    var stale, fresh' := Entry(1, LogCommand, "stale"), Entry(2, LogCommand, "");
    s := Fresh().(term := 1, log := [stale]);
    log := [fresh'];
    req := AppendReq(2, leader, to, 0, 0, [], 1);
    assert AppendEntries(s, req).applied == [stale];
  }

  /** Section 5.3 of the paper: delete only from the first conflicting entry on, append what is missing. */
  function PaperStore(log: Log, prev: nat, entries: Log): Log
    requires prev <= |log|
    decreases |entries|
  {
    if entries == [] then log
    else if prev == |log| || log[prev].term != entries[0].term then log[..prev] + entries
    else PaperStore(log, prev + 1, entries[1..])
  }

  /** Is there an entry in the request whose place in the log holds another term? */
  ghost predicate Conflicts(log: Log, prev: nat, entries: Log) {
    exists i | 0 <= i < |entries| && prev + i < |log| :: log[prev + i].term != entries[i].term
  }

  /** Entries at the same index and of the same term are the same, as Log Matching says. */
  ghost predicate SameTermSame(log: Log, prev: nat, entries: Log) {
    forall i | 0 <= i < |entries| && prev + i < |log| && log[prev + i].term == entries[i].term ::
          log[prev + i] == entries[i]
  }

  lemma {:induction false} PaperStoreIs(log: Log, prev: nat, entries: Log)
    requires prev <= |log| && SameTermSame(log, prev, entries)
    ensures PaperStore(log, prev, entries) ==
            if Conflicts(log, prev, entries) || prev + |entries| >= |log| then log[..prev] + entries else log
    decreases |entries|
  {
    if entries != [] && prev < |log| && log[prev].term == entries[0].term {
      var rest := entries[1..];
      ShiftConflicts(log, prev, entries);
      PaperStoreIs(log, prev + 1, rest);
      assert log[prev] == entries[0];
      assert log[..prev + 1] + rest == log[..prev] + entries;
    } else if entries != [] && prev < |log| {
      assert log[prev + 0].term != entries[0].term;
    } else if entries == [] {
      assert log[..prev] + entries == log[..prev];
      assert prev >= |log| ==> log[..prev] == log;
    }
  }

  lemma ShiftConflicts(log: Log, prev: nat, entries: Log)
    requires entries != [] && prev < |log| && log[prev].term == entries[0].term && SameTermSame(log, prev, entries)
    ensures Conflicts(log, prev, entries) <==> Conflicts(log, prev + 1, entries[1..])
    ensures SameTermSame(log, prev + 1, entries[1..])
  {
    var rest := entries[1..];
    if i :| 0 <= i < |entries| && prev + i < |log| && log[prev + i].term != entries[i].term {
      assert rest[i - 1] == entries[i] && log[prev + 1 + (i - 1)].term != rest[i - 1].term;
    }
    if i :| 0 <= i < |rest| && prev + 1 + i < |log| && log[prev + 1 + i].term != rest[i].term {
      assert entries[i + 1] == rest[i] && log[prev + (i + 1)].term != entries[i + 1].term;
    }
    forall i | 0 <= i < |rest| && prev + 1 + i < |log| && log[prev + 1 + i].term == rest[i].term
      ensures log[prev + 1 + i] == rest[i]
    {
      assert entries[i + 1] == rest[i] && log[prev + (i + 1)].term == entries[i + 1].term;
    }
  }

  /** The code stores what the paper asks for exactly when the request is empty, conflicts, or reaches
      the end of the follower's log. */
  lemma CodeMatchesPaper(log: Log, req: AppendReq)
    requires PrevMatches(log, req) && SameTermSame(log, req.prev, req.entries)
    ensures StoreEntries(log, req) == PaperStore(log, req.prev, req.entries) <==>
            req.entries == [] || Conflicts(log, req.prev, req.entries) || End(req) >= |log|
  {
    PaperStoreIs(log, req.prev, req.entries);
    if req.entries != [] {
      assert |log[..req.prev] + req.entries| == End(req);
    }
  }

  // ---------------------------------------------------------------------------
  // Votes torn by a crash

  /** After a crash between the two writes of persistVote the node votes in that term for exactly one
      candidate, the one of its previous vote, whatever that one's log; only a node that never voted
      still looks at logs. */
  lemma TornVoteGrants(s: State, req: VoteReq, later: VoteReq)
    requires VoteHeard(s, req) && !AlreadyVoted(s, req) && later.term == req.term
    ensures VoteGranted(TornVote(s, req, true), later) <==>
            if s.voteCand == None then UpToDate(s.log, later) else s.voteCand == Some(later.candidate)
  {
  }

  /** So a candidate with an empty log can get the vote of a node that holds an entry. */
  lemma TornVoteSkipsCheck(previous: Id, candidate: Id) returns (s: State, req: VoteReq, later: VoteReq)
    ensures VoteHeard(s, req) && !AlreadyVoted(s, req) && UpToDate(s.log, req) && later.term == req.term
    ensures VoteGranted(TornVote(s, req, true), later) && !UpToDate(s.log, later)
  {
    s := Fresh().(term := 1, voteTerm := 1, voteCand := Some(previous), log := [Entry(1, LogCommand, "")]);
    req := VoteReq(2, candidate, 1, 1);
    later := VoteReq(2, previous, 0, 0);
    TornVoteGrants(s, req, later);
  }
}
