/**
  Leader election through one row per domain of a shared table (pkg/group/mysql.go): an upsert whose
  assignments see each other's effect from left to right, and services that remember what they last
  read.  Time is the database clock, in seconds.
 */
module Lease {
  import opened Basics

  const ELECTION_EXPIRE_SECONDS := 5

  datatype Service = Service(id: string, domain: string, shareDomain: string)

  datatype Row = Row(serviceId: string, shareDomain: string, lastSeen: int)

  type Table = map<string, Row>

  /** `last_seen_active < now() - interval 5 second` */
  predicate Expired(row: Row, now: int) {
    row.lastSeen < now - ELECTION_EXPIRE_SECONDS
  }

  /** The row after an attempt.  The last two assignments compare with the service id just written. */
  function Upsert(row: Option<Row>, s: Service, now: int): Row {
    match row
    case None => Row(s.id, s.shareDomain, now)
    case Some(r) =>
      var holder := if Expired(r, now) then s.id else r.serviceId;
      Row(holder,
          if holder == s.id then s.shareDomain else r.shareDomain,
          if holder == s.id then now else r.lastSeen)
  }

  function RowOf(table: Table, domain: string): Option<Row> {
    if domain in table then Some(table[domain]) else None
  }

  /** ReadLeadership: is the service the holder, and who is. */
  function Read(table: Table, s: Service): (bool, string) {
    match RowOf(table, s.domain)
    case None => (false, "")
    case Some(r) => (r.serviceId == s.id, r.serviceId)
  }

  /** A service reads itself as leader exactly if it holds the row, and otherwise who does, or nobody. */
  lemma ReadIs(table: Table, s: Service)
    ensures var (leads, holder) := Read(table, s);
            && (leads <==> s.domain in table && table[s.domain].serviceId == s.id)
            && holder == (if s.domain in table then table[s.domain].serviceId else "")
  {
  }

  /** The table in place. */
  class ElectionTable {
    var rows: Table

    constructor ()
      ensures rows == map[]
    {
      rows := map[];
    }

    method AttemptLeadership(s: Service, now: int)
      modifies this
      ensures rows == old(rows)[s.domain := Upsert(RowOf(old(rows), s.domain), s, now)]
    {
      if s.domain !in rows {
        rows := rows[s.domain := Row(s.id, s.shareDomain, now)];
        return;
      }
      var row := rows[s.domain];
      if row.lastSeen < now - ELECTION_EXPIRE_SECONDS {
        row := row.(serviceId := s.id);
      }
      if row.serviceId == s.id {
        row := row.(shareDomain := s.shareDomain);
      }
      if row.serviceId == s.id {
        row := row.(lastSeen := now);
      }
      rows := rows[s.domain := row];
    }
  }

  // ---------------------------------------------------------------------------
  // Runs

  /** `leaderState` is what each service remembers, `lease` (history) until when the row it read was
      good. */
  datatype World = World(clock: int, table: Table, leaderState: map<Service, bool>, lease: map<Service, int>)

  datatype Step =
    | Wait(seconds: nat)
    | Attempt(s: Service)
    | Refresh(s: Service)          // a ReadLeadership that succeeds; one that fails changes nothing

  function Do(w: World, e: Step): World {
    match e
    case Wait(d) => w.(clock := w.clock + d)
    case Attempt(s) => w.(table := w.table[s.domain := Upsert(RowOf(w.table, s.domain), s, w.clock)])
    case Refresh(s) =>
      w.(leaderState := w.leaderState[s := Read(w.table, s).0],
         lease := if s.domain in w.table then w.lease[s := w.table[s.domain].lastSeen + ELECTION_EXPIRE_SECONDS]
               else w.lease)
  }

  ghost predicate Init(w: World) {
    w.table == map[] && w.leaderState == map[] && w.lease == map[]
  }

  ghost predicate IsRun(run: seq<World>, steps: seq<Step>) {
    && |run| == |steps| + 1 && Init(run[0])
    && forall k: nat | k < |steps| :: StepAt(run, steps, k)
  }

  ghost predicate StepAt(run: seq<World>, steps: seq<Step>, k: nat)
    requires k < |steps| && |run| == |steps| + 1
  {
    run[k + 1] == Do(run[k], steps[k])
  }

  /** A service that believes in its leadership and whose row has not run out holds the row. */
  ghost predicate BeliefOk(w: World, s: Service) {
    s in w.leaderState && w.leaderState[s] ==>
      && s in w.lease && s.domain in w.table
      && (w.clock <= w.lease[s] ==>
            w.table[s.domain].serviceId == s.id && w.lease[s] <= w.table[s.domain].lastSeen + ELECTION_EXPIRE_SECONDS)
  }

  ghost predicate Inv(w: World) {
    && (forall d | d in w.table :: w.table[d].lastSeen <= w.clock)
    && (forall s :: BeliefOk(w, s))
  }

  /** An attempt changes the holder exactly when another one's row has expired. */
  lemma AttemptDisplaces(w: World, s: Service)
    requires s.domain in w.table
    ensures var before, after := w.table[s.domain], Do(w, Attempt(s)).table[s.domain];
            && (after.serviceId != before.serviceId <==>
                  before.serviceId != s.id && w.clock > before.lastSeen + ELECTION_EXPIRE_SECONDS)
            && (after.serviceId == s.id <==> before.serviceId == s.id || Expired(before, w.clock))
            && (after.serviceId == s.id ==> after.lastSeen == w.clock && after.shareDomain == s.shareDomain)
            && (after.serviceId != s.id ==> after == before)
  {
  }

  /** The first attempt in a domain takes the row, and an attempt touches no other domain. */
  lemma AttemptTakes(w: World, s: Service, domain: string)
    ensures var after := Do(w, Attempt(s));
            && s.domain in after.table && after.clock == w.clock && after.leaderState == w.leaderState
            && (s.domain !in w.table ==> after.table[s.domain] == Row(s.id, s.shareDomain, w.clock))
            && (domain != s.domain ==>
                  && (domain in after.table <==> domain in w.table)
                  && (domain in after.table ==> after.table[domain] == w.table[domain]))
  {
  }

  /** A service remembers what it read, and nothing else changes. */
  lemma RefreshRemembers(w: World, s: Service)
    ensures var after := Do(w, Refresh(s));
            && s in after.leaderState && after.table == w.table && after.clock == w.clock
            && (after.leaderState[s] <==> s.domain in w.table && w.table[s.domain].serviceId == s.id)
            && forall x | x != s && x in w.leaderState ::
                 x in after.leaderState && after.leaderState[x] == w.leaderState[x]
  {
  }

  lemma StepKeeps(w: World, e: Step)
    requires Inv(w)
    ensures Inv(Do(w, e))
  {
    var w' := Do(w, e);
    forall s
      ensures BeliefOk(w', s)
    {
      assert BeliefOk(w, s);
    }
  }

  lemma {:induction false} RunHolds(run: seq<World>, steps: seq<Step>, k: nat)
    requires IsRun(run, steps) && k < |run|
    ensures Inv(run[k])
  {
    if k > 0 {
      RunHolds(run, steps, k - 1);
      assert StepAt(run, steps, k - 1);
      StepKeeps(run[k - 1], steps[k - 1]);
    }
  }

  /** When the row has another holder later, there was a step in between that found the holder's last
      renewal more than the expiry ago. */
  lemma {:induction false} DisplacedOnlyWhenExpired(
      run: seq<World>, steps: seq<Step>, i: nat, j: nat, domain: string) returns (k: nat)
    requires IsRun(run, steps) && i <= j < |run| && domain in run[i].table
    requires domain in run[j].table ==> run[j].table[domain].serviceId != run[i].table[domain].serviceId
    ensures i <= k < j && domain in run[k].table
    ensures run[k].table[domain].serviceId == run[i].table[domain].serviceId
    ensures run[k].clock > run[k].table[domain].lastSeen + ELECTION_EXPIRE_SECONDS
    ensures steps[k].Attempt? && steps[k].s.domain == domain
    decreases j
  {
    RowStays(run, steps, i, j, domain);
    var last := j - 1;
    RowStays(run, steps, i, last, domain);
    assert StepAt(run, steps, last);
    if run[last].table[domain].serviceId != run[i].table[domain].serviceId {
      k := DisplacedOnlyWhenExpired(run, steps, i, last, domain);
    } else {
      k := last;
    }
  }

  lemma {:induction false} RowStays(run: seq<World>, steps: seq<Step>, i: nat, j: nat, domain: string)
    requires IsRun(run, steps) && i <= j < |run| && domain in run[i].table
    ensures domain in run[j].table
    decreases j
  {
    if i < j {
      RowStays(run, steps, i, j - 1, domain);
      assert StepAt(run, steps, j - 1);
    }
  }

  /** A holder whose row never expires is never displaced. */
  lemma RenewingHolderStays(run: seq<World>, steps: seq<Step>, i: nat, j: nat, domain: string)
    requires IsRun(run, steps) && i <= j < |run| && domain in run[i].table
    requires forall k: nat | i <= k < j && domain in run[k].table
          && run[k].table[domain].serviceId == run[i].table[domain].serviceId ::
               !Expired(run[k].table[domain], run[k].clock)
    ensures domain in run[j].table && run[j].table[domain].serviceId == run[i].table[domain].serviceId
  {
    RowStays(run, steps, i, j, domain);
    if run[j].table[domain].serviceId != run[i].table[domain].serviceId {
      var k := DisplacedOnlyWhenExpired(run, steps, i, j, domain);
    }
  }

  /** The renewal time in a row is the clock of the holder's own last attempt. */
  lemma {:induction false} RenewedByHolder(run: seq<World>, steps: seq<Step>, j: nat, domain: string) returns (k: nat)
    requires IsRun(run, steps) && j < |run| && domain in run[j].table
    ensures k < j && steps[k].Attempt? && steps[k].s.domain == domain
    ensures steps[k].s.id == run[j].table[domain].serviceId && run[k].clock == run[j].table[domain].lastSeen
    decreases j
  {
    var last := j - 1;
    assert StepAt(run, steps, last);
    if domain in run[last].table && run[last].table[domain] == run[j].table[domain] {
      k := RenewedByHolder(run, steps, last, domain);
    } else {
      k := last;
    }
  }

  /** At any moment at most one service of a domain reads itself as the leader. */
  lemma OneLeaderReads(table: Table, a: Service, b: Service)
    requires a.domain == b.domain && Read(table, a).0 && Read(table, b).0
    ensures a.id == b.id
  {
  }

  /** Two services of a domain can both believe they lead only after the row one of them read has run out. */
  lemma OneLeaderBelieves(run: seq<World>, steps: seq<Step>, k: nat, a: Service, b: Service)
    requires IsRun(run, steps) && k < |run| && a.domain == b.domain && a.id != b.id
    requires a in run[k].leaderState && run[k].leaderState[a] && b in run[k].leaderState && run[k].leaderState[b]
    ensures a in run[k].lease && b in run[k].lease && (run[k].clock > run[k].lease[a] || run[k].clock > run[k].lease[b])
  {
    RunHolds(run, steps, k);
    assert BeliefOk(run[k], a) && BeliefOk(run[k], b);
  }

  /** And then they can: the first service leads, stays silent for longer than the expiry, and the
      second one takes over before the first reads again. */
  lemma BothBelieve(a: Service, b: Service) returns (run: seq<World>, steps: seq<Step>)
    requires a.domain == b.domain && a.id != b.id
    ensures IsRun(run, steps) && |run| == 6
    ensures a in run[5].leaderState && run[5].leaderState[a] && b in run[5].leaderState && run[5].leaderState[b]
  {
    steps := [Attempt(a), Refresh(a), Wait(ELECTION_EXPIRE_SECONDS + 1), Attempt(b), Refresh(b)];
    var w0 := World(0, map[], map[], map[]);
    var w1 := Do(w0, steps[0]);
    var w2 := Do(w1, steps[1]);
    var w3 := Do(w2, steps[2]);
    var w4 := Do(w3, steps[3]);
    run := [w0, w1, w2, w3, w4, Do(w4, steps[4])];
  }
}
