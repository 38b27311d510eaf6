/**
  The aggregation of MySQL probes (pkg/throttle/mysql.go): errors and bad values up to an allowance
  are forgiven, and the worst of what remains is the metric.  Metric values are reals.
 */
module Aggregation {
  import opened Basics
  import opened Http

  /** A host's probe key, and what is known about the host. */
  datatype Key = Key(host: string, port: int)

  datatype Result = Ok(value: real) | Err(error: string)

  /** What aggregateMySQLProbes returns. */
  datatype Metric = NoMetricResultYet | NoHosts | Failed(error: string) | Simple(value: real)

  predicate IsDialTcpError(error: string) {
    "dial tcp" <= error
  }

  /** What the first loop makes of one probe. */
  datatype Reading = Excluded | Missing | Forgiven | Broken(error: string) | Good(value: real)

  function Read(key: Key, results: map<Key, Result>, checks: map<Key, int>, ignoreDialTcp: bool): Reading {
    if key in checks && checks[key] == STATUS_NOT_FOUND then Excluded
    else if key !in results then Missing
    else
      match results[key]
      case Err(e) => if ignoreDialTcp && IsDialTcpError(e) then Forgiven else Broken(e)
      case Ok(v) => Good(v)
  }

  /** What the first loop makes of a probe: a 404 takes the host out, a host without a result is missing,
      a failed dial may be forgiven, and everything else counts. */
  lemma ReadIs(key: Key, results: map<Key, Result>, checks: map<Key, int>, ignoreDialTcp: bool)
    ensures var r := Read(key, results, checks, ignoreDialTcp);
            && (r == Excluded <==> key in checks && checks[key] == 404)
            && (r == Missing <==> r != Excluded && key !in results)
            && (r.Good? <==> r != Excluded && key in results && results[key].Ok?)
            && (r.Good? ==> r.value == results[key].value)
            && (r == Forgiven <==>
                  && r != Excluded && key in results && results[key].Err?
                  && ignoreDialTcp && "dial tcp" <= results[key].error)
            && (r.Broken? ==> key in results && results[key] == Err(r.error))
  {
  }

  function Readings(
      order: seq<Key>, results: map<Key, Result>, checks: map<Key, int>, ignoreDialTcp: bool): (r: seq<Reading>)
    ensures |r| == |order| && forall i | 0 <= i < |r| :: r[i] == Read(order[i], results, checks, ignoreDialTcp)
  {
    seq(|order|, i requires 0 <= i < |order| => Read(order[i], results, checks, ignoreDialTcp))
  }

  // ---------------------------------------------------------------------------
  // The closed form

  /** The values of the hosts that answered. */
  function Values(rs: seq<Reading>): seq<real> {
    if rs == [] then [] else Values(rs[..|rs| - 1]) + (if rs[|rs| - 1].Good? then [rs[|rs| - 1].value] else [])
  }

  /** The number of errors that are not ignorable. */
  function Errors(rs: seq<Reading>): nat {
    if rs == [] then 0 else Errors(rs[..|rs| - 1]) + (if rs[|rs| - 1].Broken? then 1 else 0)
  }

  /** A negative allowance is no allowance. */
  function Allowance(ignoreHostsCount: int): nat {
    if ignoreHostsCount > 0 then ignoreHostsCount else 0
  }

  ghost predicate Succeeds(rs: seq<Reading>, k: int) {
    Missing !in rs && Errors(rs) <= Allowance(k) && Values(rs) != []
  }

  ghost predicate Sorted(s: seq<real>) {
    forall i, j | 0 <= i < j < |s| :: s[i] <= s[j]
  }

  function Above(s: seq<real>, threshold: real): nat {
    if s == [] then 0 else Above(s[..|s| - 1], threshold) + (if s[|s| - 1] > threshold then 1 else 0)
  }

  /** How many of the worst values are ignored. */
  function Ignored(s: seq<real>, tokens: nat, threshold: real): nat
    requires s != []
  {
    Min(Min(tokens, |s| - 1), if threshold <= 0.0 then |s| else Above(s, threshold))
  }

  /** `s` is an ascending arrangement of the values. */
  ghost predicate Arranges(s: seq<real>, values: multiset<real>) {
    Sorted(s) && multiset(s) == values && s != []
  }

  /** `v` is the worst value of the arrangement that is not ignored. */
  ghost predicate WorstOf(s: seq<real>, values: multiset<real>, tokens: nat, threshold: real, v: real) {
    Arranges(s, values) && v == s[|s| - 1 - Ignored(s, tokens, threshold)]
  }

  ghost predicate IsWorstKept(values: multiset<real>, tokens: nat, threshold: real, v: real) {
    exists s :: WorstOf(s, values, tokens, threshold, v)
  }

  /** The aggregation of the readings succeeds with `v`. */
  ghost predicate Gives(rs: seq<Reading>, k: int, threshold: real, v: real) {
    Succeeds(rs, k) && IsWorstKept(multiset(Values(rs)), Allowance(k) - Errors(rs), threshold, v)
  }

  // ---------------------------------------------------------------------------
  // Sorting and ranks

  lemma {:induction false} AboveBound(s: seq<real>, threshold: real)
    ensures Above(s, threshold) <= |s|
  {
    if s != [] {
      AboveBound(s[..|s| - 1], threshold);
    }
  }

  /** In ascending order, the values above the threshold are the last ones. */
  lemma {:induction false} AboveAreLast(s: seq<real>, threshold: real, i: nat)
    requires Sorted(s) && i < |s|
    ensures Above(s, threshold) <= |s| && (s[i] > threshold <==> i >= |s| - Above(s, threshold))
  {
    var rest := s[..|s| - 1];
    AboveBound(rest, threshold);
    if i < |rest| {
      AboveAreLast(rest, threshold, i);
      assert s[i] <= s[|s| - 1];
    } else if |rest| > 0 {
      AboveAreLast(rest, threshold, |rest| - 1);
      AboveAreLast(rest, threshold, 0);
      assert s[|rest| - 1] <= s[|s| - 1];
    }
  }

  /** What is ignored: only values above the threshold, if there is one, no more of them than there are
      tokens and never all values; and no more could be. */
  lemma IgnoredIs(s: seq<real>, tokens: nat, threshold: real)
    requires Sorted(s) && s != []
    ensures var d := Ignored(s, tokens, threshold);
            && d <= tokens && d < |s|
            && (forall i | |s| - d <= i < |s| :: threshold <= 0.0 || s[i] > threshold)
            && (d == tokens || d == |s| - 1 || (threshold > 0.0 && s[|s| - 1 - d] <= threshold))
  {
    forall i: nat | i < |s|
      ensures Above(s, threshold) <= |s| && (s[i] > threshold <==> i >= |s| - Above(s, threshold))
    {
      AboveAreLast(s, threshold, i);
    }
    AboveBound(s, threshold);
  }

  /** Ascending arrangements of the same values are equal. */
  lemma {:induction false} SortedUnique(a: seq<real>, b: seq<real>)
    requires Sorted(a) && Sorted(b) && multiset(a) == multiset(b)
    ensures a == b
    decreases |a|
  {
    assert |a| == |multiset(a)| == |multiset(b)| == |b|;
    if a != [] {
      var n := |a| - 1;
      SameLast(a, b);
      ButLast(a);
      ButLast(b);
      SortedUnique(a[..n], b[..n]);
    }
  }

  lemma SameLast(a: seq<real>, b: seq<real>)
    requires Sorted(a) && Sorted(b) && multiset(a) == multiset(b) && a != [] && b != []
    ensures a[|a| - 1] == b[|b| - 1]
  {
    assert b[|b| - 1] in multiset(b) && a[|a| - 1] in multiset(a);
    LastIsLargest(a, b[|b| - 1]);
    LastIsLargest(b, a[|a| - 1]);
  }

  lemma ButLast(a: seq<real>)
    requires a != []
    ensures a == a[..|a| - 1] + [a[|a| - 1]]
    ensures multiset(a[..|a| - 1]) == multiset(a) - multiset{a[|a| - 1]}
  {
    assert a == a[..|a| - 1] + [a[|a| - 1]];
  }

  lemma LastIsLargest(a: seq<real>, x: real)
    requires Sorted(a) && x in multiset(a)
    ensures a != [] && x <= a[|a| - 1]
  {
  }

  /** It does not matter which ascending arrangement is looked at: there is only one. */
  lemma WorstInAny(values: multiset<real>, tokens: nat, threshold: real, v: real, u: seq<real>)
    requires IsWorstKept(values, tokens, threshold, v) && Arranges(u, values)
    ensures WorstOf(u, values, tokens, threshold, v)
  {
    var s :| WorstOf(s, values, tokens, threshold, v);
    SortedUnique(s, u);
  }

  method Sort(values: seq<real>) returns (s: seq<real>)
    ensures Sorted(s) && multiset(s) == multiset(values)
  {
    s := [];
    var k := 0;
    while k < |values|
      invariant k <= |values| && Sorted(s) && multiset(s) == multiset(values[..k])
    {
      assert values[..k + 1] == values[..k] + [values[k]];
      s := InsertSorted(s, values[k]);
      k := k + 1;
    }
    assert values[..k] == values;
  }

  method InsertSorted(s: seq<real>, x: real) returns (r: seq<real>)
    requires Sorted(s)
    ensures Sorted(r) && multiset(r) == multiset(s) + multiset{x}
  {
    var i := |s|;
    while i > 0 && s[i - 1] > x
      invariant 0 <= i <= |s| && forall j | i <= j < |s| :: s[j] > x
    {
      i := i - 1;
    }
    InsertedSorted(s, i, x);
    InsertedSame(s, i, x);
    r := s[..i] + [x] + s[i..];
  }

  lemma InsertedSorted(s: seq<real>, i: nat, x: real)
    requires Sorted(s) && i <= |s| && (i > 0 ==> s[i - 1] <= x) && forall j | i <= j < |s| :: s[j] > x
    ensures Sorted(s[..i] + [x] + s[i..])
  {
    var r := s[..i] + [x] + s[i..];
    assert forall a | 0 <= a < i :: r[a] == s[a];
    assert forall a | i < a < |r| :: r[a] == s[a - 1];
  }

  lemma InsertedSame(s: seq<real>, i: nat, x: real)
    requires i <= |s|
    ensures multiset(s[..i] + [x] + s[i..]) == multiset(s) + multiset{x}
  {
    assert s == s[..i] + s[i..];
  }

  // ---------------------------------------------------------------------------
  // The two loops

  /** Either the loop stops with a result, or it leaves the values and the tokens that remain. */
  datatype Scan = Stop(metric: Metric) | Collected(values: seq<real>, tokens: int)

  lemma PrefixStep(rs: seq<Reading>, i: nat)
    requires i < |rs|
    ensures Values(rs[..i + 1]) == Values(rs[..i]) + (if rs[i].Good? then [rs[i].value] else [])
    ensures Errors(rs[..i + 1]) == Errors(rs[..i]) + (if rs[i].Broken? then 1 else 0)
    ensures Missing in rs[..i + 1] <==> Missing in rs[..i] || rs[i] == Missing
  {
    assert rs[..i + 1][..i] == rs[..i];
    assert rs[..i + 1] == rs[..i] + [rs[i]];
  }

  lemma {:induction false} ErrorsGrow(rs: seq<Reading>, i: nat)
    requires i <= |rs|
    ensures Errors(rs[..i]) <= Errors(rs)
    decreases |rs| - i
  {
    if i < |rs| {
      PrefixStep(rs, i);
      ErrorsGrow(rs, i + 1);
    } else {
      assert rs[..i] == rs;
    }
  }

  /** Probe `i` is the first that has no result, or an error that no token is left for, and decides the metric. */
  ghost predicate StopsAt(rs: seq<Reading>, k: int, i: nat, m: Metric) {
    && i < |rs| && Missing !in rs[..i] && Errors(rs[..i]) <= Allowance(k)
    && match rs[i] {
         case Missing => m == NoMetricResultYet
         case Broken(e) => Errors(rs[..i]) == Allowance(k) && m == Failed(e)
         case _ => false
       }
  }

  ghost predicate Stops(rs: seq<Reading>, k: int, m: Metric) {
    exists i: nat :: StopsAt(rs, k, i, m)
  }

  method Collect(order: seq<Key>, results: map<Key, Result>, checks: map<Key, int>, k: int, ignoreDialTcp: bool)
      returns (scan: Scan)
    ensures var rs := Readings(order, results, checks, ignoreDialTcp);
            && (scan.Collected? <==> Missing !in rs && Errors(rs) <= Allowance(k))
            && (scan.Collected? ==> scan.values == Values(rs) && Allowance(scan.tokens) == Allowance(k) - Errors(rs))
            && (scan.Stop? ==> Stops(rs, k, scan.metric))
  {
    ghost var rs := Readings(order, results, checks, ignoreDialTcp);
    var values, tokens := [], k;
    for i := 0 to |order|
      invariant Missing !in rs[..i] && Errors(rs[..i]) <= Allowance(k)
      invariant values == Values(rs[..i]) && Allowance(tokens) == Allowance(k) - Errors(rs[..i])
    {
      PrefixStep(rs, i);
      ErrorsGrow(rs, i + 1);
      var key := order[i];
      assert rs[i] == Read(key, results, checks, ignoreDialTcp);
      if key in checks && checks[key] == STATUS_NOT_FOUND {
        continue;
      }
      if key !in results {
        assert StopsAt(rs, k, i, NoMetricResultYet);
        return Stop(NoMetricResultYet);
      }
      match results[key]
      case Err(e) =>
        if ignoreDialTcp && IsDialTcpError(e) {
          continue;
        }
        if tokens > 0 {
          tokens := tokens - 1;
          continue;
        }
        assert StopsAt(rs, k, i, Failed(e));
        return Stop(Failed(e));
      case Ok(v) =>
        values := values + [v];
    }
    assert rs[..|order|] == rs;
    return Collected(values, tokens);
  }

  /** The second loop shrinks the sorted values; every turn costs a token. */
  method Worst(values: seq<real>, k: int, threshold: real) returns (v: real)
    requires Sorted(values) && values != []
    ensures v == values[|values| - 1 - Ignored(values, Allowance(k), threshold)]
  {
    var kept, tokens := values, k;
    while tokens > 0
      invariant Allowance(tokens) <= Allowance(k)
      invariant 0 < |kept| <= |values| && kept == values[..|kept|]
      invariant |values| - |kept| == Ignored(values, Allowance(k) - Allowance(tokens), threshold)
      decreases Allowance(tokens)
    {
      AboveAreLast(values, threshold, |kept| - 1);
      var n := |kept|;
      var goodToIgnore := n > 1 && (threshold <= 0.0 || kept[n - 1] > threshold);
      if goodToIgnore {
        kept := kept[..n - 1];
      }
      tokens := tokens - 1;
    }
    v := kept[|kept| - 1];
  }

  method Pick(values: seq<real>, k: int, threshold: real) returns (v: real)
    requires values != []
    ensures IsWorstKept(multiset(values), Allowance(k), threshold, v)
  {
    var sorted := Sort(values);
    assert |multiset(sorted)| == |sorted|;
    v := Worst(sorted, k, threshold);
    assert WorstOf(sorted, multiset(values), Allowance(k), threshold, v);
  }

  method AggregateProbes(
      order: seq<Key>, results: map<Key, Result>, checks: map<Key, int>, k: int, ignoreDialTcp: bool, threshold: real)
      returns (m: Metric)
    ensures var rs := Readings(order, results, checks, ignoreDialTcp);
            && (m.Simple? <==> Succeeds(rs, k))
            && (m.Simple? ==> Gives(rs, k, threshold, m.value))
            && (m == NoHosts <==> Missing !in rs && Errors(rs) <= Allowance(k) && Values(rs) == [])
            && (m == NoMetricResultYet || m.Failed? ==> Stops(rs, k, m))
  {
    var scan := Collect(order, results, checks, k, ignoreDialTcp);
    if scan.Stop? {
      return scan.metric;
    }
    if |scan.values| == 0 {
      return NoHosts;
    }
    var v := Pick(scan.values, scan.tokens, threshold);
    m := Simple(v);
  }

  // ---------------------------------------------------------------------------
  // The order of the probes does not matter

  function Without<T>(rs: seq<T>, i: nat): seq<T>
    requires i < |rs|
  {
    rs[..i] + rs[i + 1..]
  }

  lemma WithoutSame<T>(rs: seq<T>, i: nat)
    requires i < |rs|
    ensures multiset(Without(rs, i)) == multiset(rs) - multiset{rs[i]}
  {
    assert rs == rs[..i] + [rs[i]] + rs[i + 1..];
  }

  /** Taking out a reading that is not the last commutes with taking out the last. */
  lemma WithoutButLast(rs: seq<Reading>, i: nat)
    requires i < |rs| - 1
    ensures var w := Without(rs, i);
            |w| == |rs| - 1 && w[..|w| - 1] == Without(rs[..|rs| - 1], i) && w[|w| - 1] == rs[|rs| - 1]
  {
  }

  lemma {:induction false} TakeOutErrors(rs: seq<Reading>, i: nat)
    requires i < |rs|
    ensures Errors(rs) == Errors(Without(rs, i)) + (if rs[i].Broken? then 1 else 0)
    decreases |rs|
  {
    var n := |rs| - 1;
    if i < n {
      TakeOutErrors(rs[..n], i);
      WithoutButLast(rs, i);
    } else {
      assert Without(rs, i) == rs[..n];
    }
  }

  function ValueOf(r: Reading): multiset<real> {
    if r.Good? then multiset{r.value} else multiset{}
  }

  lemma ValuesSnoc(rs: seq<Reading>)
    requires rs != []
    ensures multiset(Values(rs)) == multiset(Values(rs[..|rs| - 1])) + ValueOf(rs[|rs| - 1])
  {
  }

  lemma Exchange(a: multiset<real>, b: multiset<real>, x: multiset<real>, y: multiset<real>)
    requires a == b + x
    ensures a + y == (b + y) + x
  {
  }

  lemma {:induction false} TakeOutValues(rs: seq<Reading>, i: nat)
    requires i < |rs|
    ensures multiset(Values(rs)) == multiset(Values(Without(rs, i))) + ValueOf(rs[i])
    decreases |rs|
  {
    var n := |rs| - 1;
    ValuesSnoc(rs);
    if i < n {
      TakeOutValues(rs[..n], i);
      WithoutButLast(rs, i);
      ValuesSnoc(Without(rs, i));
      Exchange(multiset(Values(rs[..n])), multiset(Values(Without(rs[..n], i))), ValueOf(rs[i]), ValueOf(rs[n]));
    } else {
      assert Without(rs, i) == rs[..n];
    }
  }

  /** Two orders of the same readings have the same errors, values and missing results. */
  lemma {:induction false} SameReadings(a: seq<Reading>, b: seq<Reading>)
    requires multiset(a) == multiset(b)
    ensures Errors(a) == Errors(b) && multiset(Values(a)) == multiset(Values(b)) && (Missing in a <==> Missing in b)
    decreases |a|
  {
    assert |multiset(a)| == |a| && |multiset(b)| == |b|;
    assert Missing in a <==> Missing in multiset(a);
    assert Missing in b <==> Missing in multiset(b);
    if a != [] {
      var n := |a| - 1;
      assert a[n] in multiset(b);
      var i :| 0 <= i < |b| && b[i] == a[n];
      WithoutSame(a, n);
      WithoutSame(b, i);
      TakeOutErrors(a, n);
      TakeOutErrors(b, i);
      TakeOutValues(a, n);
      TakeOutValues(b, i);
      SameReadings(Without(a, n), Without(b, i));
    }
  }

  /** Two orders of the same probes give the same readings. */
  lemma {:induction false} SameProbes(
      a: seq<Key>, b: seq<Key>, results: map<Key, Result>, checks: map<Key, int>, ignoreDialTcp: bool)
    requires multiset(a) == multiset(b)
    ensures multiset(Readings(a, results, checks, ignoreDialTcp)) ==
          multiset(Readings(b, results, checks, ignoreDialTcp))
    decreases |a|
  {
    assert |multiset(a)| == |a| && |multiset(b)| == |b|;
    if a != [] {
      var n := |a| - 1;
      assert a[n] in multiset(b);
      var i :| 0 <= i < |b| && b[i] == a[n];
      WithoutSame(a, n);
      WithoutSame(b, i);
      SameProbes(Without(a, n), Without(b, i), results, checks, ignoreDialTcp);
      ReadingsWithout(a, n, results, checks, ignoreDialTcp);
      ReadingsWithout(b, i, results, checks, ignoreDialTcp);
    } else {
      assert Readings(a, results, checks, ignoreDialTcp) == Readings(b, results, checks, ignoreDialTcp);
    }
  }

  lemma ReadingsWithout(a: seq<Key>, i: nat, results: map<Key, Result>, checks: map<Key, int>, ignoreDialTcp: bool)
    requires i < |a|
    ensures multiset(Readings(a, results, checks, ignoreDialTcp)) ==
            multiset(Readings(Without(a, i), results, checks, ignoreDialTcp))
            + multiset{Read(a[i], results, checks, ignoreDialTcp)}
  {
    var rs := Readings(a, results, checks, ignoreDialTcp);
    assert Readings(Without(a, i), results, checks, ignoreDialTcp) == Without(rs, i);
    WithoutSame(rs, i);
  }

  lemma SameVerdict(a: seq<Reading>, b: seq<Reading>, k: int)
    requires multiset(a) == multiset(b)
    ensures Succeeds(a, k) <==> Succeeds(b, k)
    ensures Errors(a) == Errors(b) && multiset(Values(a)) == multiset(Values(b))
  {
    SameReadings(a, b);
    assert |multiset(Values(a))| == |Values(a)| && |multiset(Values(b))| == |Values(b)|;
  }

  lemma GivesSame(a: seq<Reading>, b: seq<Reading>, k: int, threshold: real, v: real)
    requires multiset(a) == multiset(b) && Gives(a, k, threshold, v)
    ensures Gives(b, k, threshold, v)
  {
    SameVerdict(a, b, k);
    var s :| WorstOf(s, multiset(Values(a)), Allowance(k) - Errors(a), threshold, v);
    assert WorstOf(s, multiset(Values(b)), Allowance(k) - Errors(b), threshold, v);
  }

  /** Whatever order the map of probes yields, the aggregation succeeds or not alike, and with the same value. */
  lemma OrderDoesNotMatter(
      a: seq<Key>, b: seq<Key>, results: map<Key, Result>, checks: map<Key, int>, ignoreDialTcp: bool,
      k: int, threshold: real, v: real)
    requires multiset(a) == multiset(b)
    ensures var ra, rb := Readings(a, results, checks, ignoreDialTcp), Readings(b, results, checks, ignoreDialTcp);
            && (Succeeds(ra, k) <==> Succeeds(rb, k))
            && (Gives(ra, k, threshold, v) <==> Gives(rb, k, threshold, v))
  {
    var ra, rb := Readings(a, results, checks, ignoreDialTcp), Readings(b, results, checks, ignoreDialTcp);
    SameProbes(a, b, results, checks, ignoreDialTcp);
    SameVerdict(ra, rb, k);
    if Gives(ra, k, threshold, v) {
      GivesSame(ra, rb, k, threshold, v);
    }
    if Gives(rb, k, threshold, v) {
      GivesSame(rb, ra, k, threshold, v);
    }
  }
}
