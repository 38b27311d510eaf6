/**
  What the checks of a throttler answer and record, said in terms of thresholds, cached values and
  throttled apps alone: which status a check gets, when a metric counts as healthy, and what the
  service then reports about it.
 */
module HealthRecord {
  import opened Basics
  import opened ShareDomain

  /** No entry denies the app, in this store or anywhere: none that has not expired draws it. */
  predicate Unthrottled(t: Throttler, app: string, store: string, draws: (real, real), now: int) {
    && !Draws(t, app + "/" + store, draws.0, now) && !Draws(t, app, draws.1, now)
  }

  predicate Draws(t: Throttler, key: string, draw: real, now: int) {
    key in t.throttledApps && draw < t.throttledApps[key].ratio
    && match t.throttledApps[key].expireAt { case None => true case Some(until) => now <= until }
  }

  /** The metric of a store as cached, if it has a threshold and its value has not expired. */
  predicate Cached(t: Throttler, store: string, now: int) {
    && store in t.thresholds && "mysql/" + store in t.aggregated && now <= t.aggregated["mysql/" + store].until
  }

  /** An earlier request of another app was throttled on the metric, and the memory of it is fresh. */
  predicate Demoted(t: Throttler, store: string, now: int) {
    "mysql/" + store in t.lowPriority && now <= t.lowPriority["mysql/" + store].until
  }

  /** Another service reports the metric unhealthy for a second or more. */
  predicate UnhealthyElsewhere(t: Throttler, store: string, now: int) {
    && "mysql/" + store in t.shareHealth && now <= t.shareHealth["mysql/" + store].until
    && t.shareHealth["mysql/" + store].value.secondsSince >= 1
  }

  function Limit(t: Throttler, store: string, flags: Flags): real {
    if flags.overrideThreshold > 0.0 then flags.overrideThreshold
    else if store in t.thresholds then t.thresholds[store] else 0.0
  }

  predicate Over(t: Throttler, store: string, limit: real, now: int) {
    && Cached(t, store, now)
    && t.aggregated["mysql/" + store].value.Value? && t.aggregated["mysql/" + store].value.v > limit
  }

  /** Which status a check gets, case by case. */
  lemma StatusIs(t: Throttler, app: string, store: string, flags: Flags, draws: (real, real), now: int)
    ensures var status := Check(t, app, "mysql", store, flags, draws, now).status;
            if app == "" || !Unthrottled(t, app, store, draws, now) || (flags.lowPriority && Demoted(t, store, now))
            then status == 417
            else if !Cached(t, store, now) || t.aggregated["mysql/" + store].value == NoSuchMetric then status == 404
            else
              match t.aggregated["mysql/" + store].value {
                case Value(v) =>
                  if v > Limit(t, store, flags) || (app != "freno" && UnhealthyElsewhere(t, store, now))
                  then status == 429 else status == 200
                case AppDenied => status == 417
                case _ => status == 500
              }
  {
    MySQLName(store);
  }

  /** Which value and threshold the answer shows: an app that is kept out sees neither. */
  lemma CheckShows(t: Throttler, app: string, store: string, flags: Flags, draws: (real, real), now: int)
    ensures var r := Check(t, app, "mysql", store, flags, draws, now);
            var sees := Unthrottled(t, app, store, draws, now) && !(flags.lowPriority && Demoted(t, store, now));
            && r.threshold == (if sees || flags.overrideThreshold > 0.0 then Limit(t, store, flags) else 0.0)
            && if sees && Cached(t, store, now) && t.aggregated["mysql/" + store].value.Value?
               then r.value == t.aggregated["mysql/" + store].value.v else r.value == 0.0
  {
    MySQLName(store);
  }

  lemma MySQLName(store: string)
    ensures MetricName("mysql", store) == "mysql/" + store
  {
  }

  lemma OtherStoresNotFound(
      t: Throttler, app: string, storeType: string, store: string, flags: Flags, draws: (real, real), now: int)
    requires storeType != "mysql"
    ensures Check(t, app, storeType, store, flags, draws, now).status == 404
    ensures AfterCheck(t, app, storeType, store, flags, draws, now) == t
  {
  }

  /** A check changes nothing, except that one of an ordinary app which is over its threshold makes
      low-priority requests fail for a second. */
  lemma CheckDemotesWhen(t: Throttler, app: string, store: string, flags: Flags, draws: (real, real), now: int)
    ensures AfterCheck(t, app, "mysql", store, flags, draws, now) ==
            if app != "" && app != "freno" && !flags.lowPriority && !flags.readCheck
               && Unthrottled(t, app, store, draws, now) && Over(t, store, Limit(t, store, flags), now)
            then t.(lowPriority := t.lowPriority["mysql/" + store := Timed(true, now + 1)]) else t
  {
    MySQLName(store);
  }

  // ---------------------------------------------------------------------------
  // Local checks

  /** The metric is one of a MySQL store, and its cached value is within the store's threshold. */
  predicate LooksHealthy(t: Throttler, name: string, draws: (real, real), now: int) {
    && "mysql/" <= name && '/' !in name[6..]
    && Unthrottled(t, "freno", name[6..], draws, now) && Cached(t, name[6..], now)
    && t.aggregated["mysql/" + name[6..]].value.Value?
    && t.aggregated["mysql/" + name[6..]].value.v <= t.thresholds[name[6..]]
  }

  lemma SplitParts(name: string, a: string, b: string)
    requires Split(name) == Some((a, b))
    ensures name == a + "/" + b && '/' !in a && '/' !in b
    ensures a == "mysql" <==> "mysql/" <= name && '/' !in name[6..]
    ensures a == "mysql" ==> b == name[6..] && name == "mysql/" + b
  {
    if "mysql/" <= name && '/' !in name[6..] {
      assert name[5] == '/' && name[..5] == "mysql" && name == name[..5] + "/" + name[6..];
      SlashAt(a, b, 5);
    }
  }

  /** The only slash of a name is where it splits. */
  lemma SlashAt(a: string, b: string, k: nat)
    requires '/' !in a && '/' !in b && k < |a + "/" + b| && (a + "/" + b)[k] == '/'
    ensures k == |a| && (a + "/" + b)[..k] == a
  {
  }

  lemma MySQLSplits(name: string)
    requires "mysql/" <= name && '/' !in name[6..]
    ensures Split(name).Some?
  {
    assert MetricName("mysql", name[6..]) == name;
  }

  /** What else a local check does: the shared-domain app's check, which may make low-priority requests fail. */
  lemma LocalCheckDemotesWhen(t: Throttler, name: string, draws: (real, real), shareDraws: (real, real), now: int)
    ensures var r := AfterLocalCheck(t, name, draws, shareDraws, now);
            r == t.(metricsHealth := r.metricsHealth,
                    lowPriority :=
                      if "mysql/" <= name && '/' !in name[6..]
                         && Unthrottled(t, "freno-share-domain", name[6..], shareDraws, now)
                         && Over(t, name[6..], Limit(t, name[6..], STANDARD_FLAGS), now)
                      then t.lowPriority[name := Timed(true, now + 1)] else t.lowPriority)
  {
    if "mysql/" <= name && '/' !in name[6..] {
      MySQLSplits(name);
    }
    match Split(name) {
      case None =>
      case Some((a, b)) =>
        SplitParts(name, a, b);
        if a == "mysql" {
          CheckDemotesWhen(t, "freno", b, STANDARD_FLAGS, draws, now);
          CheckDemotesWhen(t, "freno-share-domain", b, STANDARD_FLAGS, shareDraws, now);
        }
    }
  }

  /** A local check marks the metric as healthy now exactly when it looks healthy, whatever others report,
      and records nothing else. */
  lemma LocalCheckRecords(t: Throttler, name: string, draws: (real, real), shareDraws: (real, real), now: int)
    ensures AfterLocalCheck(t, name, draws, shareDraws, now).metricsHealth ==
            if LooksHealthy(t, name, draws, now) then t.metricsHealth[name := now] else t.metricsHealth
  {
    if "mysql/" <= name && '/' !in name[6..] {
      MySQLSplits(name);
    }
    match Split(name) {
      case None =>
      case Some((a, b)) =>
        SplitParts(name, a, b);
        if a == "mysql" {
          StatusIs(t, "freno", b, STANDARD_FLAGS, draws, now);
        }
    }
  }

  // ---------------------------------------------------------------------------
  // Reports

  /** Event `k` of a run is a local check of the metric that finds it healthy. */
  predicate FoundHealthy(t: Throttler, events: seq<Event>, k: nat, name: string) {
    && k < |events| && events[k].LocalCheck? && events[k].name == name
    && LooksHealthy(Run(t, events[..k]), name, events[k].draws, events[k].now)
  }

  lemma EventRecords(t: Throttler, e: Event, name: string)
    ensures var r := Do(t, e).metricsHealth;
            if e.LocalCheck? && e.name == name && LooksHealthy(t, name, e.draws, e.now)
            then name in r && r[name] == e.now
            else (name in r <==> name in t.metricsHealth) && (name in r ==> r[name] == t.metricsHealth[name])
  {
    if e.LocalCheck? {
      LocalCheckRecords(t, e.name, e.draws, e.shareDraws, e.now);
    }
  }

  /** After any run, the record of a metric is the time of the last local check that found it healthy. */
  lemma {:induction false} RecordIsLastHealthy(t: Throttler, events: seq<Event>, name: string) returns (k: int)
    requires t.metricsHealth == map[]
    ensures -1 <= k < |events| && (forall j: nat | k < j < |events| :: !FoundHealthy(t, events, j, name))
    ensures k == -1 ==> name !in Run(t, events).metricsHealth
    ensures k >= 0 ==>
              && FoundHealthy(t, events, k, name) && name in Run(t, events).metricsHealth
              && Run(t, events).metricsHealth[name] == events[k].now
    decreases |events|
  {
    k := -1;
    if events != [] {
      var n := |events| - 1;
      var before := events[..n];
      EventRecords(Run(t, before), events[n], name);
      if FoundHealthy(t, events, n, name) {
        k := n;
      } else {
        k := RecordIsLastHealthy(t, before, name);
        PrefixHealthy(t, events, name);
      }
    }
  }

  lemma PrefixHealthy(t: Throttler, events: seq<Event>, name: string)
    requires events != []
    ensures forall j: nat | j < |events| - 1 ::
              FoundHealthy(t, events, j, name) <==> FoundHealthy(t, events[..|events| - 1], j, name)
  {
    var before := events[..|events| - 1];
    forall j: nat | j < |events| - 1
      ensures FoundHealthy(t, events, j, name) <==> FoundHealthy(t, before, j, name)
    {
      assert before[..j] == events[..j] && before[j] == events[j];
    }
  }

  /** What the service reports about a metric: the time since the last local check that found it healthy,
      and nothing about a metric that never was. */
  lemma ReportIsTimeSinceHealthy(t: Throttler, events: seq<Event>, name: string, now: int) returns (k: int)
    requires t.metricsHealth == map[]
    ensures -1 <= k < |events| && (forall j: nat | k < j < |events| :: !FoundHealthy(t, events, j, name))
    ensures var report := Report(Run(t, events), now);
            && (name in report <==> k >= 0)
            && (k >= 0 ==>
                  && FoundHealthy(t, events, k, name)
                  && report[name] == Health(events[k].now, now - events[k].now))
  {
    k := RecordIsLastHealthy(t, events, name);
  }

  /** A leader caches the worst report of each metric for five seconds; any other service caches nothing. */
  lemma CollectCaches(t: Throttler, reports: seq<HealthMap>, now: int, metric: string)
    ensures var r := AfterCollect(t, reports, now);
            && r == t.(shareHealth := r.shareHealth)
            && if t.isLeader && exists i | 0 <= i < |reports| :: metric in reports[i]
               then
                 && metric in r.shareHealth && metric in Worst(reports)
                 && r.shareHealth[metric] == Timed(Worst(reports)[metric], now + 5)
               else
                 && (metric in r.shareHealth <==> metric in t.shareHealth)
                 && (metric in r.shareHealth ==> r.shareHealth[metric] == t.shareHealth[metric])
  {
    WorstIsMax(reports, metric);
  }
}
