/**
  Checks and metric health of a throttler that shares a domain with others (pkg/throttle/check.go,
  throttler.go).  What a service reports as its own health must not depend on what others report to
  it, or bad health would spread and never end.

  Times are seconds, metric values reals; every random draw and every clock reading is a parameter.
 */
module ShareDomain {
  import opened Basics
  import opened Http

  const FRENO_APP := "freno"
  const FRENO_SHARE_DOMAIN_APP := "freno-share-domain"

  const AGGREGATED_METRICS_EXPIRATION := 5
  const SHARE_DOMAIN_EXPIRATION := 5
  const LOW_PRIORITY_EXPIRATION := 1

  datatype Flags = Flags(readCheck: bool, overrideThreshold: real, lowPriority: bool)

  const STANDARD_FLAGS := Flags(false, 0.0, false)

  datatype MetricResult = Value(v: real) | NoSuchMetric | AppDenied | OtherError(message: string)

  /** An entry of an expiring cache. */
  datatype Timed<T> = Timed(value: T, until: int)

  datatype AppThrottle = AppThrottle(expireAt: Option<int>, ratio: real)

  /** What a service says about a metric on /metrics-health. */
  datatype Health = Health(lastHealthyAt: int, secondsSince: int)

  datatype Throttler = Throttler(
    isLeader: bool,
    thresholds: map<string, real>,                  // mysqlClusterThresholds
    aggregated: map<string, Timed<MetricResult>>,   // aggregatedMetrics
    throttledApps: map<string, AppThrottle>,
    metricsHealth: map<string, int>,                // when each metric was last checked to be fine
    shareHealth: map<string, Timed<Health>>,        // shareDomainMetricHealth
    lowPriority: map<string, Timed<bool>>)          // nonLowPriorityAppRequestsThrottled

  datatype CheckResult = CheckResult(status: int, value: real, threshold: real)

  function Get<T>(cache: map<string, Timed<T>>, key: string, now: int): Option<T> {
    if key in cache && now <= cache[key].until then Some(cache[key].value) else None
  }

  // ---------------------------------------------------------------------------
  // Checks

  function MetricName(storeType: string, storeName: string): string {
    storeType + "/" + storeName
  }

  /** One key of IsAppThrottled: an entry that has not expired denies with its ratio. */
  predicate Denies(apps: map<string, AppThrottle>, key: string, draw: real, now: int) {
    key in apps && !(apps[key].expireAt.Some? && apps[key].expireAt.value < now) && draw < apps[key].ratio
  }

  predicate IsAppThrottled(t: Throttler, app: string, store: string, draws: (real, real), now: int) {
    Denies(t.throttledApps, app + "/" + store, draws.0, now) || Denies(t.throttledApps, app, draws.1, now)
  }

  /** getMySQLClusterMetrics */
  function ClusterMetrics(t: Throttler, store: string, now: int): (MetricResult, real) {
    if store !in t.thresholds then (NoSuchMetric, 0.0)
    else
      var m := Get(t.aggregated, MetricName("mysql", store), now);
      (if m.Some? then m.value else NoSuchMetric, t.thresholds[store])
  }

  /** The metric an app gets to see, with its threshold. */
  function Seen(
      t: Throttler, app: string, storeType: string, store: string, flags: Flags, draws: (real, real), now: int)
      : (MetricResult, real) {
    var denied := flags.lowPriority && Get(t.lowPriority, MetricName(storeType, store), now).Some?;
    var (m, threshold) :=
      if denied || IsAppThrottled(t, app, store, draws, now) then (AppDenied, 0.0) else ClusterMetrics(t, store, now);
    (m, if flags.overrideThreshold > 0.0 then flags.overrideThreshold else threshold)
  }

  /** getShareDomainSecondsSinceHealth */
  function ShareDomainSeconds(t: Throttler, metric: string, now: int): int {
    var h := Get(t.shareHealth, metric, now);
    if h.Some? then h.value.secondsSince else 0
  }

  function Status(t: Throttler, app: string, metric: string, m: MetricResult, threshold: real, now: int): int {
    if app == "" then STATUS_EXPECTATION_FAILED
    else
      match m
      case AppDenied => STATUS_EXPECTATION_FAILED
      case NoSuchMetric => STATUS_NOT_FOUND
      case OtherError(_) => STATUS_INTERNAL_SERVER_ERROR
      case Value(v) =>
        if v > threshold then STATUS_TOO_MANY_REQUESTS
        else if app != FRENO_APP && ShareDomainSeconds(t, metric, now) >= 1 then STATUS_TOO_MANY_REQUESTS
        else STATUS_OK
  }

  /** Check; only MySQL stores exist. */
  function Check(
      t: Throttler, app: string, storeType: string, store: string, flags: Flags, draws: (real, real), now: int)
      : CheckResult {
    if storeType != "mysql" then CheckResult(STATUS_NOT_FOUND, 0.0, 0.0)
    else
      var (m, threshold) := Seen(t, app, storeType, store, flags, draws, now);
      CheckResult(Status(t, app, MetricName(storeType, store), m, threshold, now),
                  if m.Value? then m.v else 0.0, threshold)
  }

  /** Does the check make later low-priority requests fail? */
  predicate Demotes(
      t: Throttler, app: string, storeType: string, store: string, flags: Flags, draws: (real, real), now: int) {
    && storeType == "mysql" && app != "" && app != FRENO_APP && !flags.lowPriority && !flags.readCheck
    && var (m, threshold) := Seen(t, app, storeType, store, flags, draws, now);
       m.Value? && m.v > threshold
  }

  function AfterCheck(
      t: Throttler, app: string, storeType: string, store: string, flags: Flags, draws: (real, real), now: int)
      : Throttler {
    if Demotes(t, app, storeType, store, flags, draws, now)
    then t.(lowPriority := t.lowPriority[MetricName(storeType, store) := Timed(true, now + LOW_PRIORITY_EXPIRATION)])
    else t
  }

  /** splitMetricTokens: exactly one slash. */
  function Split(name: string): (r: Option<(string, string)>)
    ensures r.Some? ==> MetricName(r.value.0, r.value.1) == name && '/' !in r.value.0 && '/' !in r.value.1
    ensures r.None? ==> forall a, b | MetricName(a, b) == name :: '/' in a || '/' in b
  {
    var k := FirstSlash(name);
    if k == |name| || '/' in name[k + 1..] then
      OnlySlash(name, k);
      None
    else
      assert name == name[..k] + "/" + name[k + 1..];
      Some((name[..k], name[k + 1..]))
  }

  function FirstSlash(name: string): (k: nat)
    ensures k <= |name| && '/' !in name[..k] && (k < |name| ==> name[k] == '/')
  {
    if name == "" || name[0] == '/' then 0
    else
      var j := FirstSlash(name[1..]);
      assert name[..j + 1] == [name[0]] + name[1..][..j];
      j + 1
  }

  lemma OnlySlash(name: string, k: nat)
    requires k == FirstSlash(name) && (k == |name| || '/' in name[k + 1..])
    ensures forall a, b | MetricName(a, b) == name :: '/' in a || '/' in b
  {
    forall a, b | MetricName(a, b) == name
      ensures '/' in a || '/' in b
    {
      assert name[|a|] == '/' && name[..|a|] == a && name[|a| + 1..] == b;
    }
  }

  function AfterLocalCheck(
      t: Throttler, name: string, draws: (real, real), shareDraws: (real, real), now: int): Throttler {
    match Split(name)
    case None => t
    case Some((storeType, store)) =>
      var own := Check(t, FRENO_APP, storeType, store, STANDARD_FLAGS, draws, now);
      var u := AfterCheck(AfterCheck(t, FRENO_APP, storeType, store, STANDARD_FLAGS, draws, now),
                          FRENO_SHARE_DOMAIN_APP, storeType, store, STANDARD_FLAGS, shareDraws, now);
      if own.status == STATUS_OK then u.(metricsHealth := u.metricsHealth[name := now]) else u
  }

  // ---------------------------------------------------------------------------
  // Reports of the other services

  type HealthMap = map<string, Health>

  /** Aggregate: for each metric the worst report. */
  function Worse(m: HealthMap, other: HealthMap): HealthMap {
    map k | k in m.Keys + other.Keys ::
      if k !in other then m[k] else if k !in m then other[k]
      else if m[k].secondsSince < other[k].secondsSince then other[k] else m[k]
  }

  function Worst(reports: seq<HealthMap>): HealthMap {
    if reports == [] then map[] else Worse(Worst(reports[..|reports| - 1]), reports[|reports| - 1])
  }

  /** collectShareDomainMetricHealth, with the reports of the services that answered. */
  function AfterCollect(t: Throttler, reports: seq<HealthMap>, now: int): Throttler {
    if !t.isLeader then t
    else t.(shareHealth := Cached(t.shareHealth, Worst(reports), now))
  }

  function Cached(cache: map<string, Timed<Health>>, worst: HealthMap, now: int): map<string, Timed<Health>> {
    map k | k in cache.Keys + worst.Keys ::
          if k in worst then Timed(worst[k], now + SHARE_DOMAIN_EXPIRATION) else cache[k]
  }

  /** The aggregate of a metric is the worst of the reports that mention it, whatever their order. */
  lemma {:induction false} WorstIsMax(reports: seq<HealthMap>, metric: string)
    ensures metric in Worst(reports) <==> exists i | 0 <= i < |reports| :: metric in reports[i]
    ensures metric in Worst(reports) ==>
              && (exists i | 0 <= i < |reports| :: metric in reports[i] && Worst(reports)[metric] == reports[i][metric])
              && (forall i | 0 <= i < |reports| && metric in reports[i] ::
                    reports[i][metric].secondsSince <= Worst(reports)[metric].secondsSince)
  {
    if reports != [] {
      var n := |reports| - 1;
      var rest := reports[..n];
      WorstIsMax(rest, metric);
      if metric in Worst(rest) {
        var i :| 0 <= i < n && metric in rest[i] && Worst(rest)[metric] == rest[i][metric];
        assert reports[i] == rest[i];
      }
      assert forall i | 0 <= i < n :: reports[i] == rest[i];
    }
  }

  // ---------------------------------------------------------------------------
  // Runs

  datatype Event =
    | SetLeader(leader: bool)
    | SetThreshold(store: string, threshold: real)
    | SetMetric(name: string, m: MetricResult, now: int)
    | ThrottleApp(key: string, throttle: AppThrottle)
    | UnthrottleApp(key: string)
    | ClientCheck(app: string, storeType: string, store: string, flags: Flags, draws: (real, real), now: int)
    | LocalCheck(name: string, draws: (real, real), shareDraws: (real, real), now: int)
    | Collect(reports: seq<HealthMap>, now: int)

  function Do(t: Throttler, e: Event): Throttler {
    match e
    case SetLeader(leader) => t.(isLeader := leader)
    case SetThreshold(store, threshold) => t.(thresholds := t.thresholds[store := threshold])
    case SetMetric(name, m, now) =>
          t.(aggregated := t.aggregated[name := Timed(m, now + AGGREGATED_METRICS_EXPIRATION)])
    case ThrottleApp(key, throttle) => t.(throttledApps := t.throttledApps[key := throttle])
    case UnthrottleApp(key) => t.(throttledApps := t.throttledApps - {key})
    case ClientCheck(app, storeType, store, flags, draws, now) =>
          AfterCheck(t, app, storeType, store, flags, draws, now)
    case LocalCheck(name, draws, shareDraws, now) => AfterLocalCheck(t, name, draws, shareDraws, now)
    case Collect(reports, now) => AfterCollect(t, reports, now)
  }

  function Run(t: Throttler, events: seq<Event>): Throttler {
    if events == [] then t else Do(Run(t, events[..|events| - 1]), events[|events| - 1])
  }

  /** The events that do not come from other services. */
  function Own(events: seq<Event>): seq<Event> {
    if events == [] then []
    else Own(events[..|events| - 1]) + (if events[|events| - 1].Collect? then [] else [events[|events| - 1]])
  }

  /** Everything but what other services reported. */
  function Erase(t: Throttler): Throttler {
    t.(shareHealth := map[])
  }

  /** The service's own check does not look at other services' reports. */
  lemma OwnCheckIgnoresReports(
      t: Throttler, storeType: string, store: string, flags: Flags, draws: (real, real), now: int)
    ensures Check(t, FRENO_APP, storeType, store, flags, draws, now) ==
          Check(Erase(t), FRENO_APP, storeType, store, flags, draws, now)
  {
  }

  /** Nor does any check remember them. */
  lemma CheckErases(
      t: Throttler, app: string, storeType: string, store: string, flags: Flags, draws: (real, real), now: int)
    ensures Erase(AfterCheck(t, app, storeType, store, flags, draws, now)) ==
          AfterCheck(Erase(t), app, storeType, store, flags, draws, now)
  {
  }

  lemma LocalCheckErases(t: Throttler, name: string, draws: (real, real), shareDraws: (real, real), now: int)
    ensures Erase(AfterLocalCheck(t, name, draws, shareDraws, now)) ==
          AfterLocalCheck(Erase(t), name, draws, shareDraws, now)
  {
    if Split(name).Some? {
      var (storeType, store) := Split(name).value;
      OwnCheckIgnoresReports(t, storeType, store, STANDARD_FLAGS, draws, now);
      CheckErases(t, FRENO_APP, storeType, store, STANDARD_FLAGS, draws, now);
      var u := AfterCheck(t, FRENO_APP, storeType, store, STANDARD_FLAGS, draws, now);
      CheckErases(u, FRENO_SHARE_DOMAIN_APP, storeType, store, STANDARD_FLAGS, shareDraws, now);
    }
  }

  lemma StepErases(t: Throttler, e: Event)
    ensures Erase(Do(t, e)) == if e.Collect? then Erase(t) else Do(Erase(t), e)
  {
    match e {
      case ClientCheck(app, storeType, store, flags, draws, now) =>
            CheckErases(t, app, storeType, store, flags, draws, now);
      case LocalCheck(name, draws, shareDraws, now) => LocalCheckErases(t, name, draws, shareDraws, now);
      case _ =>
    }
  }

  /** A run without the reports goes the same way, as far as anything else is concerned. */
  lemma {:induction false} RunErases(t: Throttler, events: seq<Event>)
    ensures Erase(Run(t, events)) == Run(Erase(t), Own(events))
    decreases |events|
  {
    if events != [] {
      var before, e := events[..|events| - 1], events[|events| - 1];
      RunErases(t, before);
      StepErases(Run(t, before), e);
      if !e.Collect? {
        assert Own(events)[..|Own(events)| - 1] == Own(before);
      } else {
        assert Own(events) == Own(before);
      }
    }
  }

  /** What the service answers on /metrics-health. */
  function Report(t: Throttler, now: int): HealthMap {
    map k | k in t.metricsHealth :: Health(t.metricsHealth[k], now - t.metricsHealth[k])
  }

  /** No snowball: two runs with the same events of its own give a service the same health record,
      whatever other services report to it, and whenever. */
  lemma NoHealthSnowball(a: Throttler, b: Throttler, ea: seq<Event>, eb: seq<Event>, now: int)
    requires Erase(a) == Erase(b) && Own(ea) == Own(eb)
    ensures Run(a, ea).metricsHealth == Run(b, eb).metricsHealth
    ensures Report(Run(a, ea), now) == Report(Run(b, eb), now)
    ensures Run(a, ea).lowPriority == Run(b, eb).lowPriority
  {
    RunErases(a, ea);
    RunErases(b, eb);
    assert Erase(Run(a, ea)) == Erase(Run(b, eb));
  }

  /** When a check lets an app pass. */
  lemma CheckPasses(
      t: Throttler, app: string, storeType: string, store: string, flags: Flags, draws: (real, real), now: int)
    ensures Check(t, app, storeType, store, flags, draws, now).status == STATUS_OK <==>
            && storeType == "mysql" && app != "" && store in t.thresholds
            && !(flags.lowPriority && Get(t.lowPriority, MetricName("mysql", store), now).Some?)
            && !IsAppThrottled(t, app, store, draws, now)
            && var m := Get(t.aggregated, MetricName("mysql", store), now);
               && m.Some? && m.value.Value?
               && m.value.v <= (if flags.overrideThreshold > 0.0 then flags.overrideThreshold else t.thresholds[store])
               && (app == FRENO_APP || ShareDomainSeconds(t, MetricName("mysql", store), now) < 1)
  {
  }

  /** Every other app does depend on the reports: exactly where its own metric would let it pass. */
  lemma ReportsThrottleOthers(
      t: Throttler, app: string, storeType: string, store: string, flags: Flags, draws: (real, real), now: int)
    requires app != FRENO_APP
    ensures var with := Check(t, app, storeType, store, flags, draws, now);
            var without := Check(Erase(t), app, storeType, store, flags, draws, now);
            && (with != without <==>
                  without.status == STATUS_OK && ShareDomainSeconds(t, MetricName(storeType, store), now) >= 1)
            && (with != without ==> with.status == STATUS_TOO_MANY_REQUESTS)
            && (without.status == STATUS_OK ==> storeType == "mysql" && app != "")
  {
  }
}
