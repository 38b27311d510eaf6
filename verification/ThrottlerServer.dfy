/** The throttler's caches changed in place, with the loops over keys, services and reports. */
module ThrottlerServer {
  import opened Basics
  import opened Http
  import opened ShareDomain

  class ThrottlerServer {
    var isLeader: bool
    var thresholds: map<string, real>
    var aggregated: map<string, Timed<MetricResult>>
    var throttledApps: map<string, AppThrottle>
    var metricsHealth: map<string, int>
    var shareHealth: map<string, Timed<Health>>
    var lowPriority: map<string, Timed<bool>>

    ghost function State(): Throttler
      reads this
    {
      Throttler(isLeader, thresholds, aggregated, throttledApps, metricsHealth, shareHealth, lowPriority)
    }

    /** First the app in this store, then the app anywhere. */
    method IsThrottled(app: string, store: string, draws: (real, real), now: int) returns (throttled: bool)
      ensures throttled == IsAppThrottled(State(), app, store, draws, now)
    {
      var keys, rolls := [app + "/" + store, app], [draws.0, draws.1];
      for k := 0 to 2
        invariant k >= 1 ==> !Denies(throttledApps, keys[0], rolls[0], now)
        invariant k >= 2 ==> !Denies(throttledApps, keys[1], rolls[1], now)
      {
        if keys[k] in throttledApps {
          var t := throttledApps[keys[k]];
          if t.expireAt.Some? && t.expireAt.value < now {
            continue;
          }
          if rolls[k] < t.ratio {
            return true;
          }
        }
      }
      return false;
    }

    /** AppRequestMetricResult over the cluster's metric. */
    method RequestMetric(
        app: string, store: string, denied: bool, draws: (real, real), now: int)
        returns (m: MetricResult, threshold: real)
      ensures (m, threshold) == if denied || IsAppThrottled(State(), app, store, draws, now) then (AppDenied, 0.0)
                                else ClusterMetrics(State(), store, now)
    {
      if denied {
        return AppDenied, 0.0;
      }
      var throttled := IsThrottled(app, store, draws, now);
      if throttled {
        return AppDenied, 0.0;
      }
      if store !in thresholds {
        return NoSuchMetric, 0.0;
      }
      var cached := Get(aggregated, MetricName("mysql", store), now);
      return if cached.Some? then cached.value else NoSuchMetric, thresholds[store];
    }

    /** checkAppMetricResult, behind the switch of Check. */
    method CheckApp(
        app: string, storeType: string, store: string, flags: Flags, draws: (real, real), now: int)
        returns (r: CheckResult)
      modifies this`lowPriority
      ensures r == Check(old(State()), app, storeType, store, flags, draws, now)
      ensures State() == AfterCheck(old(State()), app, storeType, store, flags, draws, now)
    {
      if storeType != "mysql" {
        return CheckResult(STATUS_NOT_FOUND, 0.0, 0.0);
      }
      var name := MetricName(storeType, store);
      var denied := flags.lowPriority && Get(lowPriority, name, now).Some?;
      var m, threshold := RequestMetric(app, store, denied, draws, now);
      if flags.overrideThreshold > 0.0 {
        threshold := flags.overrideThreshold;
      }
      var value := if m.Value? then m.v else 0.0;
      if app == "" {
        return CheckResult(STATUS_EXPECTATION_FAILED, value, threshold);
      }
      var status := STATUS_INTERNAL_SERVER_ERROR;
      if m == AppDenied {
        status := STATUS_EXPECTATION_FAILED;
      } else if m == NoSuchMetric {
        status := STATUS_NOT_FOUND;
      } else if m.OtherError? {
        status := STATUS_INTERNAL_SERVER_ERROR;
      } else if value > threshold {
        status := STATUS_TOO_MANY_REQUESTS;
        if !flags.lowPriority && !flags.readCheck && app != FRENO_APP {
          lowPriority := lowPriority[name := Timed(true, now + LOW_PRIORITY_EXPIRATION)];
        }
      } else {
        var since := SecondsSince(name, now);
        status := if app != FRENO_APP && since >= 1 then STATUS_TOO_MANY_REQUESTS else STATUS_OK;
      }
      return CheckResult(status, value, threshold);
    }

    method SecondsSince(name: string, now: int) returns (seconds: int)
      ensures seconds == ShareDomainSeconds(State(), name, now)
    {
      var h := Get(shareHealth, name, now);
      seconds := if h.Some? then h.value.secondsSince else 0;
    }

    method LocalCheck(name: string, draws: (real, real), shareDraws: (real, real), now: int)
      modifies this`lowPriority, this`metricsHealth
      ensures State() == AfterLocalCheck(old(State()), name, draws, shareDraws, now)
    {
      var tokens := Split(name);
      if tokens.None? {
        return;
      }
      var (storeType, store) := tokens.value;
      var own := CheckApp(FRENO_APP, storeType, store, STANDARD_FLAGS, draws, now);
      var _ := CheckApp(FRENO_SHARE_DOMAIN_APP, storeType, store, STANDARD_FLAGS, shareDraws, now);
      if own.status == STATUS_OK {
        metricsHealth := metricsHealth[name := now];
      }
    }

    /** The services that answered are asked in some order; their worst reports replace the cached ones. */
    method CollectHealth(reports: seq<HealthMap>, now: int)
      modifies this`shareHealth
      ensures State() == AfterCollect(old(State()), reports, now)
    {
      if !isLeader {
        return;
      }
      var worst := map[];
      for k := 0 to |reports|
        invariant worst == ShareDomain.Worst(reports[..k]) && shareHealth == old(shareHealth)
      {
        assert reports[..k + 1][..k] == reports[..k];
        worst := Aggregate(worst, reports[k]);
      }
      assert reports[..|reports|] == reports;
      CacheAll(worst, now);
    }

    /** SetDefault for every metric of a map. */
    method CacheAll(worst: HealthMap, now: int)
      modifies this`shareHealth
      ensures shareHealth == Cached(old(shareHealth), worst, now)
    {
      var rest := worst.Keys;
      while rest != {}
        invariant rest <= worst.Keys
        invariant forall k :: k in shareHealth <==> k in old(shareHealth) || (k in worst && k !in rest)
        invariant forall k | k in shareHealth ::
                    shareHealth[k] == if k in worst
                          && k !in rest then Timed(worst[k], now + SHARE_DOMAIN_EXPIRATION) else old(shareHealth)[k]
        decreases |rest|
      {
        var k :| k in rest;
        shareHealth := shareHealth[k := Timed(worst[k], now + SHARE_DOMAIN_EXPIRATION)];
        rest := rest - {k};
      }
      assert shareHealth.Keys == Cached(old(shareHealth), worst, now).Keys;
    }
  }

  /** MetricHealthMap.Aggregate, over the other map's keys in any order. */
  method Aggregate(m: HealthMap, other: HealthMap) returns (r: HealthMap)
    ensures r == Worse(m, other)
  {
    r := m;
    var rest := other;
    while rest != map[]
      invariant Worse(r, rest) == Worse(m, other)
      decreases |rest|
    {
      var k :| k in rest;
      MergedOne(r, rest, k);
      FewerKeys(rest, k);
      r := MergeKey(r, k, rest[k]);
      rest := rest - {k};
    }
  }

  /** The loop's body: a report replaces a better one, or none. */
  method MergeKey(m: HealthMap, k: string, h: Health) returns (r: HealthMap)
    ensures r == Merge(m, k, h)
  {
    r := m;
    if k in r {
      if r[k].secondsSince < h.secondsSince {
        r := r[k := h];
      }
    } else {
      r := r[k := h];
    }
  }

  function Merge(m: HealthMap, k: string, h: Health): HealthMap {
    if k in m && m[k].secondsSince >= h.secondsSince then m else m[k := h]
  }

  lemma MergedOne(m: HealthMap, other: HealthMap, k: string)
    requires k in other
    ensures Worse(Merge(m, k, other[k]), other - {k}) == Worse(m, other)
  {
    var a, b := Worse(Merge(m, k, other[k]), other - {k}), Worse(m, other);
    assert a.Keys == b.Keys;
    forall x | x in b
      ensures a[x] == b[x]
    {
    }
  }

  lemma FewerKeys(other: HealthMap, k: string)
    requires k in other
    ensures |other - {k}| < |other|
  {
    assert (other - {k}).Keys == other.Keys - {k};
  }
}
