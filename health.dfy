/** The backend's `HealthCheckService`: a per-processor health cache refreshed
    by probing `/payments/service-health` at most once every five seconds. */
module Health {
  import opened Wrappers
  import opened Models

  datatype HealthInfo = HealthInfo(failing: bool, minResponseTime: int)

  /** What a probe of the health endpoint yields. */
  datatype ProbeOutcome =
    | Healthy(reportedFailing: bool, reportedMinResponseTime: int)  // success status, body deserialised
    | NonSuccessStatus                                             // non-success status code
    | NullBody                                                     // success status, body deserialises to null
    | TimedOut                                                     // TaskCanceledException or TimeoutException
    | Faulted                                                      // any other exception

  /** Probes are rate limited to one per processor every 5000 ms. */
  const RateLimitMs := 5000

  /** The cache and the time of each processor's last recorded probe. */
  datatype HealthState = HealthState(cache: map<ProcessorType, HealthInfo>, lastCheck: map<ProcessorType, int>)

  /** The result of one `GetHealthAsync` call: what it returns, the new state and
      whether it probed. */
  datatype HealthStep = HealthStep(info: HealthInfo, state: HealthState, probed: bool)

  /** A processor never probed counts as last probed at `DateTime.MinValue`, so
      its first call always probes. */
  predicate RateLimited(s: HealthState, p: ProcessorType, now: int) {
    p in s.lastCheck && now - s.lastCheck[p] < RateLimitMs
  }

  /** `GetHealthAsync(p)` at time `now` with probe outcome `probe`. */
  function GetHealthStep(s: HealthState, p: ProcessorType, now: int, probe: ProbeOutcome): (r: HealthStep)
    ensures r.probed <==> !RateLimited(s, p, now)
    ensures !r.probed ==> r.state == s && r.info == (if p in s.cache then s.cache[p] else HealthInfo(true, 1000))
    ensures r.probed && probe.Healthy? ==> r.info == HealthInfo(probe.reportedFailing, probe.reportedMinResponseTime)
    ensures r.probed && probe.TimedOut? ==> r.info == HealthInfo(false, 3000)
    ensures r.probed && probe.Faulted? ==> r.info == HealthInfo(true, 5000)
    ensures r.probed && (probe.Healthy? || probe.TimedOut? || probe.Faulted?) ==>
              r.state == HealthState(s.cache[p := r.info], s.lastCheck[p := now])
    ensures r.probed && (probe.NonSuccessStatus? || probe.NullBody?) ==>
              r.state == s && r.info == (if p in s.cache then s.cache[p] else HealthInfo(false, 100))
  {
    if RateLimited(s, p, now) then
      HealthStep(if p in s.cache then s.cache[p] else HealthInfo(true, 1000), s, false)
    else match probe
      case Healthy(failing, minResponseTime) => Record(s, p, now, HealthInfo(failing, minResponseTime))
      case TimedOut => Record(s, p, now, HealthInfo(false, 3000))
      case Faulted => Record(s, p, now, HealthInfo(true, 5000))
      case _ => HealthStep(if p in s.cache then s.cache[p] else HealthInfo(false, 100), s, true)
  }

  function Record(s: HealthState, p: ProcessorType, now: int, info: HealthInfo): HealthStep {
    HealthStep(info, HealthState(s.cache[p := info], s.lastCheck[p := now]), true)
  }

  /** A call within five seconds of a recorded probe returns that probe's result
      without probing, whatever the endpoint would say. */
  lemma CachedWithinRateLimit(s: HealthState, p: ProcessorType, t: int, probe: ProbeOutcome, t2: int, probe2: ProbeOutcome)
    requires !RateLimited(s, p, t) && (probe.Healthy? || probe.TimedOut? || probe.Faulted?)
    requires t2 - t < RateLimitMs
    ensures var first := GetHealthStep(s, p, t, probe);
            var second := GetHealthStep(first.state, p, t2, probe2);
            !second.probed && second.info == first.info && second.state == first.state
  {
  }

  /** A failed probe that records nothing leaves the next call free to probe again. */
  lemma UnrecordedProbeRetries(s: HealthState, p: ProcessorType, t: int, probe: ProbeOutcome, t2: int, probe2: ProbeOutcome)
    requires !RateLimited(s, p, t) && (probe.NonSuccessStatus? || probe.NullBody?)
    requires p in s.lastCheck ==> t2 >= t
    ensures GetHealthStep(GetHealthStep(s, p, t, probe).state, p, t2, probe2).probed
  {
  }

  /** Each processor's entry is its own: a call for `p` changes nothing about `q`. */
  lemma ProcessorsAreIsolated(s: HealthState, p: ProcessorType, q: ProcessorType, now: int, probe: ProbeOutcome)
    requires p != q
    ensures var r := GetHealthStep(s, p, now, probe).state;
            (q in r.cache <==> q in s.cache) && (q in s.cache ==> r.cache[q] == s.cache[q])
            && (q in r.lastCheck <==> q in s.lastCheck) && (q in s.lastCheck ==> r.lastCheck[q] == s.lastCheck[q])
  {
  }

  /** `GetOptimalProcessor` on the cache: default unless it is failing while the
      fallback is not. */
  function OptimalProcessor(cache: map<ProcessorType, HealthInfo>): (r: ProcessorType)
    ensures var d := if Default in cache then cache[Default] else HealthInfo(false, 100);
            var f := if Fallback in cache then cache[Fallback] else HealthInfo(false, 200);
            r == Fallback <==> d.failing && !f.failing
  {
    var defaultHealth := if Default in cache then cache[Default] else HealthInfo(false, 100);
    var fallbackHealth := if Fallback in cache then cache[Fallback] else HealthInfo(false, 200);
    if !defaultHealth.failing then Default
    else if !fallbackHealth.failing then Fallback
    else Default
  }

  class HealthCheckService {
    var cache: map<ProcessorType, HealthInfo>
    var lastCheck: map<ProcessorType, int>
    /** Every processor probed, in order. */
    var probes: seq<ProcessorType>

    /** Both processors always have a cache entry. */
    ghost predicate Valid()
      reads this
    {
      Default in cache && Fallback in cache
    }

    /** Both processors start healthy: default at 50 ms, fallback at 100 ms. */
    constructor ()
      ensures Valid()
      ensures cache == map[Default := HealthInfo(false, 50), Fallback := HealthInfo(false, 100)]
      ensures lastCheck == map[] && probes == []
    {
      cache := map[Default := HealthInfo(false, 50), Fallback := HealthInfo(false, 100)];
      lastCheck := map[];
      probes := [];
    }

    /** `GetHealthAsync`, with the clock as `now` and the endpoint's answer as `probe`. */
    method GetHealth(processorType: ProcessorType, now: int, probe: ProbeOutcome) returns (info: HealthInfo)
      requires Valid()
      modifies this
      ensures Valid()
      ensures var step := GetHealthStep(HealthState(old(cache), old(lastCheck)), processorType, now, probe);
              && info == step.info
              && HealthState(cache, lastCheck) == step.state
              && probes == old(probes) + (if step.probed then [processorType] else [])
    {
      if processorType in lastCheck && now - lastCheck[processorType] < RateLimitMs {
        return if processorType in cache then cache[processorType] else HealthInfo(true, 1000);
      }
      probes := probes + [processorType];
      match probe
      case Healthy(failing, minResponseTime) =>
        info := HealthInfo(failing, minResponseTime);
        cache := cache[processorType := info];
        lastCheck := lastCheck[processorType := now];
      case TimedOut =>
        info := HealthInfo(false, 3000);
        cache := cache[processorType := info];
        lastCheck := lastCheck[processorType := now];
      case Faulted =>
        info := HealthInfo(true, 5000);
        cache := cache[processorType := info];
        lastCheck := lastCheck[processorType := now];
      case _ =>
        info := if processorType in cache then cache[processorType] else HealthInfo(false, 100);
    }

    /** `GetOptimalProcessor`: default unless it is failing while the fallback is not. */
    function GetOptimalProcessor(): (r: ProcessorType)
      requires Valid()
      reads this
      ensures r == Fallback <==> cache[Default].failing && !cache[Fallback].failing
    {
      OptimalProcessor(cache)
    }
  }
}
