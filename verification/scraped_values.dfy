/** What the scrape of a listed pod leaves in its record, read off the metrics it found. */
module ScrapedValues {
  import opened Options
  import opened Decimal
  import opened Api
  import opened EndpointScan
  import opened ObservabilityConf
  import opened MetricsReading
  import opened Probing
  import opened ServicesFound

  // ---- Metrics by name --------------------------------------------------------------------

  /** The first sample of a counter family without its fraction; zero when there is no such family or it does not
      count. */
  function CountIn(m: Metrics, name: string): int {
    if name in m && m[name][0].reading.CounterReading? then Truncate(m[name][0].reading.count) else 0
  }

  /** The samples of a gauge family with this label, or all of them for the empty label, added up. */
  function LevelIn(m: Metrics, name: string, labelName: string, labelValue: string): real {
    if name in m then LevelSum(m[name], labelName, labelValue) else 0.0
  }

  /** The last label of that name gives the text; without one it stays. */
  ghost predicate GivesText(labels: seq<(string, string)>, name: string, was: string, now: string) {
    if exists i :: 0 <= i < |labels| && labels[i].0 == name then
      exists i :: 0 <= i < |labels| && labels[i] == (name, now) && forall j :: i < j < |labels| ==> labels[j].0 != name
    else now == was
  }

  lemma GivesStep(labels: seq<(string, string)>, name: string, was: string, now: string, l: (string, string))
    requires GivesText(labels, name, was, now)
    ensures GivesText(labels + [l], name, was, if l.0 == name then l.1 else now)
  {
    var more := labels + [l];
    if l.0 == name {
      assert more[|labels|] == (name, l.1);
    } else if i :| 0 <= i < |labels| && labels[i].0 == name {
      var k :| 0 <= k < |labels| && labels[k] == (name, now) && forall j :: k < j < |labels| ==> labels[j].0 != name;
      assert more[k] == (name, now);
    } else {
      assert forall i :: 0 <= i < |more| ==> more[i].0 != name;
    }
  }

  /** Provider and versions come from the labels of their own names. */
  lemma {:induction false} LabelsGive(r: Runtime, labels: seq<(string, string)>)
    ensures var s := ApplyLabels(r, labels);
            && GivesText(labels, "camel_runtime_provider", r.provider, s.provider)
            && GivesText(labels, "camel_runtime_version", r.version, s.version)
            && GivesText(labels, "camel_version", r.camelVersion, s.camelVersion)
  {
    if labels != [] {
      var front, l := labels[..|labels| - 1], labels[|labels| - 1];
      assert labels == front + [l];
      LabelsGive(r, front);
      var s := ApplyLabels(r, front);
      GivesStep(front, "camel_runtime_provider", r.provider, s.provider, l);
      GivesStep(front, "camel_runtime_version", r.version, s.version, l);
      GivesStep(front, "camel_version", r.camelVersion, s.camelVersion, l);
      NamesApart();
    }
  }

  lemma NamesApart()
    ensures "camel_runtime_provider" != "camel_runtime_version" && "camel_runtime_provider" != "camel_version"
    ensures "camel_runtime_version" != "camel_version"
  {
    assert "camel_runtime_provider"[14] == 'p' && "camel_runtime_version"[14] == 'v';
    assert "camel_runtime_provider"[6] == 'r' && "camel_runtime_version"[6] == 'r' && "camel_version"[6] == 'v';
  }

  // ---- One pod ----------------------------------------------------------------------------

  /** The metrics search ends at an answer with code 200 and these metrics. */
  ghost predicate Finds(probe: Prober, conf: Conf, m: Metrics) {
    exists at ::
      && SearchEndsAt(probe, conf.metricsPorts, conf.metricsEndpoints, at)
      && var a := probe(at.port, at.endpoint); a.Response? && a.code == 200 && a.metrics == Parsed(m)
  }

  lemma FindsByScan(probe: Prober, conf: Conf, m: Metrics)
    ensures Finds(probe, conf, m) <==> ScrapedMetrics(probe, conf) == Some(m)
  {
    forall at
      ensures MetricsRecorded(probe, conf.metricsPorts, conf.metricsEndpoints) == Some(at)
              <==> && SearchEndsAt(probe, conf.metricsPorts, conf.metricsEndpoints, at)
                   && var a := probe(at.port, at.endpoint); a.Response? && a.code == 200 && a.metrics.Parsed?
    {
      MetricsRecordedIff(probe, conf.metricsPorts, conf.metricsEndpoints, at);
    }
  }

  /** The counters of a scrape and the time of the last exchange. */
  predicate HoldsCounters(e: Exchange, m: Metrics) {
    && e.total == CountIn(m, "camel_exchanges_total")
    && e.failed == CountIn(m, "camel_exchanges_failed_total")
    && e.succeeded == CountIn(m, "camel_exchanges_succeeded_total")
    && e.pending == Truncate(LevelIn(m, "camel_exchanges_inflight", "", ""))
    && e.lastTimestamp.Some?
    && var x, t := LevelIn(m, "camel_exchanges_last_timestamp", "", ""), e.lastTimestamp.value as real;
       if x >= 0.0 then t - 0.5 <= x < t + 0.5 else t - 0.5 < x <= t + 0.5
  }

  /** What the process consumes, as scraped; the usage is printed in whole millicores. */
  predicate HoldsResources(r: Resources, m: Metrics) {
    && r.memoryUsed == Some(Truncate(LevelIn(m, "jvm_memory_used_bytes", "area", "heap")))
    && r.memoryMax == Some(Truncate(LevelIn(m, "jvm_memory_max_bytes", "area", "heap")))
    && r.cpuUsed.Some? && ParseFixed(r.cpuUsed.value).Some?
    && -0.5 <= ParseFixed(r.cpuUsed.value).value - 1000.0 * LevelIn(m, "process_cpu_usage", "", "") <= 0.5
  }

  /** The texts of a runtime, from the labels of the info metric when that has exactly one sample. */
  ghost predicate HoldsTexts(r: Runtime, m: Metrics) {
    var labels := if "app_info" in m && |m["app_info"]| == 1 then m["app_info"][0].labels else [];
    && GivesText(labels, "camel_runtime_provider", "", r.provider)
    && GivesText(labels, "camel_runtime_version", "", r.version)
    && GivesText(labels, "camel_version", "", r.camelVersion)
  }

  lemma ExchangeHolds(m: Metrics)
    ensures HoldsCounters(ScrapedExchange(m), m)
  {
    var x := Gauge(m, LAST_TIMESTAMP, "", "");
    assert x == LevelIn(m, "camel_exchanges_last_timestamp", "", "");
  }

  lemma ResourcesHold(r: Resources, m: Metrics)
    ensures HoldsResources(ScrapedResources(r, m), m)
  {
    hide FormatFixed, ParseFixed, RoundedTo, NinetyPercent;
    var x := Gauge(m, CPU_USAGE, "", "") * 1000.0;
    FormatParse(x, 0);
    RoundedError(x, 1);
    assert Pow10(0) == 1;
    assert (RoundedTo(x, 1) - x) * 1.0 == RoundedTo(x, 1) - x;
  }

  lemma TextsHold(r: Runtime, m: Metrics)
    requires r.provider == "" && r.version == "" && r.camelVersion == ""
    ensures HoldsTexts(ScrapedRuntime(r, m), m)
  {
    hide GivesText;
    if "app_info" in m && |m["app_info"]| == 1 {
      LabelsGive(r, m["app_info"][0].labels);
    } else {
      LabelsGive(r, []);
    }
  }

  /** A pod as it is before inspection. */
  predicate IsBare(pod: Pod) { pod.runtime == None && pod.resources == NO_RESOURCES && pod.reason == "" }

  lemma HealthLeaves(pod: Pod, probe: Prober, conf: Conf)
    requires pod.observe.Some? && IsBare(pod)
    ensures var healthy := AfterHealth(pod, probe, conf).0;
            && healthy.observe.Some? && healthy.resources == NO_RESOURCES
            && (healthy.runtime.Some? ==> healthy.runtime.value == NO_RUNTIME.(status := healthy.runtime.value.status))
  {
    ScanStops(probe, conf.healthPorts, conf.healthEndpoints);
  }

  lemma MetricsLeave(pod: Pod, probe: Prober, conf: Conf, m: Metrics)
    requires pod.observe.Some? && ScrapedMetrics(probe, conf) == Some(m)
    ensures var scraped := AfterMetrics(pod, probe, conf).0;
            && scraped.runtime == Some(ScrapedRuntime(pod.runtime.GetOr(NO_RUNTIME), m))
            && scraped.resources == ScrapedResources(pod.resources, m)
  {
    hide ScrapedRuntime, ScrapedResources;
    ScanStops(probe, conf.metricsPorts, conf.metricsEndpoints);
  }

  lemma NoMetricsLeave(pod: Pod, probe: Prober, conf: Conf)
    requires pod.observe.Some? && ScrapedMetrics(probe, conf) == None
    ensures AfterMetrics(pod, probe, conf).0 == pod
  {
    MetricsErrorChangesNothing(pod, probe, conf);
  }

  lemma CpuLeaves(r: Resources, limit: Option<string>)
    ensures var s := AfterCpu(r, limit);
            && s.cpuUsed == r.cpuUsed && s.memoryUsed == r.memoryUsed && s.memoryMax == r.memoryMax
            && s.cpuMax == if limit.GetOr("") == "" then r.cpuMax else limit
  {
    hide ParseFixed, CpuAtLimit;
  }

  /** When the metrics search ends at readable metrics, every value of the inspected pod is what the metrics of its
      own name say; the CPU limit is the text handed in. */
  lemma InspectedHolds(pod: Pod, probe: Prober, conf: Conf, limit: Option<string>, m: Metrics)
    requires IsBare(pod) && Finds(probe, conf, m)
    ensures var r := Inspected(pod, probe, conf, limit);
            && r.runtime.Some? && HoldsTexts(r.runtime.value, m)
            && r.runtime.value.exchange.Some? && HoldsCounters(r.runtime.value.exchange.value, m)
            && HoldsResources(r.resources, m)
            && r.resources.cpuMax == if limit.GetOr("") == "" then None else limit
  {
    hide Finds, AfterHealth, AfterMetrics, AfterCpu, HoldsTexts, HoldsCounters, ScrapedExchange, ScrapedResources,
         HoldsResources, ScrapedMetrics;
    FindsByScan(probe, conf, m);
    var blank := pod.(observe := Some(NO_SERVICE));
    var (healthy, err) := AfterHealth(blank, probe, conf);
    HealthLeaves(blank, probe, conf);
    var reasoned := WithHealthReason(healthy, err);
    MetricsLeave(reasoned, probe, conf, m);
    TextsHold(reasoned.runtime.GetOr(NO_RUNTIME), m);
    ExchangeHolds(m);
    ResourcesHold(NO_RESOURCES, m);
    CpuLeaves(ScrapedResources(NO_RESOURCES, m), limit);
    ScrapedKeepsMax(m);
    ResourcesOnly(ScrapedResources(NO_RESOURCES, m), AfterCpu(ScrapedResources(NO_RESOURCES, m), limit), m);
  }

  lemma ScrapedKeepsMax(m: Metrics)
    ensures ScrapedResources(NO_RESOURCES, m).cpuMax == None
  {
  }

  lemma ResourcesOnly(r: Resources, s: Resources, m: Metrics)
    requires HoldsResources(r, m)
    requires s.cpuUsed == r.cpuUsed && s.memoryUsed == r.memoryUsed && s.memoryMax == r.memoryMax
    ensures HoldsResources(s, m)
  {
  }

  /** When it does not, nothing is known of the exchanges and the memory. */
  lemma UnscrapedHolds(pod: Pod, probe: Prober, conf: Conf, limit: Option<string>)
    requires IsBare(pod) && forall m :: !Finds(probe, conf, m)
    ensures var r := Inspected(pod, probe, conf, limit);
            && (r.runtime.Some? ==> r.runtime.value == NO_RUNTIME.(status := r.runtime.value.status))
            && r.resources.memoryUsed == None && r.resources.memoryMax == None && r.resources.cpuUsed == None
  {
    hide Finds, AfterHealth, AfterMetrics, AfterCpu, ScrapedMetrics;
    if m :| ScrapedMetrics(probe, conf) == Some(m) {
      FindsByScan(probe, conf, m);
    }
    var blank := pod.(observe := Some(NO_SERVICE));
    var (healthy, err) := AfterHealth(blank, probe, conf);
    HealthLeaves(blank, probe, conf);
    NoMetricsLeave(WithHealthReason(healthy, err), probe, conf);
    CpuLeaves(NO_RESOURCES, limit);
  }

  // ---- Health status and failures ---------------------------------------------------------

  /** The status of a pod is that of its health document, or the status line of an answer that carries none; whether
      metrics are found does not matter. */
  lemma StatusRecorded(pod: Pod, probe: Prober, conf: Conf, limit: Option<string>, at: Pair)
    requires IsBare(pod) && SearchEndsAt(probe, conf.healthPorts, conf.healthEndpoints, at)
    requires probe(at.port, at.endpoint).Response?
    ensures var a, status := probe(at.port, at.endpoint), StatusOf(Inspected(pod, probe, conf, limit)).GetOr("");
            if a.code == 200 || a.code == 503 then
              status == match a.health { case Parsed(s) => s case Unparsable(_) => "" }
            else status == Digits(a.code) + a.reason
  {
    hide AfterHealth, AfterMetrics, AfterCpu, SearchEndsAt;
    ScanEndsIff(probe, conf.healthPorts, conf.healthEndpoints, at);
    var blank := pod.(observe := Some(NO_SERVICE));
    var (healthy, err) := AfterHealth(blank, probe, conf);
    HealthEnds(blank, probe, conf, at);
    MetricsKeepStatus(WithHealthReason(healthy, err), probe, conf);
  }

  lemma HealthEnds(pod: Pod, probe: Prober, conf: Conf, at: Pair)
    requires pod.observe.Some? && pod.runtime == None && Scan(probe, conf.healthPorts, conf.healthEndpoints) == Some(at)
    requires probe(at.port, at.endpoint).Response?
    ensures var a, healthy := probe(at.port, at.endpoint), AfterHealth(pod, probe, conf).0;
            && healthy.observe.Some?
            && StatusOf(healthy).GetOr("")
               == if a.code == 200 || a.code == 503 then match a.health { case Parsed(s) => s case Unparsable(_) => "" }
                  else Digits(a.code) + a.reason
  {
    ScanStops(probe, conf.healthPorts, conf.healthEndpoints);
  }

  /** The health search of this pod ends without an error. */
  ghost predicate HealthIsRead(probe: Prober, conf: Conf) {
    exists at ::
      && SearchEndsAt(probe, conf.healthPorts, conf.healthEndpoints, at)
      && var a := probe(at.port, at.endpoint);
         a.Response? && (a.code == 200 || a.code == 503 ==> a.health.Parsed?)
  }

  lemma HealthReadByScan(pod: Pod, probe: Prober, conf: Conf)
    requires pod.observe.Some?
    ensures HealthIsRead(probe, conf) <==> AfterHealth(pod, probe, conf).1 == None
    ensures AfterHealth(pod, probe, conf).0.reason == pod.reason
  {
    forall at ensures SearchEndsAt(probe, conf.healthPorts, conf.healthEndpoints, at)
                      <==> Scan(probe, conf.healthPorts, conf.healthEndpoints) == Some(at) {
      ScanEndsIff(probe, conf.healthPorts, conf.healthEndpoints, at);
    }
    hide SearchEndsAt;
    ScanStops(probe, conf.healthPorts, conf.healthEndpoints);
  }

  /** The reason of a pod tells which scrapes failed: neither, the health scrape, the metrics scrape, or both in that
      order. */
  lemma ReasonTells(pod: Pod, probe: Prober, conf: Conf, limit: Option<string>) returns (h: string, m: string)
    requires IsBare(pod)
    ensures var healthy, found := HealthIsRead(probe, conf), exists metrics :: Finds(probe, conf, metrics);
            Inspected(pod, probe, conf, limit).reason
            == if healthy && found then ""
               else if healthy then "Could not scrape metrics endpoint: " + m
               else if found then "Could not scrape health endpoint: " + h
               else "Could not scrape health endpoint: " + h + ". " + ("Could not scrape metrics endpoint: " + m)
  {
    hide HealthIsRead, Finds, AfterHealth, AfterMetrics, AfterCpu, ScrapedMetrics;
    var blank := pod.(observe := Some(NO_SERVICE));
    var (healthy, err) := AfterHealth(blank, probe, conf);
    HealthReadByScan(blank, probe, conf);
    HealthLeaves(blank, probe, conf);
    var reasoned := WithHealthReason(healthy, err);
    var (scraped, failed) := AfterMetrics(reasoned, probe, conf);
    MetricsReadByScan(reasoned, probe, conf);
    h, m := err.GetOr(""), failed.GetOr("");
    if err.Some? {
      assert reasoned.reason == "Could not scrape health endpoint: " + h;
      assert reasoned.reason[0] == 'C';
    }
    if failed.Some? {
      ReasonAdded(scraped, m);
    }
  }

  lemma ReasonAdded(pod: Pod, m: string)
    ensures WithMetricsReason(pod, Some(m)).reason
         == if pod.reason == "" then "Could not scrape metrics endpoint: " + m
            else pod.reason + ". " + ("Could not scrape metrics endpoint: " + m)
  {
    if pod.reason == "" {
      assert "" + "Could not scrape metrics endpoint: " + m == "Could not scrape metrics endpoint: " + m;
    } else {
      assert pod.reason + ". " + "Could not scrape metrics endpoint: " + m
          == pod.reason + ". " + ("Could not scrape metrics endpoint: " + m);
    }
  }

  lemma MetricsReadByScan(pod: Pod, probe: Prober, conf: Conf)
    requires pod.observe.Some?
    ensures (exists m :: Finds(probe, conf, m)) <==> AfterMetrics(pod, probe, conf).1 == None
    ensures AfterMetrics(pod, probe, conf).0.reason == pod.reason
  {
    hide Finds;
    MetricsErrorChangesNothing(pod, probe, conf);
    if m :| Finds(probe, conf, m) {
      FindsByScan(probe, conf, m);
    }
    if m :| ScrapedMetrics(probe, conf) == Some(m) {
      FindsByScan(probe, conf, m);
    }
  }
}
