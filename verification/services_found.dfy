/** What a scrape records about where a pod answers, and what the recorded pair does to the next search. */
module ServicesFound {
  import opened Options
  import opened Api
  import opened EndpointScan
  import opened PairMemory
  import opened ObservabilityConf
  import opened Probing
  import opened MetricsReading
  import opened Decimal

  // ---- What is recorded -------------------------------------------------------------------

  predicate MetricsOk(a: Answer) { a.Response? && a.code == 200 && a.metrics.Parsed? }

  /** Metrics record the pair where the search ends only when everything about the answer is fine. */
  function MetricsRecorded(probe: Prober, ports: seq<string>, endpoints: seq<string>): Option<Pair> {
    match Scan(probe, ports, endpoints)
    case Some(at) => if MetricsOk(probe(at.port, at.endpoint)) then Some(at) else None
    case None => None
  }

  /** Health records the pair before it reads the body. */
  function HealthRecorded(probe: Prober, ports: seq<string>, endpoints: seq<string>): Option<Pair> {
    match Scan(probe, ports, endpoints)
    case Some(at) => if ReportsHealth(probe(at.port, at.endpoint)) then Some(at) else None
    case None => None
  }

  /** By codes: metrics are recorded where the search ends with the code 200 and readable metrics. */
  lemma MetricsRecordedIff(probe: Prober, ports: seq<string>, endpoints: seq<string>, at: Pair)
    ensures MetricsRecorded(probe, ports, endpoints) == Some(at)
            <==> && SearchEndsAt(probe, ports, endpoints, at)
                 && var a := probe(at.port, at.endpoint); a.Response? && a.code == 200 && a.metrics.Parsed?
  {
    hide SearchEndsAt;
    ScanEndsIff(probe, ports, endpoints, at);
  }

  /** Health is recorded where the search ends with the code 200 or 503. */
  lemma HealthRecordedIff(probe: Prober, ports: seq<string>, endpoints: seq<string>, at: Pair)
    ensures HealthRecorded(probe, ports, endpoints) == Some(at)
            <==> && SearchEndsAt(probe, ports, endpoints, at)
                 && var a := probe(at.port, at.endpoint); a.Response? && (a.code == 200 || a.code == 503)
  {
    hide SearchEndsAt;
    ScanEndsIff(probe, ports, endpoints, at);
  }

  function Service(health: Option<Pair>, metrics: Option<Pair>): ObsService {
    var h, m := health.GetOr(NO_PAIR), metrics.GetOr(NO_PAIR);
    ObsService(h.endpoint, h.port, m.endpoint, m.port)
  }

  /** The service record of a pod that answers like this, under this configuration. */
  function ServiceFound(probe: Prober, conf: Conf): ObsService {
    Service(HealthRecorded(probe, conf.healthPorts, conf.healthEndpoints),
            MetricsRecorded(probe, conf.metricsPorts, conf.metricsEndpoints))
  }

  /** Inspecting a pod records exactly that service. */
  lemma InspectionRecords(pod: Pod, probe: Prober, conf: Conf, limit: Option<string>)
    ensures Inspected(pod, probe, conf, limit).observe == Some(ServiceFound(probe, conf))
    ensures Inspected(pod, probe, conf, limit).identity == pod.identity
  {
    var blank := pod.(observe := Some(NO_SERVICE));
    HealthRecords(blank, probe, conf);
    var (healthy, err) := AfterHealth(blank, probe, conf);
    MetricsRecords(WithHealthReason(healthy, err), probe, conf);
  }

  lemma HealthRecords(pod: Pod, probe: Prober, conf: Conf)
    requires pod.observe == Some(NO_SERVICE)
    ensures var found := HealthRecorded(probe, conf.healthPorts, conf.healthEndpoints);
            AfterHealth(pod, probe, conf).0.observe == Some(Service(found, None))
    ensures AfterHealth(pod, probe, conf).0.identity == pod.identity
  {
  }

  lemma MetricsRecords(pod: Pod, probe: Prober, conf: Conf)
    requires pod.observe.Some? && pod.observe.value.metricsPort == "" && pod.observe.value.metricsEndpoint == ""
    ensures var found := MetricsRecorded(probe, conf.metricsPorts, conf.metricsEndpoints).GetOr(NO_PAIR);
            AfterMetrics(pod, probe, conf).0.observe
            == Some(pod.observe.value.(metricsPort := found.port, metricsEndpoint := found.endpoint))
    ensures AfterMetrics(pod, probe, conf).0.identity == pod.identity
    ensures AfterMetrics(pod, probe, conf).1.Some? ==> AfterMetrics(pod, probe, conf).0 == pod
  {
    ScanStops(probe, conf.metricsPorts, conf.metricsEndpoints);
  }

  /** A metrics scrape that reports an error leaves the pod exactly as it was, and one that does not is a success. */
  lemma MetricsErrorChangesNothing(pod: Pod, probe: Prober, conf: Conf)
    requires pod.observe.Some?
    ensures AfterMetrics(pod, probe, conf).1.Some?
            <==> MetricsRecorded(probe, conf.metricsPorts, conf.metricsEndpoints) == None
    ensures AfterMetrics(pod, probe, conf).1.Some? ==> AfterMetrics(pod, probe, conf).0 == pod
  {
    ScanStops(probe, conf.metricsPorts, conf.metricsEndpoints);
  }

  function MetricsPart(s: ObsService): Pair { Pair(s.metricsPort, s.metricsEndpoint) }
  function HealthPart(s: ObsService): Pair { Pair(s.healthPort, s.healthEndpoint) }

  /** A pair in which both halves are remembered. */
  predicate IsRemembered(at: Pair) { at.port != "" && at.endpoint != "" }

  /** The annotations and settings that choose candidates for the two searches. */
  function MetricsChoice(a: Annotations): (string, string) { (Lookup(a, METRICS_PORTS), Lookup(a, METRICS_ENDPOINTS)) }
  function HealthChoice(a: Annotations): (string, string) { (Lookup(a, HEALTH_PORTS), Lookup(a, HEALTH_ENDPOINTS)) }

  // ---- Pods that answer alike -------------------------------------------------------------

  /** Two answers between which a search does not distinguish. */
  predicate Similar(a: Answer, b: Answer) { a.Unreachable? == b.Unreachable? && Stops(a) == Stops(b) }

  lemma {:induction false} EndpointSimilar(p: Prober, q: Prober, port: string, endpoints: seq<string>)
    requires forall e :: e in endpoints ==> Similar(p(port, e), q(port, e))
    ensures FirstEndpoint(p, port, endpoints) == FirstEndpoint(q, port, endpoints)
  {
    if endpoints != [] {
      assert endpoints[0] in endpoints;
      EndpointSimilar(p, q, port, endpoints[1..]);
    }
  }

  lemma {:induction false} ScanSimilar(p: Prober, q: Prober, ports: seq<string>, endpoints: seq<string>)
    requires forall r, e :: r in ports && e in endpoints ==> Similar(p(r, e), q(r, e))
    ensures Scan(p, ports, endpoints) == Scan(q, ports, endpoints)
  {
    if ports != [] {
      assert ports[0] in ports;
      EndpointSimilar(p, q, ports[0], endpoints);
      ScanSimilar(p, q, ports[1..], endpoints);
    }
  }

  /** Two answers that may differ in what they measure, but not in what a search makes of them. */
  predicate SameVerdict(a: Answer, b: Answer) {
    Similar(a, b) && MetricsOk(a) == MetricsOk(b) && ReportsHealth(a) == ReportsHealth(b)
  }

  /** Every pair a search under these choices may try. */
  function Asked(conf: Conf): set<Pair> {
    Product(conf.metricsPorts, conf.metricsEndpoints) + Product(conf.healthPorts, conf.healthEndpoints)
  }

  function Product(ports: seq<string>, endpoints: seq<string>): set<Pair> {
    set p, e | p in ports && e in endpoints :: Pair(p, e)
  }

  lemma AlikeScan(p: Prober, q: Prober, ports: seq<string>, endpoints: seq<string>)
    requires forall at :: at in Product(ports, endpoints) ==>
               SameVerdict(p(at.port, at.endpoint), q(at.port, at.endpoint))
    ensures MetricsRecorded(p, ports, endpoints) == MetricsRecorded(q, ports, endpoints)
    ensures HealthRecorded(p, ports, endpoints) == HealthRecorded(q, ports, endpoints)
  {
    forall r, e | r in ports && e in endpoints ensures Similar(p(r, e), q(r, e)) {
      assert Pair(r, e) in Product(ports, endpoints);
    }
    ScanSimilar(p, q, ports, endpoints);
    ScanEndsInProduct(p, ports, endpoints);
  }

  lemma ScanEndsInProduct(probe: Prober, ports: seq<string>, endpoints: seq<string>)
    ensures var hit := Scan(probe, ports, endpoints);
            hit.Some? ==>
              && hit.value in Product(ports, endpoints)
              && hit.value.port in ports && hit.value.endpoint in endpoints
  {
    ScanEndsOnPort(probe, ports, endpoints);
    if Scan(probe, ports, endpoints).Some? {
      var hit := Scan(probe, ports, endpoints).value;
      EndpointFoundIff(probe, hit.port, endpoints, hit.endpoint);
      assert Pair(hit.port, hit.endpoint) == hit;
    }
  }

  lemma AlikeFound(p: Prober, q: Prober, conf: Conf)
    requires forall at :: at in Asked(conf) ==> SameVerdict(p(at.port, at.endpoint), q(at.port, at.endpoint))
    ensures ServiceFound(p, conf) == ServiceFound(q, conf)
  {
    AlikeScan(p, q, conf.healthPorts, conf.healthEndpoints);
    AlikeScan(p, q, conf.metricsPorts, conf.metricsEndpoints);
  }

  lemma CandidatesAgain(annotation: string, env: string, defaults: seq<string>, existing: string, w: string)
    requires w in Candidates(annotation, env, defaults, existing) && "" !in defaults
    ensures forall x :: x in Candidates(annotation, env, defaults, w) ==>
               x in Candidates(annotation, env, defaults, existing)
  {
  }

  /** A search that remembers what another search ended at, or nothing, tries only what that one or a full one tries. */
  lemma ProductAgain(annotations: (string, string), envs: (string, string), defaults: (seq<string>, seq<string>),
                     existing: Pair, hit: Option<Pair>)
    requires "" !in defaults.0 && "" !in defaults.1
    requires hit.Some? ==>
               && hit.value.port in Candidates(annotations.0, envs.0, defaults.0, existing.port)
               && hit.value.endpoint in Candidates(annotations.1, envs.1, defaults.1, existing.endpoint)
    ensures var now := hit.GetOr(NO_PAIR);
            Product(Candidates(annotations.0, envs.0, defaults.0, now.port),
                    Candidates(annotations.1, envs.1, defaults.1, now.endpoint))
            <= (if hit.Some?
                then Product(Candidates(annotations.0, envs.0, defaults.0, existing.port),
                             Candidates(annotations.1, envs.1, defaults.1, existing.endpoint))
                else Product(Candidates(annotations.0, envs.0, defaults.0, ""),
                             Candidates(annotations.1, envs.1, defaults.1, "")))
  {
    if hit.Some? {
      CandidatesAgain(annotations.0, envs.0, defaults.0, existing.port, hit.value.port);
      CandidatesAgain(annotations.1, envs.1, defaults.1, existing.endpoint, hit.value.endpoint);
    }
  }

  /** Searching from what a search recorded tries nothing that neither that search nor a full one would try. */
  lemma AskedAgain(probe: Prober, a: Annotations, env: Environment, existing: ObsService)
    ensures var conf := ConfWith(a, env, existing);
            Asked(ConfWith(a, env, ServiceFound(probe, conf))) <= Asked(conf) + Asked(FullConf(a, env))
  {
    hide Product, Candidates, Lookup, Scan;
    var conf := ConfWith(a, env, existing);
    ScanEndsInProduct(probe, conf.metricsPorts, conf.metricsEndpoints);
    ProductAgain(MetricsChoice(a), (env.metricsPorts, env.metricsEndpoints), (DEFAULT_PORTS, DEFAULT_METRICS),
                 MetricsPart(existing),
                 MetricsRecorded(probe, conf.metricsPorts, conf.metricsEndpoints));
    ScanEndsInProduct(probe, conf.healthPorts, conf.healthEndpoints);
    ProductAgain(HealthChoice(a), (env.healthPorts, env.healthEndpoints), (DEFAULT_PORTS, DEFAULT_HEALTH),
                 HealthPart(existing),
                 HealthRecorded(probe, conf.healthPorts, conf.healthEndpoints));
  }

  // ---- Searching from what was recorded ---------------------------------------------------

  /** A search over remembered candidates cannot go astray: either the defaults are in force, so that both halves of a
      recorded pair are remembered, or only the port decides reachability. */
  predicate Searchable(probe: Prober, ports: seq<string>, endpoints: seq<string>, defaults: bool) {
    (defaults && "" !in ports && "" !in endpoints) || PortUniform(probe, ports, endpoints)
  }

  /** Remembering the winner of the full search, searching again ends where the full search ended. */
  lemma RememberedScanAgrees(probe: Prober, annotations: (string, string), envs: (string, string),
                             defaults: (seq<string>, seq<string>), hit: Pair)
    requires var ports := Candidates(annotations.0, envs.0, defaults.0, "");
             var endpoints := Candidates(annotations.1, envs.1, defaults.1, "");
             && Scan(probe, ports, endpoints) == Some(hit)
             && Searchable(probe, ports, endpoints, annotations == ("", "") && envs == ("", ""))
    ensures Scan(probe, Candidates(annotations.0, envs.0, defaults.0, hit.port),
                        Candidates(annotations.1, envs.1, defaults.1, hit.endpoint)) == Some(hit)
  {
    var ports := Candidates(annotations.0, envs.0, defaults.0, "");
    var endpoints := Candidates(annotations.1, envs.1, defaults.1, "");
    ScanStops(probe, ports, endpoints);
    PairFoundIff(probe, ports, endpoints, hit.port, hit.endpoint);
    EndpointFoundIff(probe, hit.port, endpoints, hit.endpoint);
    if PortUniform(probe, ports, endpoints) {
      CandidatesNarrow(annotations.0, envs.0, defaults.0, hit.port, hit.port);
      CandidatesNarrow(annotations.1, envs.1, defaults.1, hit.endpoint, hit.endpoint);
      NarrowedScanAgrees(probe, ports, endpoints, Candidates(annotations.0, envs.0, defaults.0, hit.port),
                         Candidates(annotations.1, envs.1, defaults.1, hit.endpoint));
    } else {
      assert hit.port != "" && hit.endpoint != "";
      assert Scan(probe, [hit.port], [hit.endpoint]) == Some(hit);
    }
  }

  ghost predicate AllSearchable(probe: Prober, a: Annotations, env: Environment) {
    var full := FullConf(a, env);
    && Searchable(probe, full.metricsPorts, full.metricsEndpoints, MetricsDefaults(a, env))
    && Searchable(probe, full.healthPorts, full.healthEndpoints, HealthDefaults(a, env))
  }

  /** Whether nothing or the service of the full search is remembered, the same service is found. */
  lemma RememberedServiceAgrees(probe: Prober, a: Annotations, env: Environment, existing: ObsService)
    requires AllSearchable(probe, a, env)
    requires existing == NO_SERVICE || existing == ServiceFound(probe, FullConf(a, env))
    ensures ServiceFound(probe, ConfWith(a, env, existing)) == ServiceFound(probe, FullConf(a, env))
  {
    var full := FullConf(a, env);
    if MetricsRecorded(probe, full.metricsPorts, full.metricsEndpoints).Some? && existing != NO_SERVICE {
      RememberedScanAgrees(probe, MetricsChoice(a), (env.metricsPorts, env.metricsEndpoints),
                           (DEFAULT_PORTS, DEFAULT_METRICS),
                           MetricsRecorded(probe, full.metricsPorts, full.metricsEndpoints).value);
    }
    if HealthRecorded(probe, full.healthPorts, full.healthEndpoints).Some? && existing != NO_SERVICE {
      RememberedScanAgrees(probe, HealthChoice(a), (env.healthPorts, env.healthEndpoints),
                           (DEFAULT_PORTS, DEFAULT_HEALTH),
                           HealthRecorded(probe, full.healthPorts, full.healthEndpoints).value);
    }
  }

  /** With the defaults in force, each of the two searches of a pod issues one request when its pair is remembered: so
      an inspection issues two, one for health and one for metrics. */
  lemma RememberedPairCostsOneProbe(probe: Prober, a: Annotations, env: Environment, existing: ObsService)
    ensures var conf := ConfWith(a, env, existing);
            && (MetricsDefaults(a, env) && IsRemembered(MetricsPart(existing)) ==>
                  Trace(probe, conf.metricsPorts, conf.metricsEndpoints) == [MetricsPart(existing)])
            && (HealthDefaults(a, env) && IsRemembered(HealthPart(existing)) ==>
                  Trace(probe, conf.healthPorts, conf.healthEndpoints) == [HealthPart(existing)])
  {
    TraceOnePair(probe, MetricsPart(existing));
    TraceOnePair(probe, HealthPart(existing));
  }

  lemma TraceOnePair(probe: Prober, at: Pair)
    ensures Trace(probe, [at.port], [at.endpoint]) == [at]
  {
    assert [at.port][1..] == [] && [at.endpoint][1..] == [];
    assert PortTrace(probe, at.port, [at.endpoint]) == [at];
  }

  // ---- When the recorded pair stops working -----------------------------------------------

  lemma ScanOnePair(probe: Prober, at: Pair)
    ensures Scan(probe, [at.port], [at.endpoint]) == if Stops(probe(at.port, at.endpoint)) then Some(at) else None
  {
    var ports, endpoints := [at.port], [at.endpoint];
    assert FirstEndpoint(probe, at.port, endpoints[1..]) == None;
    assert FirstEndpoint(probe, at.port, endpoints)
        == if Stops(probe(at.port, at.endpoint)) then Some(at.endpoint) else None;
    assert Scan(probe, ports[1..], endpoints) == None;
  }

  /** With the defaults in force, a remembered metrics pair is recorded again exactly while it works. */
  lemma RememberedMetricsRecordedIff(probe: Prober, a: Annotations, env: Environment, existing: ObsService)
    requires MetricsDefaults(a, env) && existing.metricsPort != "" && existing.metricsEndpoint != ""
    ensures var conf, at := ConfWith(a, env, existing), Pair(existing.metricsPort, existing.metricsEndpoint);
            MetricsRecorded(probe, conf.metricsPorts, conf.metricsEndpoints)
            == if MetricsOk(probe(at.port, at.endpoint)) then Some(at) else None
  {
    ScanOnePair(probe, Pair(existing.metricsPort, existing.metricsEndpoint));
  }

  /** A remembered health pair is recorded again exactly while it answers 200 or 503, whatever the body says. */
  lemma RememberedHealthRecordedIff(probe: Prober, a: Annotations, env: Environment, existing: ObsService)
    requires HealthDefaults(a, env) && existing.healthPort != "" && existing.healthEndpoint != ""
    ensures var conf, at := ConfWith(a, env, existing), Pair(existing.healthPort, existing.healthEndpoint);
            HealthRecorded(probe, conf.healthPorts, conf.healthEndpoints)
            == if ReportsHealth(probe(at.port, at.endpoint)) then Some(at) else None
  {
    ScanOnePair(probe, Pair(existing.healthPort, existing.healthEndpoint));
  }

  lemma ScanEndsInside(probe: Prober, ports: seq<string>, endpoints: seq<string>)
    requires "" !in ports && "" !in endpoints
    ensures var hit := Scan(probe, ports, endpoints); hit.Some? ==> IsRemembered(hit.value)
  {
    ScanEndsInProduct(probe, ports, endpoints);
  }

  /** What the full search records, and which pairs are recorded again. */
  function MetricsFound(probe: Prober, a: Annotations, env: Environment): Option<Pair> {
    MetricsRecorded(probe, FullConf(a, env).metricsPorts, FullConf(a, env).metricsEndpoints)
  }

  function HealthFoundAt(probe: Prober, a: Annotations, env: Environment): Option<Pair> {
    HealthRecorded(probe, FullConf(a, env).healthPorts, FullConf(a, env).healthEndpoints)
  }

  function MetricsWork(probe: Prober): Pair -> bool { (at: Pair) => MetricsOk(probe(at.port, at.endpoint)) }
  function HealthReports(probe: Prober): Pair -> bool { (at: Pair) => ReportsHealth(probe(at.port, at.endpoint)) }

  predicate NoneOrWhole(at: Pair) { at == NO_PAIR || IsRemembered(at) }

  /** With the defaults in force, a search turns what is remembered for metrics as the memory of pairs says. */
  lemma MetricsTurn(probe: Prober, a: Annotations, env: Environment, was: ObsService)
    requires MetricsDefaults(a, env) && NoneOrWhole(MetricsPart(was))
    ensures Sound(MetricsFound(probe, a, env), MetricsWork(probe))
    ensures var now := MetricsPart(ServiceFound(probe, ConfWith(a, env, was)));
            NoneOrWhole(now) && now == Recorded(MetricsPart(was), MetricsFound(probe, a, env), MetricsWork(probe))
  {
    var full := FullConf(a, env);
    ScanEndsInside(probe, full.metricsPorts, full.metricsEndpoints);
    if MetricsPart(was) != NO_PAIR {
      RememberedMetricsRecordedIff(probe, a, env, was);
    }
  }

  lemma HealthTurn(probe: Prober, a: Annotations, env: Environment, was: ObsService)
    requires HealthDefaults(a, env) && NoneOrWhole(HealthPart(was))
    ensures Sound(HealthFoundAt(probe, a, env), HealthReports(probe))
    ensures var now := HealthPart(ServiceFound(probe, ConfWith(a, env, was)));
            NoneOrWhole(now) && now == Recorded(HealthPart(was), HealthFoundAt(probe, a, env), HealthReports(probe))
  {
    var full := FullConf(a, env);
    ScanEndsInside(probe, full.healthPorts, full.healthEndpoints);
    if HealthPart(was) != NO_PAIR {
      RememberedHealthRecordedIff(probe, a, env, was);
    }
  }

  // ---- Health -----------------------------------------------------------------------------

  /** The first answer other than a 404, on the first port that is not given up, has the code 200 or 503 and a health
      document saying UP. */
  ghost predicate SaysUp(probe: Prober, conf: Conf) {
    exists at ::
      && SearchEndsAt(probe, conf.healthPorts, conf.healthEndpoints, at)
      && var a := probe(at.port, at.endpoint);
         a.Response? && (a.code == 200 || a.code == 503) && a.health == Parsed("UP")
  }

  lemma SaysUpByScan(probe: Prober, conf: Conf)
    ensures SaysUp(probe, conf)
         == match Scan(probe, conf.healthPorts, conf.healthEndpoints)
            case Some(at) =>
              var a := probe(at.port, at.endpoint); ReportsHealth(a) && a.health == Parsed(POD_STATUS_UP)
            case None => false
  {
    forall at | SearchEndsAt(probe, conf.healthPorts, conf.healthEndpoints, at)
      ensures Scan(probe, conf.healthPorts, conf.healthEndpoints) == Some(at)
    {
      ScanEndsIff(probe, conf.healthPorts, conf.healthEndpoints, at);
    }
    if Scan(probe, conf.healthPorts, conf.healthEndpoints).Some? {
      var at := Scan(probe, conf.healthPorts, conf.healthEndpoints).value;
      ScanEndsIff(probe, conf.healthPorts, conf.healthEndpoints, at);
    }
  }

  /** Metrics bodies play no part in it: answers that differ only there say the same. */
  lemma MetricsDoNotTouchHealth(p: Prober, q: Prober, conf: Conf)
    requires forall port, e :: port in conf.healthPorts && e in conf.healthEndpoints ==>
               p(port, e) == q(port, e)
               || (&& p(port, e).Response? && q(port, e).Response?
                   && p(port, e).code == q(port, e).code && p(port, e).health == q(port, e).health)
    ensures SaysUp(p, conf) == SaysUp(q, conf)
  {
    SaysUpByScan(p, conf);
    SaysUpByScan(q, conf);
    ScanSimilar(p, q, conf.healthPorts, conf.healthEndpoints);
    if Scan(p, conf.healthPorts, conf.healthEndpoints).Some? {
      var at := Scan(p, conf.healthPorts, conf.healthEndpoints).value;
      PairFoundIff(p, conf.healthPorts, conf.healthEndpoints, at.port, at.endpoint);
      EndpointFoundIff(p, at.port, conf.healthEndpoints, at.endpoint);
    }
  }

  function StatusOf(pod: Pod): Option<string> {
    if pod.runtime.Some? then Some(pod.runtime.value.status) else None
  }

  /** A freshly listed pod is up after inspection exactly when its health search says UP; metrics cannot change that. */
  lemma InspectedUpIff(pod: Pod, probe: Prober, conf: Conf, limit: Option<string>)
    requires pod.runtime == None
    ensures StatusOf(Inspected(pod, probe, conf, limit)) == Some(POD_STATUS_UP) <==> SaysUp(probe, conf)
  {
    var blank := pod.(observe := Some(NO_SERVICE));
    var (healthy, err) := AfterHealth(blank, probe, conf);
    HealthStatus(blank, probe, conf);
    MetricsKeepStatus(WithHealthReason(healthy, err), probe, conf);
  }

  lemma HealthStatus(pod: Pod, probe: Prober, conf: Conf)
    requires pod.observe.Some? && pod.runtime == None
    ensures StatusOf(AfterHealth(pod, probe, conf).0) == Some(POD_STATUS_UP) <==> SaysUp(probe, conf)
  {
    hide SaysUp;
    SaysUpByScan(probe, conf);
    ScanStops(probe, conf.healthPorts, conf.healthEndpoints);
  }

  /** Metrics leave the status alone; a runtime record created for metrics has no status. */
  lemma MetricsKeepStatus(pod: Pod, probe: Prober, conf: Conf)
    requires pod.observe.Some?
    ensures StatusOf(AfterMetrics(pod, probe, conf).0) == StatusOf(pod)
            || (StatusOf(pod) == None && StatusOf(AfterMetrics(pod, probe, conf).0) == Some(""))
  {
  }

  // ---- Pressure ---------------------------------------------------------------------------

  /** The metrics a pod is scraped at, where the search found working ones. */
  function ScrapedMetrics(probe: Prober, conf: Conf): Option<Metrics> {
    match MetricsRecorded(probe, conf.metricsPorts, conf.metricsEndpoints)
    case Some(at) => Some(probe(at.port, at.endpoint).metrics.value)
    case None => None
  }

  /** The scraped usage, in rounded millicores, reaches nine tenths of a positive limit. */
  predicate CpuPressed(m: Metrics, limit: nat) {
    limit > 0 && 10 * Millicores(Gauge(m, "process_cpu_usage", "", "")) >= 9 * limit
  }

  /** The scraped heap reaches nine tenths of a positive maximum, in whole bytes. */
  predicate MemoryPressed(m: Metrics) {
    var used := Truncate(Gauge(m, "jvm_memory_used_bytes", "area", "heap"));
    var max := Truncate(Gauge(m, "jvm_memory_max_bytes", "area", "heap"));
    max > 0 && 10 * used >= 9 * max
  }

  /** What a scrape leaves in the resources of a pod that had none. */
  predicate FromScrape(r: Resources, m: Option<Metrics>) {
    && !r.cpuPressure
    && (r.memoryPressure <==> m.Some? && MemoryPressed(m.value))
    && r.cpuUsed == match m
                    case Some(metrics) => Some(FormatFixed(Gauge(metrics, CPU_USAGE, "", "") * 1000.0, 0))
                    case None => None
  }

  lemma FlagIff(r: Resources, m: Option<Metrics>, limit: nat)
    requires FromScrape(r, m)
    ensures AfterCpu(r, Some(if limit > 0 then Digits(limit) else "")).cpuPressure
            <==> m.Some? && CpuPressed(m.value, limit)
  {
    if m.Some? && limit > 0 {
      CpuPressureSurvivesText(r, Gauge(m.value, CPU_USAGE, "", ""), limit);
    }
  }

  lemma HealthKeepsResources(pod: Pod, probe: Prober, conf: Conf)
    requires pod.observe.Some?
    ensures AfterHealth(pod, probe, conf).0.resources == pod.resources
  {
    ScanStops(probe, conf.healthPorts, conf.healthEndpoints);
  }

  lemma MetricsResources(pod: Pod, probe: Prober, conf: Conf)
    requires pod.observe.Some? && pod.resources == NO_RESOURCES
    ensures FromScrape(AfterMetrics(pod, probe, conf).0.resources, ScrapedMetrics(probe, conf))
  {
    hide FormatFixed, Gauge, MemoryPressed, NinetyPercent, Truncate;
    ScanStops(probe, conf.metricsPorts, conf.metricsEndpoints);
    if ScrapedMetrics(probe, conf).Some? {
      HeapFlagIff(ScrapedMetrics(probe, conf).value);
    }
  }

  lemma HeapFlagIff(m: Metrics)
    ensures ScrapedResources(NO_RESOURCES, m).memoryPressure <==> MemoryPressed(m)
  {
    var used, max := Truncate(Gauge(m, MEMORY_USED, "area", "heap")), Truncate(Gauge(m, MEMORY_MAX, "area", "heap"));
    if max > 0 {
      NinetyPercentIff(used, max);
    }
  }

  /** What inspection leaves in the resources: the scraped ones, then the comparison with the limit. */
  lemma InspectedResources(pod: Pod, probe: Prober, conf: Conf, limit: Option<string>) returns (r: Resources)
    requires pod.resources == NO_RESOURCES
    ensures Inspected(pod, probe, conf, limit).resources
            == AfterCpu(r, limit) && FromScrape(r, ScrapedMetrics(probe, conf))
  {
    hide AfterHealth, AfterMetrics, AfterCpu, FromScrape, ScrapedMetrics;
    var blank := pod.(observe := Some(NO_SERVICE));
    var (healthy, err) := AfterHealth(blank, probe, conf);
    HealthKeepsResources(blank, probe, conf);
    MetricsResources(WithHealthReason(healthy, err), probe, conf);
    r := AfterMetrics(WithHealthReason(healthy, err), probe, conf).0.resources;
  }

  /** From the scraped usage to the flag: a listed pod is under CPU pressure exactly when it is ready, its metrics were
      found, there is a positive limit, and the rounded millicores reach nine tenths of the limit. */
  lemma CpuPressureIff(o: PodObject, net: Network, conf: Conf, limit: nat)
    ensures var m := ScrapedMetrics(ProberOf(net, o.ip), conf);
            PodRecord(o, net, conf, true, Some(if limit > 0 then Digits(limit) else "")).resources.cpuPressure
            <==> Identified(o).identity.ready && m.Some? && CpuPressed(m.value, limit)
  {
    hide Inspected, AfterCpu, Digits, FromScrape, ScrapedMetrics;
    var probe := ProberOf(net, o.ip);
    if Identified(o).identity.ready {
      var r := InspectedResources(Identified(o), probe, conf, Some(if limit > 0 then Digits(limit) else ""));
      FlagIff(r, ScrapedMetrics(probe, conf), limit);
    }
  }

  /** And under memory pressure exactly when it is ready, its metrics were found, and the scraped heap reaches nine
      tenths of a positive maximum. */
  lemma MemoryPressureIff(o: PodObject, net: Network, conf: Conf, limit: Option<string>)
    ensures var m := ScrapedMetrics(ProberOf(net, o.ip), conf);
            PodRecord(o, net, conf, true, limit).resources.memoryPressure
            <==> Identified(o).identity.ready && m.Some? && MemoryPressed(m.value)
  {
    hide Inspected, ScrapedMetrics, MemoryPressed;
    var probe := ProberOf(net, o.ip);
    if Identified(o).identity.ready {
      var r := InspectedResources(Identified(o), probe, conf, limit);
      assert AfterCpu(r, limit).memoryPressure == r.memoryPressure;
    }
  }
}
