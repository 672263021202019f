/** Scraping one pod: health, metrics and CPU pressure, written into the pod's record in place. */
module Probing {
  import opened Options
  import opened Decimal
  import opened Api
  import opened ApiObjects
  import opened EndpointScan
  import opened ObservabilityConf
  import opened MetricsReading

  /** The HTTP client bound to one pod address; it keeps the requests it issued. */
  class Client {
    const probe: Prober
    var trace: seq<Pair>

    constructor (probe: Prober)
      ensures this.probe == probe && trace == []
    {
      this.probe, trace := probe, [];
    }

    method Get(port: string, endpoint: string) returns (a: Answer)
      modifies this
      ensures a == probe(port, endpoint)
      ensures trace == old(trace) + [Pair(port, endpoint)]
    {
      trace := trace + [Pair(port, endpoint)];
      a := probe(port, endpoint);
    }
  }

  // ---- Metrics ----------------------------------------------------------------------------

  /** At least 90 percent, by the division the operator performs. */
  predicate NinetyPercent(used: real, max: real)
    requires max != 0.0
  {
    used / max * 100.0 >= 90.0
  }

  /** The exchange counters of a scrape; every field is overwritten. */
  function ScrapedExchange(m: Metrics): Exchange {
    Exchange(
      Truncate(Counter(m, EXCHANGES_TOTAL).GetOr(0.0)),
      Truncate(Counter(m, EXCHANGES_SUCCEEDED).GetOr(0.0)),
      Truncate(Counter(m, EXCHANGES_FAILED).GetOr(0.0)),
      Truncate(Gauge(m, EXCHANGES_INFLIGHT, "", "")),
      Some(RoundHalfAway(Gauge(m, LAST_TIMESTAMP, "", ""))))
  }

  function ScrapedResources(r: Resources, m: Metrics): Resources {
    var used, max := Truncate(Gauge(m, MEMORY_USED, "area", "heap")), Truncate(Gauge(m, MEMORY_MAX, "area", "heap"));
    r.(cpuUsed := Some(FormatFixed(Gauge(m, CPU_USAGE, "", "") * 1000.0, 0)),
       memoryUsed := Some(used), memoryMax := Some(max),
       memoryPressure := r.memoryPressure || (max > 0 && NinetyPercent(used as real, max as real)))
  }

  /** A pod after its metrics were found at this pair. */
  function WithMetrics(pod: Pod, at: Pair, m: Metrics): Pod
    requires pod.observe.Some?
  {
    pod.(observe := Some(pod.observe.value.(metricsEndpoint := at.endpoint, metricsPort := at.port)),
         runtime := Some(ScrapedRuntime(pod.runtime.GetOr(NO_RUNTIME), m)),
         resources := ScrapedResources(pod.resources, m))
  }

  /** What one metrics answer, at the pair where the search ended, makes of the pod; the error is None for success. */
  function AfterMetricsAnswer(pod: Pod, at: Pair, a: Answer): (Pod, Option<string>)
    requires pod.observe.Some? && Stops(a)
  {
    match a
    case Malformed(error) => (pod, Some(error))
    case Response(code, _, metrics, _) =>
      if code != 200 then (pod, Some("HTTP status not OK, it was " + Digits(code)))
      else match metrics
        case Unparsable(message) => (pod, Some(message))
        case Parsed(m) => (WithMetrics(pod, at, m), None)
  }

  /** setMetrics as a function of the pod and of what the search finds. */
  function AfterMetrics(pod: Pod, probe: Prober, conf: Conf): (r: (Pod, Option<string>))
    requires pod.observe.Some?
  {
    match Scan(probe, conf.metricsPorts, conf.metricsEndpoints)
    case None => (pod, Some("no valid metrics endpoint found"))
    case Some(at) =>
      ScanStops(probe, conf.metricsPorts, conf.metricsEndpoints);
      AfterMetricsAnswer(pod, at, probe(at.port, at.endpoint))
  }

  lemma {:induction false} ScanStops(probe: Prober, ports: seq<string>, endpoints: seq<string>)
    ensures var hit := Scan(probe, ports, endpoints);
            hit.Some? ==> Stops(probe(hit.value.port, hit.value.endpoint))
  {
    ScanEndsOnPort(probe, ports, endpoints);
    if Scan(probe, ports, endpoints).Some? {
      var hit := Scan(probe, ports, endpoints).value;
      EndpointFoundIff(probe, hit.port, endpoints, hit.endpoint);
    }
  }

  /** Makes sure there is an exchange record to write to. */
  method EnsureExchange(p: PodInfo)
    modifies p`runtime, p.runtime
    ensures p.runtime != null && p.runtime.exchange != null
    ensures p.runtime == old(p.runtime) || fresh(p.runtime)
    ensures fresh(p.runtime.exchange) || (old(p.runtime) != null && p.runtime.exchange == old(p.runtime.exchange))
    ensures var was := old(p.RuntimeView()).GetOr(NO_RUNTIME);
            p.RuntimeView() == Some(was.(exchange := Some(was.exchange.GetOr(NO_EXCHANGE))))
  {
    if p.runtime == null {
      p.runtime := new RuntimeInfo("");
    }
    var r := p.runtime;
    if r.exchange == null {
      r.exchange := new ExchangeInfo();
    }
  }

  method StoreExchange(e: ExchangeInfo, m: Metrics)
    modifies e
    ensures e.View() == ScrapedExchange(m)
  {
    e.total := Truncate(Counter(m, EXCHANGES_TOTAL).GetOr(0.0));
    e.failed := Truncate(Counter(m, EXCHANGES_FAILED).GetOr(0.0));
    e.succeeded := Truncate(Counter(m, EXCHANGES_SUCCEEDED).GetOr(0.0));
    var inflight := GetGauge(m, EXCHANGES_INFLIGHT, "", "");
    e.pending := Truncate(inflight);
    var last := GetGauge(m, LAST_TIMESTAMP, "", "");
    e.lastTimestamp := Some(RoundHalfAway(last));
  }

  /** populateRuntimeInfo: a loop over the labels. */
  method StoreLabels(r: RuntimeInfo, labels: seq<(string, string)>)
    modifies r`provider, r`version, r`camelVersion
    ensures r.View() == ApplyLabels(old(r.View()), labels)
  {
    for i := 0 to |labels|
      invariant r.View() == ApplyLabels(old(r.View()), labels[..i])
    {
      assert labels[..i + 1][..i] == labels[..i];
      match labels[i].0 {
        case "camel_runtime_provider" => r.provider := labels[i].1;
        case "camel_runtime_version" => r.version := labels[i].1;
        case "camel_version" => r.camelVersion := labels[i].1;
        case _ =>
      }
    }
    assert labels[..|labels|] == labels;
  }

  method StoreResources(p: PodInfo, m: Metrics)
    modifies p`resources
    ensures p.resources == ScrapedResources(old(p.resources), m)
  {
    var cpu := GetGauge(m, CPU_USAGE, "", "");
    p.resources := p.resources.(cpuUsed := Some(FormatFixed(cpu * 1000.0, 0)));
    var used := GetGauge(m, MEMORY_USED, "area", "heap");
    p.resources := p.resources.(memoryUsed := Some(Truncate(used)));
    var max := GetGauge(m, MEMORY_MAX, "area", "heap");
    p.resources := p.resources.(memoryMax := Some(Truncate(max)));
    if Truncate(max) > 0 && NinetyPercent(Truncate(used) as real, Truncate(max) as real) {
      p.resources := p.resources.(memoryPressure := true);
    }
  }

  lemma LabelsIgnoreExchange(r: Runtime, labels: seq<(string, string)>, e: Option<Exchange>)
    ensures ApplyLabels(r.(exchange := e), labels) == ApplyLabels(r, labels).(exchange := e)
  {
  }

  /** The runtime of a pod after a scrape. */
  function ScrapedRuntime(r: Runtime, m: Metrics): Runtime {
    WithAppInfo(r, m).(exchange := Some(ScrapedExchange(m)))
  }

  method StoreRuntime(p: PodInfo, m: Metrics)
    modifies p`runtime, p.runtime, if p.runtime == null then null else p.runtime.exchange
    ensures p.runtime != null && p.runtime.exchange != null
    ensures p.runtime == old(p.runtime) || fresh(p.runtime)
    ensures fresh(p.runtime.exchange) || (old(p.runtime) != null && p.runtime.exchange == old(p.runtime.exchange))
    ensures p.RuntimeView() == Some(ScrapedRuntime(old(p.RuntimeView()).GetOr(NO_RUNTIME), m))
  {
    ghost var was := p.RuntimeView().GetOr(NO_RUNTIME);
    ghost var exchange := Some(was.exchange.GetOr(NO_EXCHANGE));
    EnsureExchange(p);
    if APP_INFO in m && |m[APP_INFO]| == 1 {
      LabelsIgnoreExchange(was, m[APP_INFO][0].labels, exchange);
      StoreLabels(p.runtime, m[APP_INFO][0].labels);
    }
    assert p.runtime.View() == WithAppInfo(was, m).(exchange := exchange);
    StoreExchange(p.runtime.exchange, m);
  }

  method StoreService(o: ObservabilityServiceInfo, port: string, endpoint: string)
    modifies o
    ensures o.View() == old(o.View()).(metricsEndpoint := endpoint, metricsPort := port)
  {
    o.metricsEndpoint := endpoint;
    o.metricsPort := port;
  }

  /** The writes of a successful scrape. */
  method StoreMetrics(p: PodInfo, port: string, endpoint: string, m: Metrics)
    requires p.observe != null
    modifies p.Reach()
    ensures p.View() == WithMetrics(old(p.View()), Pair(port, endpoint), m)
    ensures p.observe == old(p.observe) && fresh(p.Reach() - old(p.Reach()))
  {
    hide ScrapedResources, ScrapedRuntime;
    StoreService(p.observe, port, endpoint);
    StoreRuntime(p, m);
    StoreResources(p, m);
  }

  /** What is done with an answer that ends the search. */
  method ReadMetrics(p: PodInfo, port: string, endpoint: string, a: Answer) returns (err: Option<string>)
    requires p.observe != null && Stops(a)
    modifies p.Reach()
    ensures p.observe == old(p.observe) && fresh(p.Reach() - old(p.Reach()))
    ensures (p.View(), err) == AfterMetricsAnswer(old(p.View()), Pair(port, endpoint), a)
  {
    match a {
      case Malformed(error) => return Some(error);
      case Response(code, _, metrics, _) =>
        if code != 200 {
          return Some("HTTP status not OK, it was " + Digits(code));
        }
        match metrics {
          case Unparsable(message) => return Some(message);
          case Parsed(m) =>
            StoreMetrics(p, port, endpoint, m);
            return None;
        }
    }
  }

  /** collectMetrics: one request; answers whether the endpoint was found, whether the port works, and an error. */
  method CollectMetrics(client: Client, p: PodInfo, port: string, endpoint: string)
    returns (found: bool, portWorks: bool, err: Option<string>)
    requires p.observe != null
    modifies client, p.Reach()
    ensures client.trace == old(client.trace) + [Pair(port, endpoint)]
    ensures p.observe == old(p.observe) && fresh(p.Reach() - old(p.Reach()))
    ensures var a := client.probe(port, endpoint);
            if a.Malformed? || (a.Response? && a.code != 404) then
              && (p.View(), err) == AfterMetricsAnswer(old(p.View()), Pair(port, endpoint), a)
              && (err == None ==> found && portWorks)
            else
              && p.View() == old(p.View()) && p.Reach() == old(p.Reach()) && err == None
              && !found && portWorks == !a.Unreachable?
  {
    ghost var pod, reach := p.View(), p.Reach();
    var a := client.Get(port, endpoint);
    assert p.View() == pod && p.Reach() == reach;
    if a.Unreachable? {
      return false, false, None;
    }
    if a.Response? && a.code == 404 {
      return false, true, None;
    }
    err := ReadMetrics(p, port, endpoint, a);
    return err == None, a.Response?, err;
  }

  lemma Associative(a: seq<Pair>, b: seq<Pair>, c: seq<Pair>)
    ensures (a + b) + c == a + (b + c)
  {
  }

  /** The inner loop of setMetrics, over the endpoints of one port; a port that does not respond is left at once. */
  method TryMetricsPort(client: Client, p: PodInfo, port: string, endpoints: seq<string>)
    returns (done: bool, err: Option<string>)
    requires p.observe != null
    modifies client, p.Reach()
    ensures client.trace == old(client.trace) + PortTrace(client.probe, port, endpoints)
    ensures p.observe == old(p.observe) && fresh(p.Reach() - old(p.Reach()))
    ensures match FirstEndpoint(client.probe, port, endpoints)
            case None => !done && p.View() == old(p.View()) && p.Reach() == old(p.Reach())
            case Some(e) => done && Stops(client.probe(port, e))
                            && (p.View(), err)
                               == AfterMetricsAnswer(old(p.View()), Pair(port, e), client.probe(port, e))
  {
    ghost var probe, pod, reach, issued := client.probe, p.View(), p.Reach(), client.trace;
    for j := 0 to |endpoints|
      invariant p.View() == pod && p.Reach() == reach && p.observe == old(p.observe)
      invariant FirstEndpoint(probe, port, endpoints) == FirstEndpoint(probe, port, endpoints[j..])
      invariant client.trace + PortTrace(probe, port, endpoints[j..]) == issued + PortTrace(probe, port, endpoints)
    {
      assert endpoints[j..][1..] == endpoints[j + 1..];
      Associative(client.trace, [Pair(port, endpoints[j])], PortTrace(probe, port, endpoints[j + 1..]));
      var found, portWorks, e := CollectMetrics(client, p, port, endpoints[j]);
      if e != None {
        return true, e;
      }
      if !portWorks {
        // no reason to continue with the other endpoints of this port
        break;
      }
      if found {
        return true, None;
      }
    }
    return false, None;
  }

  /** setMetrics: the search over the ports. */
  method SetMetrics(client: Client, p: PodInfo, conf: Conf) returns (err: Option<string>)
    requires p.observe != null
    modifies client, p.Reach()
    ensures (p.View(), err) == AfterMetrics(old(p.View()), client.probe, conf)
    ensures client.trace == old(client.trace) + Trace(client.probe, conf.metricsPorts, conf.metricsEndpoints)
    ensures p.observe == old(p.observe) && fresh(p.Reach() - old(p.Reach()))
  {
    var ports, endpoints := conf.metricsPorts, conf.metricsEndpoints;
    ghost var probe, pod, reach, issued := client.probe, p.View(), p.Reach(), client.trace;
    for i := 0 to |ports|
      invariant p.View() == pod && p.Reach() == reach && p.observe == old(p.observe)
      invariant Scan(probe, ports, endpoints) == Scan(probe, ports[i..], endpoints)
      invariant client.trace + Trace(probe, ports[i..], endpoints) == issued + Trace(probe, ports, endpoints)
    {
      assert ports[i..][1..] == ports[i + 1..];
      Associative(client.trace, PortTrace(probe, ports[i], endpoints), Trace(probe, ports[i + 1..], endpoints));
      var done, e := TryMetricsPort(client, p, ports[i], endpoints);
      if done {
        return e;
      }
    }
    return Some("no valid metrics endpoint found");
  }

  // ---- Health -----------------------------------------------------------------------------

  /** resp.Status: the code followed by the reason phrase. */
  function StatusLine(code: nat, reason: string): (s: string)
    ensures s != POD_STATUS_UP
  {
    assert IsDigit(Digits(code)[0]);
    assert (Digits(code) + reason)[0] == Digits(code)[0];
    Digits(code) + reason
  }

  /** The runtime status is only set when no runtime is known yet. */
  function WithStatus(pod: Pod, status: string): Pod {
    if pod.runtime == None then pod.(runtime := Some(NO_RUNTIME.(status := status))) else pod
  }

  function WithHealthPair(pod: Pod, at: Pair): Pod
    requires pod.observe.Some?
  {
    pod.(observe := Some(pod.observe.value.(healthEndpoint := at.endpoint, healthPort := at.port)))
  }

  /** The codes whose body is a health document: 503 is how a service that is down still answers. */
  predicate ReportsHealth(a: Answer) { a.Response? && (a.code == 200 || a.code == 503) }

  function AfterHealthAnswer(pod: Pod, at: Pair, a: Answer): (r: (Pod, Option<string>))
    requires pod.observe.Some? && Stops(a)
    ensures r.0.observe.Some?
  {
    match a
    case Malformed(error) => (pod, Some(error))
    case Response(code, reason, _, health) =>
      if ReportsHealth(a) then
        match health
        case Unparsable(message) => (WithHealthPair(pod, at), Some(message))
        case Parsed(status) => (WithStatus(WithHealthPair(pod, at), status), None)
      else (WithStatus(pod, StatusLine(code, reason)), None)
  }

  /** setHealth as a function of the pod and of what the search finds. */
  function AfterHealth(pod: Pod, probe: Prober, conf: Conf): (r: (Pod, Option<string>))
    requires pod.observe.Some?
    ensures r.0.observe.Some?
  {
    match Scan(probe, conf.healthPorts, conf.healthEndpoints)
    case None => (pod, Some("no valid health endpoint found"))
    case Some(at) =>
      ScanStops(probe, conf.healthPorts, conf.healthEndpoints);
      AfterHealthAnswer(pod, at, probe(at.port, at.endpoint))
  }

  method StoreHealthPair(o: ObservabilityServiceInfo, port: string, endpoint: string)
    modifies o
    ensures o.View() == old(o.View()).(healthEndpoint := endpoint, healthPort := port)
  {
    o.healthPort := port;
    o.healthEndpoint := endpoint;
  }

  method StoreStatus(p: PodInfo, status: string)
    modifies p`runtime
    ensures p.View() == WithStatus(old(p.View()), status)
    ensures p.observe == old(p.observe) && fresh(p.Reach() - old(p.Reach()))
  {
    if p.runtime == null {
      p.runtime := new RuntimeInfo(status);
    }
  }

  /** checkHealthEndpoint: the pair is recorded before the body is parsed. */
  method CheckHealthEndpoint(client: Client, p: PodInfo, port: string, endpoint: string)
    returns (found: bool, portWorks: bool, err: Option<string>)
    requires p.observe != null
    modifies client, p.Reach()
    ensures client.trace == old(client.trace) + [Pair(port, endpoint)]
    ensures p.observe == old(p.observe) && fresh(p.Reach() - old(p.Reach()))
    ensures var a := client.probe(port, endpoint);
            if a.Malformed? || (a.Response? && a.code != 404) then
              && (p.View(), err) == AfterHealthAnswer(old(p.View()), Pair(port, endpoint), a)
              && (err == None ==> found && portWorks)
            else
              && p.View() == old(p.View()) && p.Reach() == old(p.Reach()) && err == None
              && !found && portWorks == !a.Unreachable?
  {
    ghost var pod, reach := p.View(), p.Reach();
    var a := client.Get(port, endpoint);
    assert p.View() == pod && p.Reach() == reach;
    match a {
      case Malformed(error) => return false, false, Some(error);
      case Unreachable => return false, false, None;
      case Response(code, reason, _, health) =>
        if code == 404 {
          return false, true, None;
        }
        var status := StatusLine(code, reason);
        if code == 200 || code == 503 {
          StoreHealthPair(p.observe, port, endpoint);
          assert p.View() == WithHealthPair(pod, Pair(port, endpoint)) && p.Reach() == reach;
          match health {
            case Unparsable(message) => return false, true, Some(message);
            case Parsed(s) => status := s;
          }
        }
        StoreStatus(p, status);
        return true, true, None;
    }
  }

  /** The inner loop of setHealth. */
  method TryHealthPort(client: Client, p: PodInfo, port: string, endpoints: seq<string>)
    returns (done: bool, err: Option<string>)
    requires p.observe != null
    modifies client, p.Reach()
    ensures client.trace == old(client.trace) + PortTrace(client.probe, port, endpoints)
    ensures p.observe == old(p.observe) && fresh(p.Reach() - old(p.Reach()))
    ensures match FirstEndpoint(client.probe, port, endpoints)
            case None => !done && p.View() == old(p.View()) && p.Reach() == old(p.Reach())
            case Some(e) => done && Stops(client.probe(port, e))
                            && (p.View(), err) == AfterHealthAnswer(old(p.View()), Pair(port, e), client.probe(port, e))
  {
    ghost var probe, pod, reach, issued := client.probe, p.View(), p.Reach(), client.trace;
    for j := 0 to |endpoints|
      invariant p.View() == pod && p.Reach() == reach && p.observe == old(p.observe)
      invariant FirstEndpoint(probe, port, endpoints) == FirstEndpoint(probe, port, endpoints[j..])
      invariant client.trace + PortTrace(probe, port, endpoints[j..]) == issued + PortTrace(probe, port, endpoints)
    {
      assert endpoints[j..][1..] == endpoints[j + 1..];
      Associative(client.trace, [Pair(port, endpoints[j])], PortTrace(probe, port, endpoints[j + 1..]));
      var found, portWorks, e := CheckHealthEndpoint(client, p, port, endpoints[j]);
      if e != None {
        return true, e;
      }
      if !portWorks {
        break;
      }
      if found {
        return true, None;
      }
    }
    return false, None;
  }

  /** setHealth: the search over the ports. */
  method SetHealth(client: Client, p: PodInfo, conf: Conf) returns (err: Option<string>)
    requires p.observe != null
    modifies client, p.Reach()
    ensures (p.View(), err) == AfterHealth(old(p.View()), client.probe, conf)
    ensures client.trace == old(client.trace) + Trace(client.probe, conf.healthPorts, conf.healthEndpoints)
    ensures p.observe == old(p.observe) && fresh(p.Reach() - old(p.Reach()))
  {
    var ports, endpoints := conf.healthPorts, conf.healthEndpoints;
    ghost var probe, pod, reach, issued := client.probe, p.View(), p.Reach(), client.trace;
    for i := 0 to |ports|
      invariant p.View() == pod && p.Reach() == reach && p.observe == old(p.observe)
      invariant Scan(probe, ports, endpoints) == Scan(probe, ports[i..], endpoints)
      invariant client.trace + Trace(probe, ports[i..], endpoints) == issued + Trace(probe, ports, endpoints)
    {
      assert ports[i..][1..] == ports[i + 1..];
      Associative(client.trace, PortTrace(probe, ports[i], endpoints), Trace(probe, ports[i + 1..], endpoints));
      var done, e := TryHealthPort(client, p, ports[i], endpoints);
      if done {
        return e;
      }
    }
    return Some("no valid health endpoint found");
  }

  // ---- CPU pressure -----------------------------------------------------------------------

  /** The comparison of two parsed numbers: division by a zero limit gives an infinity of the sign of the usage, or
      NaN, which compares false. */
  predicate CpuAtLimit(used: real, limit: real) {
    if limit == 0.0 then used > 0.0 else NinetyPercent(used, limit)
  }

  /** setCPUPressure on the consumed resources; None and the empty string mean there is no limit. */
  function AfterCpu(r: Resources, limit: Option<string>): Resources {
    if limit.GetOr("") == "" then r
    else
      var limited := r.(cpuMax := limit);
      if r.cpuUsed == None then limited
      else match (ParseFixed(r.cpuUsed.value), ParseFixed(limit.value))
        case (Some(used), Some(max)) => if CpuAtLimit(used, max) then limited.(cpuPressure := true) else limited
        case _ => limited
  }

  method SetCpuPressure(p: PodInfo, limit: Option<string>) returns (err: bool)
    modifies p`resources
    ensures p.resources == AfterCpu(old(p.resources), limit)
    ensures err ==> p.resources.cpuPressure == old(p.resources.cpuPressure)
  {
    if limit != None && limit.value != "" {
      p.resources := p.resources.(cpuMax := limit);
      if p.resources.cpuUsed != None {
        var used := ParseFixed(p.resources.cpuUsed.value);
        if used == None {
          return true;
        }
        var max := ParseFixed(limit.value);
        if max == None {
          return true;
        }
        if CpuAtLimit(used.value, max.value) {
          p.resources := p.resources.(cpuPressure := true);
        }
      }
    }
    return false;
  }

  /** A usage in millicores as it is printed: rounded half to even, sign kept. */
  function Millicores(cores: real): int {
    var n := Units(cores * 1000.0, 1);
    if cores < 0.0 then -(n as int) else n
  }

  /** The decimal texts carry the comparison: printing the usage and the limit and parsing both back sets the flag
      exactly when ten times the rounded millicores reach nine times the limit, for every usage and positive limit. */
  lemma CpuPressureSurvivesText(r: Resources, cores: real, limit: nat)
    requires limit > 0
    requires r.cpuUsed == Some(FormatFixed(cores * 1000.0, 0))
    ensures AfterCpu(r, Some(Digits(limit)))
         == r.(cpuMax := Some(Digits(limit)), cpuPressure := r.cpuPressure || 10 * Millicores(cores) >= 9 * limit)
  {
    var n := Millicores(cores);
    MillicoresRoundTrip(cores);
    LimitRoundTrip(limit);
    NinetyPercentIff(n, limit);
  }

  lemma MillicoresRoundTrip(cores: real)
    ensures ParseFixed(FormatFixed(cores * 1000.0, 0)) == Some(Millicores(cores) as real)
  {
    FormatParse(cores * 1000.0, 0);
    assert Pow10(0) == 1;
    OverUnique(Millicores(cores) as real, Millicores(cores), 1);
  }

  lemma LimitRoundTrip(limit: nat)
    ensures ParseFixed(Digits(limit)) == Some(limit as real)
  {
    ParseWhole(Digits(limit));
    DigitsRoundTrip(limit);
    ParseSign(Digits(limit));
  }

  /** The percentage test is the integer comparison by cross-multiplication. */
  lemma NinetyPercentIff(used: int, max: nat)
    requires max > 0
    ensures NinetyPercent(used as real, max as real) <==> 10 * used >= 9 * max
  {
    QuotientAtLeast(used as real / max as real, max as real, used as real);
  }

  lemma QuotientAtLeast(q: real, max: real, used: real)
    requires max > 0.0 && q * max == used
    ensures q * 100.0 >= 90.0 <==> 10.0 * used >= 9.0 * max
  {
    var d := q - 0.9;
    assert d * max == used - 0.9 * max;
    assert d >= 0.0 ==> d * max >= 0.0;
    assert d < 0.0 ==> d * max < 0.0;
  }

  // ---- One pod, all pods ------------------------------------------------------------------

  function WithHealthReason(pod: Pod, err: Option<string>): Pod {
    match err
    case None => pod
    case Some(e) => pod.(reason := "Could not scrape health endpoint: " + e)
  }

  function WithMetricsReason(pod: Pod, err: Option<string>): Pod {
    match err
    case None => pod
    case Some(e) =>
      pod.(reason := (if pod.reason != "" then pod.reason + ". " else "") + "Could not scrape metrics endpoint: " + e)
  }

  /** inspectPod as a function. */
  function Inspected(pod: Pod, probe: Prober, conf: Conf, limit: Option<string>): Pod {
    var (healthy, healthErr) := AfterHealth(pod.(observe := Some(NO_SERVICE)), probe, conf);
    var (scraped, metricsErr) := AfterMetrics(WithHealthReason(healthy, healthErr), probe, conf);
    var reasoned := WithMetricsReason(scraped, metricsErr);
    reasoned.(resources := AfterCpu(reasoned.resources, limit))
  }

  method ScrapeHealth(client: Client, p: PodInfo, conf: Conf)
    requires p.observe != null
    modifies client, p.Reach()
    ensures var r := AfterHealth(old(p.View()), client.probe, conf);
            p.View() == WithHealthReason(r.0, r.1)
    ensures client.trace == old(client.trace) + Trace(client.probe, conf.healthPorts, conf.healthEndpoints)
    ensures p.observe == old(p.observe) && fresh(p.Reach() - old(p.Reach()))
  {
    var err := SetHealth(client, p, conf);
    if err != None {
      p.reason := "Could not scrape health endpoint: " + err.value;
    }
  }

  method ScrapeMetrics(client: Client, p: PodInfo, conf: Conf)
    requires p.observe != null
    modifies client, p.Reach()
    ensures var r := AfterMetrics(old(p.View()), client.probe, conf);
            p.View() == WithMetricsReason(r.0, r.1)
    ensures client.trace == old(client.trace) + Trace(client.probe, conf.metricsPorts, conf.metricsEndpoints)
    ensures p.observe == old(p.observe) && fresh(p.Reach() - old(p.Reach()))
  {
    var err := SetMetrics(client, p, conf);
    if err != None {
      p.reason := (if p.reason != "" then p.reason + ". " else "") + "Could not scrape metrics endpoint: " + err.value;
    }
  }

  method InspectPod(client: Client, p: PodInfo, conf: Conf, limit: Option<string>)
    modifies client, p.Reach()
    ensures p.View() == Inspected(old(p.View()), client.probe, conf, limit)
    ensures client.trace == old(client.trace) + Trace(client.probe, conf.healthPorts, conf.healthEndpoints)
                                              + Trace(client.probe, conf.metricsPorts, conf.metricsEndpoints)
  {
    hide AfterHealth, AfterMetrics, AfterCpu, WithHealthReason, WithMetricsReason, Trace;
    ghost var pod := p.View();
    p.observe := new ObservabilityServiceInfo();
    assert p.View() == pod.(observe := Some(NO_SERVICE));
    ScrapeHealth(client, p, conf);
    ScrapeMetrics(client, p, conf);
    ghost var scraped := p.View();
    var _ := SetCpuPressure(p, limit);
    assert p.View() == scraped.(resources := AfterCpu(scraped.resources, limit));
  }

  /** What Kubernetes lists about a pod: its Ready condition, if any, has a status and a transition time. */
  datatype PodObject = PodObject(name: string, ip: string, phase: string, readyCondition: Option<(bool, Time)>,
                                 jolokia: bool)

  /** The network: address, port and endpoint to an answer. */
  type Network = (string, string, string) -> Answer

  function ProberOf(net: Network, ip: string): Prober { (port, endpoint) => net(ip, port, endpoint) }

  function Identified(o: PodObject): Pod {
    Pod(Identity(o.name, o.ip, o.phase,
                 if o.readyCondition == None then None else Some(o.readyCondition.value.1),
                 o.readyCondition != None && o.readyCondition.value.0, o.jolokia),
        "", None, None, NO_RESOURCES)
  }

  /** The record of one listed pod: only a ready pod is scraped, and only when inspection is wanted. */
  function PodRecord(o: PodObject, net: Network, conf: Conf, inspect: bool, limit: Option<string>): Pod {
    var pod := Identified(o);
    if pod.identity.ready && inspect then Inspected(pod, ProberOf(net, o.ip), conf, limit) else pod
  }

  function PodRecords(os: seq<PodObject>, net: Network, conf: Conf, inspect: bool,
                      limit: Option<string>): (pods: seq<Pod>)
    ensures |pods| == |os|
    ensures forall i :: 0 <= i < |os| ==> pods[i] == PodRecord(os[i], net, conf, inspect, limit)
  {
    seq(|os|, i requires 0 <= i < |os| => PodRecord(os[i], net, conf, inspect, limit))
  }

  /** getPods: one record per listed pod, appended in order. */
  method GetPods(os: seq<PodObject>, net: Network, conf: Conf, inspect: bool, limit: Option<string>)
    returns (pods: seq<Pod>)
    ensures pods == PodRecords(os, net, conf, inspect, limit)
  {
    pods := [];
    for i := 0 to |os|
      invariant |pods| == i
      invariant forall j :: 0 <= j < i ==> pods[j] == PodRecord(os[j], net, conf, inspect, limit)
    {
      var o := os[i];
      var ready := o.readyCondition != None && o.readyCondition.value.0;
      var uptime := if o.readyCondition == None then None else Some(o.readyCondition.value.1);
      var p := new PodInfo(Identity(o.name, o.ip, o.phase, uptime, ready, o.jolokia));
      if ready && inspect {
        var client := new Client(ProberOf(net, o.ip));
        InspectPod(client, p, conf, limit);
      }
      pods := pods + [p.View()];
    }
  }
}
