/** The CamelMonitor resource as a value: what the API server stores and what a poll reads and writes. */
module Api {
  import opened Options

  const CAMEL_PREFIX := "camel.apache.org"
  const IMPORTED_KIND := "camel.apache.org/imported-from-kind"
  const IMPORTED_NAME := "camel.apache.org/imported-from-name"
  const POLLING_INTERVAL := "camel.apache.org/polling-interval-seconds"
  const HEALTH_PORTS := "camel.apache.org/health-ports"
  const METRICS_PORTS := "camel.apache.org/metrics-ports"
  const METRICS_ENDPOINTS := "camel.apache.org/metrics-endpoints"
  const HEALTH_ENDPOINTS := "camel.apache.org/health-endpoints"
  const SLI_ERROR_PERCENTAGE := "camel.apache.org/sli-exchange-error-percentage"
  const SLI_WARNING_PERCENTAGE := "camel.apache.org/sli-exchange-warning-percentage"

  const POD_STATUS_UP := "UP"

  type Annotations = map<string, string>

  /** Reading a key of a Go map: the empty string when absent. */
  function Lookup(m: Annotations, key: string): string {
    if key in m then m[key] else ""
  }

  /** ImportCamelAnnotations: every key with the camel prefix is copied over. */
  function Imported(own: Annotations, from: Annotations): (r: Annotations)
    ensures forall k :: k in r <==> k in own || (k in from && CAMEL_PREFIX <= k)
    ensures forall k :: k in from && CAMEL_PREFIX <= k ==> r[k] == from[k]
    ensures forall k :: k in own && !(k in from && CAMEL_PREFIX <= k) ==> r[k] == own[k]
  {
    own + map k | k in from && CAMEL_PREFIX <= k :: from[k]
  }

  /** A time, as an instant on an unbounded axis. */
  type Time = int

  datatype ObsService = ObsService(healthEndpoint: string, healthPort: string, metricsEndpoint: string,
                                   metricsPort: string)

  const NO_SERVICE := ObsService("", "", "", "")

  datatype Exchange = Exchange(total: int, succeeded: int, failed: int, pending: int, lastTimestamp: Option<Time>)

  const NO_EXCHANGE := Exchange(0, 0, 0, 0, None)

  datatype Runtime = Runtime(status: string, provider: string, version: string, camelVersion: string,
                             exchange: Option<Exchange>)

  const NO_RUNTIME := Runtime("", "", "", "", None)

  /** The fields of a pod that are copied from Kubernetes and never written again. */
  datatype Identity = Identity(name: string, internalIp: string, phase: string, uptime: Option<Time>, ready: bool,
                               jolokia: bool)

  /** The fields of a pod that describe what its process consumes. */
  datatype Resources = Resources(cpuUsed: Option<string>, cpuMax: Option<string>, memoryUsed: Option<int>,
                                 memoryMax: Option<int>,
                                 memoryPressure: bool, cpuPressure: bool)

  const NO_RESOURCES := Resources(None, None, None, None, false, false)

  datatype Pod = Pod(identity: Identity, reason: string, observe: Option<ObsService>, runtime: Option<Runtime>,
                     resources: Resources)

  datatype SliStatus = Unset | Success | Warning | Error

  datatype SuccessRate = SuccessRate(percentage: string, interval: int, total: int, failed: int,
                                     lastTimestamp: Option<Time>, status: SliStatus)

  datatype Truth = True | False | Unknown

  datatype Condition = Condition(kind: string, status: Truth, at: Time, reason: string, message: string)

  datatype Phase = NoPhase | Running | Failing | Paused

  datatype Status = Status(phase: Phase, image: string, pods: seq<Pod>, replicas: Option<int>, info: string,
                           successRate: Option<SuccessRate>, conditions: seq<Condition>)

  const NO_STATUS := Status(NoPhase, "", [], None, "", None, [])

  // ---- Conditions -------------------------------------------------------------------------

  /** AddCondition only ever appends. */
  function AddCondition(conditions: seq<Condition>, c: Condition): seq<Condition> { conditions + [c] }

  predicate DistinctKinds(cs: seq<Condition>) {
    forall i, j :: 0 <= i < j < |cs| ==> cs[i].kind != cs[j].kind
  }

  /** The first condition of a type. */
  function Find(cs: seq<Condition>, kind: string): (r: Option<Condition>)
    ensures r == None <==> forall c :: c in cs ==> c.kind != kind
    ensures r.Some? ==> r.value in cs && r.value.kind == kind
  {
    if cs == [] then None else if cs[0].kind == kind then Some(cs[0]) else Find(cs[1..], kind)
  }

  /** When types are distinct, every condition in the list is the one found under its type. */
  lemma {:induction false} FindDistinct(cs: seq<Condition>, i: nat)
    requires DistinctKinds(cs) && i < |cs|
    ensures Find(cs, cs[i].kind) == Some(cs[i])
  {
    if i > 0 {
      assert cs[0].kind != cs[i].kind;
      assert cs[1..][i - 1] == cs[i];
      FindDistinct(cs[1..], i - 1);
    }
  }

  /** GetCondition: a scan for the first condition of that type. */
  method GetCondition(cs: seq<Condition>, kind: string) returns (r: Option<Condition>)
    ensures r == Find(cs, kind)
  {
    for i := 0 to |cs|
      invariant Find(cs, kind) == Find(cs[i..], kind)
    {
      assert cs[i..][1..] == cs[i + 1..];
      if cs[i].kind == kind {
        return Some(cs[i]);
      }
    }
    return None;
  }
}
