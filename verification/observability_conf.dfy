/** Which ports and endpoints a poll tries: annotations first, then the operator's environment, then the pair that
    worked last time, then the conventional defaults. */
module ObservabilityConf {
  import opened Options
  import opened Text
  import opened Api
  import opened EndpointScan

  const DEFAULT_PORTS := ["9876", "8080"]
  const DEFAULT_HEALTH := ["observe/health", "q/health", "actuator/health"]
  const DEFAULT_METRICS := ["observe/metrics", "q/metrics", "actuator/prometheus"]

  /** The operator's environment variables; an unset variable reads as the empty string. */
  datatype Environment = Environment(healthPorts: string, metricsPorts: string, metricsEndpoints: string,
                                     healthEndpoints: string)

  datatype Conf = Conf(healthPorts: seq<string>, metricsPorts: seq<string>, metricsEndpoints: seq<string>,
                       healthEndpoints: seq<string>)

  /** The common shape of the four getObservability selectors. */
  function Candidates(annotation: string, env: string, defaults: seq<string>, existing: string): seq<string> {
    if annotation != "" then Split(annotation, ',')
    else if env != "" then Split(env, ',')
    else if existing != "" then [existing]
    else defaults
  }

  function ConfWith(annotations: Annotations, env: Environment, existing: ObsService): Conf {
    Conf(
      Candidates(Lookup(annotations, HEALTH_PORTS), env.healthPorts, DEFAULT_PORTS, existing.healthPort),
      Candidates(Lookup(annotations, METRICS_PORTS), env.metricsPorts, DEFAULT_PORTS, existing.metricsPort),
      Candidates(Lookup(annotations, METRICS_ENDPOINTS), env.metricsEndpoints, DEFAULT_METRICS,
                 existing.metricsEndpoint),
      Candidates(Lookup(annotations, HEALTH_ENDPOINTS), env.healthEndpoints, DEFAULT_HEALTH, existing.healthEndpoint))
  }

  /** What the last poll left behind as known to work: the service recorded on its first pod. */
  function Existing(pods: seq<Pod>): ObsService {
    if pods == [] then NO_SERVICE else pods[0].observe.GetOr(NO_SERVICE)
  }

  /** GetAppObservabilityConf. */
  function AppConf(annotations: Annotations, env: Environment, pods: seq<Pod>): Conf {
    ConfWith(annotations, env, Existing(pods))
  }

  /** All candidates, nothing remembered. */
  function FullConf(annotations: Annotations, env: Environment): Conf { ConfWith(annotations, env, NO_SERVICE) }

  /** Neither an annotation nor the environment chooses the metrics candidates. */
  predicate MetricsDefaults(annotations: Annotations, env: Environment) {
    && Lookup(annotations, METRICS_PORTS) == "" && env.metricsPorts == ""
    && Lookup(annotations, METRICS_ENDPOINTS) == "" && env.metricsEndpoints == ""
  }

  predicate HealthDefaults(annotations: Annotations, env: Environment) {
    && Lookup(annotations, HEALTH_PORTS) == "" && env.healthPorts == ""
    && Lookup(annotations, HEALTH_ENDPOINTS) == "" && env.healthEndpoints == ""
  }

  /** Remembering nothing, or remembering a winner of the full search, keeps that winner in front. */
  lemma CandidatesNarrow(annotation: string, env: string, defaults: seq<string>, existing: string, w: string)
    requires w in Candidates(annotation, env, defaults, "")
    requires existing == "" || existing == w
    ensures Narrows(Candidates(annotation, env, defaults, existing), Candidates(annotation, env, defaults, ""), w)
  {
    NarrowsToWinner(Candidates(annotation, env, defaults, ""), w);
  }

  // ---- Which candidates are tried ---------------------------------------------------------

  /** An annotation comes first, cut at its commas; then the operator's setting; then what is remembered; then the
      defaults. */
  predicate IsChosen(candidates: seq<string>, annotation: string, env: string, existing: string,
                     defaults: seq<string>) {
    if annotation != "" then IsCut(candidates, annotation)
    else if env != "" then IsCut(candidates, env)
    else if existing != "" then candidates == [existing]
    else candidates == defaults
  }

  /** The pieces of a text between its commas. */
  predicate IsCut(pieces: seq<string>, text: string) {
    Join(pieces, ',') == text && forall i :: 0 <= i < |pieces| ==> ',' !in pieces[i]
  }

  lemma CandidatesChosen(annotation: string, env: string, defaults: seq<string>, existing: string)
    ensures IsChosen(Candidates(annotation, env, defaults, existing), annotation, env, existing, defaults)
  {
    SplitJoin(annotation, ',');
    SplitJoin(env, ',');
  }

  /** Each of the four lists of a poll is chosen by its own annotation and setting, by what the first pod of the last
      status records for it, and by its own defaults. */
  lemma ConfChosen(a: Annotations, env: Environment, pods: seq<Pod>)
    ensures var conf, was := AppConf(a, env, pods), if pods == [] then None else pods[0].observe;
            && IsChosen(conf.healthPorts, Lookup(a, "camel.apache.org/health-ports"), env.healthPorts,
                        if was.Some? then was.value.healthPort else "", ["9876", "8080"])
            && IsChosen(conf.healthEndpoints, Lookup(a, "camel.apache.org/health-endpoints"), env.healthEndpoints,
                        if was.Some? then was.value.healthEndpoint else "",
                        ["observe/health", "q/health", "actuator/health"])
            && IsChosen(conf.metricsPorts, Lookup(a, "camel.apache.org/metrics-ports"), env.metricsPorts,
                        if was.Some? then was.value.metricsPort else "", ["9876", "8080"])
            && IsChosen(conf.metricsEndpoints, Lookup(a, "camel.apache.org/metrics-endpoints"), env.metricsEndpoints,
                        if was.Some? then was.value.metricsEndpoint else "",
                        ["observe/metrics", "q/metrics", "actuator/prometheus"])
  {
    hide IsChosen, Candidates, Lookup;
    var was := Existing(pods);
    CandidatesChosen(Lookup(a, HEALTH_PORTS), env.healthPorts, DEFAULT_PORTS, was.healthPort);
    CandidatesChosen(Lookup(a, HEALTH_ENDPOINTS), env.healthEndpoints, DEFAULT_HEALTH, was.healthEndpoint);
    CandidatesChosen(Lookup(a, METRICS_PORTS), env.metricsPorts, DEFAULT_PORTS, was.metricsPort);
    CandidatesChosen(Lookup(a, METRICS_ENDPOINTS), env.metricsEndpoints, DEFAULT_METRICS, was.metricsEndpoint);
  }
}
