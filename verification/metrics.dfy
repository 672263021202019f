/** Reading values out of scraped metric families. */
module MetricsReading {
  import opened Options
  import opened Api
  import opened EndpointScan

  const APP_INFO := "app_info"
  const LAST_TIMESTAMP := "camel_exchanges_last_timestamp"
  const EXCHANGES_TOTAL := "camel_exchanges_total"
  const EXCHANGES_FAILED := "camel_exchanges_failed_total"
  const EXCHANGES_SUCCEEDED := "camel_exchanges_succeeded_total"
  const EXCHANGES_INFLIGHT := "camel_exchanges_inflight"
  const CPU_USAGE := "process_cpu_usage"
  const MEMORY_USED := "jvm_memory_used_bytes"
  const MEMORY_MAX := "jvm_memory_max_bytes"

  /** getCounter: only the first sample of the family is looked at, and it must be a counter. */
  function Counter(m: Metrics, name: string): Option<real> {
    if name in m && m[name][0].reading.CounterReading? then Some(m[name][0].reading.count) else None
  }

  /** accept: no filter, or one label matches. */
  predicate Accepts(labels: seq<(string, string)>, labelName: string, labelValue: string) {
    labelName == "" || (labelName, labelValue) in labels
  }

  function Level(s: Sample, labelName: string, labelValue: string): real {
    if s.reading.GaugeReading? && Accepts(s.labels, labelName, labelValue) then s.reading.level else 0.0
  }

  function LevelSum(samples: seq<Sample>, labelName: string, labelValue: string): real {
    if samples == [] then 0.0
    else LevelSum(samples[..|samples| - 1], labelName, labelValue) +
         Level(samples[|samples| - 1], labelName, labelValue)
  }

  /** The gauge of a family: zero when the family is missing, else the sum of the accepted gauge samples. */
  function Gauge(m: Metrics, name: string, labelName: string, labelValue: string): real {
    if name in m then LevelSum(m[name], labelName, labelValue) else 0.0
  }

  /** getGaugeInternal. */
  method GetGauge(m: Metrics, name: string, labelName: string, labelValue: string) returns (total: real)
    ensures total == Gauge(m, name, labelName, labelValue)
  {
    total := 0.0;
    if name in m {
      var samples := m[name];
      for i := 0 to |samples|
        invariant total == LevelSum(samples[..i], labelName, labelValue)
      {
        assert samples[..i + 1][..i] == samples[..i];
        if samples[i].reading.GaugeReading? && Accepts(samples[i].labels, labelName, labelValue) {
          total := total + samples[i].reading.level;
        }
      }
      assert samples[..|samples|] == samples;
    }
  }

  lemma {:induction false} LevelSumAppend(a: seq<Sample>, b: seq<Sample>, labelName: string, labelValue: string)
    ensures LevelSum(a + b, labelName, labelValue)
         == LevelSum(a, labelName, labelValue) + LevelSum(b, labelName, labelValue)
  {
    if b == [] {
      assert a + b == a;
    } else {
      var front, last := b[..|b| - 1], b[|b| - 1];
      LevelSumAppend(a, front, labelName, labelValue);
      assert (a + b)[..|a + b| - 1] == a + front;
    }
  }

  /** One sample counts when it is a gauge and carries the wanted label, if one is wanted. */
  lemma LevelOfOne(s: Sample, labelName: string, labelValue: string)
    ensures LevelSum([], labelName, labelValue) == 0.0
    ensures LevelSum([s], labelName, labelValue)
         == match s.reading
            case GaugeReading(level) =>
              if labelName == "" || exists l :: l in s.labels && l.0 == labelName && l.1 == labelValue then level
              else 0.0
            case _ => 0.0
  {
    assert [s][..0] == [];
    assert (labelName, labelValue) in s.labels <==> exists l :: l in s.labels && l.0 == labelName && l.1 == labelValue;
  }

  /** The labels of the info metric override the runtime fields, later labels winning. */
  function ApplyLabels(r: Runtime, labels: seq<(string, string)>): (s: Runtime)
    ensures s.status == r.status && s.exchange == r.exchange
  {
    if labels == [] then r
    else ApplyLabel(ApplyLabels(r, labels[..|labels| - 1]), labels[|labels| - 1])
  }

  function ApplyLabel(r: Runtime, l: (string, string)): (s: Runtime)
    ensures s.status == r.status && s.exchange == r.exchange
  {
    match l.0
    case "camel_runtime_provider" => r.(provider := l.1)
    case "camel_runtime_version" => r.(version := l.1)
    case "camel_version" => r.(camelVersion := l.1)
    case _ => r
  }

  /** populateRuntimeInfo: only when the info metric has exactly one sample. */
  function WithAppInfo(r: Runtime, m: Metrics): (s: Runtime)
    ensures s.status == r.status && s.exchange == r.exchange
  {
    if APP_INFO in m && |m[APP_INFO]| == 1 then ApplyLabels(r, m[APP_INFO][0].labels) else r
  }
}
