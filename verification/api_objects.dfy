/** The status as Go holds it in memory: structs reached through pointers, written in place and deep-copied. */
module ApiObjects {
  import opened Options
  import opened Api

  class ObservabilityServiceInfo {
    var healthEndpoint: string
    var healthPort: string
    var metricsEndpoint: string
    var metricsPort: string

    constructor ()
      ensures View() == NO_SERVICE
    {
      healthEndpoint, healthPort, metricsEndpoint, metricsPort := "", "", "", "";
    }

    function View(): ObsService
      reads this
    {
      ObsService(healthEndpoint, healthPort, metricsEndpoint, metricsPort)
    }

    method DeepCopyInto(out: ObservabilityServiceInfo)
      modifies out
      ensures out.View() == old(View())
      ensures out.healthEndpoint == old(healthEndpoint) && out.healthPort == old(healthPort)
      ensures out.metricsEndpoint == old(metricsEndpoint) && out.metricsPort == old(metricsPort)
    {
      out.healthEndpoint, out.healthPort := healthEndpoint, healthPort;
      out.metricsEndpoint, out.metricsPort := metricsEndpoint, metricsPort;
    }
  }

  class ExchangeInfo {
    var total: int
    var succeeded: int
    var failed: int
    var pending: int
    var lastTimestamp: Option<Time>

    constructor ()
      ensures View() == NO_EXCHANGE
    {
      total, succeeded, failed, pending, lastTimestamp := 0, 0, 0, 0, None;
    }

    function View(): Exchange
      reads this
    {
      Exchange(total, succeeded, failed, pending, lastTimestamp)
    }

    method DeepCopyInto(out: ExchangeInfo)
      modifies out
      ensures out.View() == old(View())
      ensures out.total == old(total) && out.succeeded == old(succeeded) && out.failed == old(failed)
      ensures out.pending == old(pending) && out.lastTimestamp == old(lastTimestamp)
    {
      out.total, out.succeeded, out.failed, out.pending := total, succeeded, failed, pending;
      out.lastTimestamp := lastTimestamp;
    }
  }

  class RuntimeInfo {
    var status: string
    var provider: string
    var version: string
    var camelVersion: string
    var exchange: ExchangeInfo?

    constructor (status: string)
      ensures View() == NO_RUNTIME.(status := status)
      ensures exchange == null
    {
      this.status, provider, version, camelVersion, exchange := status, "", "", "", null;
    }

    function View(): Runtime
      reads this, exchange
    {
      Runtime(status, provider, version, camelVersion, if exchange == null then None else Some(exchange.View()))
    }

    method DeepCopyInto(out: RuntimeInfo)
      requires out != this
      modifies out
      ensures out.View() == old(View())
      ensures out.status == old(status) && out.provider == old(provider)
      ensures out.version == old(version) && out.camelVersion == old(camelVersion)
      ensures out.exchange == null <==> old(exchange) == null
      ensures out.exchange != null ==> fresh(out.exchange)
    {
      out.status, out.provider, out.version, out.camelVersion := status, provider, version, camelVersion;
      out.exchange := exchange;
      if exchange != null {
        out.exchange := new ExchangeInfo();
        exchange.DeepCopyInto(out.exchange);
      }
    }
  }

  /** A pod; the fields that are plain values are kept in two groups. */
  class PodInfo {
    var identity: Identity
    var reason: string
    var observe: ObservabilityServiceInfo?
    var runtime: RuntimeInfo?
    var resources: Resources

    constructor (identity: Identity)
      ensures View() == Pod(identity, "", None, None, NO_RESOURCES)
      ensures observe == null && runtime == null
    {
      this.identity, reason, observe, runtime, resources := identity, "", null, null, NO_RESOURCES;
    }

    function ServiceView(): Option<ObsService>
      reads `observe, observe
    {
      if observe == null then None else Some(observe.View())
    }

    function RuntimeView(): Option<Runtime>
      reads `runtime, runtime, if runtime == null then null else runtime.exchange
    {
      if runtime == null then None else Some(runtime.View())
    }

    function View(): Pod
      reads this, observe, runtime, if runtime == null then null else runtime.exchange
    {
      Pod(identity, reason, ServiceView(), RuntimeView(), resources)
    }

    /** Every mutable object reached from this pod. */
    ghost function Reach(): set<object>
      reads this, runtime
    {
      {this} + (if observe == null then {} else {observe}) +
      (if runtime == null then {} else {runtime} + (if runtime.exchange == null then {} else {runtime.exchange}))
    }

    /** Replaces a shared service by a copy of its own. */
    method DetachService(out: PodInfo)
      requires out != this && out.observe == observe
      modifies out`observe
      ensures out.ServiceView() == old(ServiceView())
      ensures out.observe != null ==> fresh(out.observe)
    {
      if observe != null {
        var o := new ObservabilityServiceInfo();
        observe.DeepCopyInto(o);
        out.observe := o;
      }
    }

    method DetachRuntime(out: PodInfo)
      requires out != this && out.runtime == runtime
      modifies out`runtime
      ensures out.RuntimeView() == old(RuntimeView())
      ensures out.runtime != null ==> fresh(out.runtime)
      ensures out.runtime != null && out.runtime.exchange != null ==> fresh(out.runtime.exchange)
    {
      if runtime != null {
        var r := new RuntimeInfo("");
        runtime.DeepCopyInto(r);
        out.runtime := r;
      }
    }

    method DeepCopyInto(out: PodInfo)
      requires out != this
      modifies out
      ensures out.View() == old(View())
      ensures out.identity == old(identity) && out.reason == old(reason) && out.resources == old(resources)
      ensures (out.observe == null <==> old(observe) == null) && (out.runtime == null <==> old(runtime) == null)
      ensures fresh(out.Reach() - {out})
    {
      out.identity, out.reason, out.resources := identity, reason, resources;
      out.observe, out.runtime := observe, runtime;
      DetachService(out);
      DetachRuntime(out);
    }
  }

  class SLIExchangeSuccessRate {
    var percentage: string
    var interval: int
    var total: int
    var failed: int
    var lastTimestamp: Option<Time>
    var status: SliStatus

    constructor ()
    {
    }

    function View(): SuccessRate
      reads this
    {
      SuccessRate(percentage, interval, total, failed, lastTimestamp, status)
    }

    method DeepCopyInto(out: SLIExchangeSuccessRate)
      modifies out
      ensures out.View() == old(View())
      ensures out.percentage == old(percentage) && out.interval == old(interval) && out.total == old(total)
      ensures out.failed == old(failed) && out.lastTimestamp == old(lastTimestamp) && out.status == old(status)
    {
      out.percentage, out.interval, out.total, out.failed := percentage, interval, total, failed;
      out.lastTimestamp, out.status := lastTimestamp, status;
    }
  }

  /** Everything reached from the cells of a slice of pods lies in the region. */
  ghost predicate PodsIn(pods: seq<PodInfo>, region: set<object>)
    reads region
  {
    forall p :: p in pods ==>
      && p in region
      && (p.observe != null ==> p.observe in region)
      && (p.runtime != null ==> p.runtime in region && (p.runtime.exchange != null ==> p.runtime.exchange in region))
  }

  ghost function PodViews(pods: seq<PodInfo>, region: set<object>): (views: seq<Pod>)
    requires PodsIn(pods, region)
    reads region
    ensures |views| == |pods| && forall i :: 0 <= i < |pods| ==> views[i] == pods[i].View()
  {
    seq(|pods|, i requires 0 <= i < |pods| && PodsIn(pods, region) reads region => pods[i].View())
  }

  predicate AllDistinct(cells: seq<PodInfo>) { forall i, j :: 0 <= i < j < |cells| ==> cells[i] != cells[j] }

  /** Copies every pod of a slice into a cell of its own. */
  method CopyPods(pods: seq<PodInfo>, ghost region: set<object>)
    returns (cells: seq<PodInfo>, ghost fields: set<object>)
    requires PodsIn(pods, region)
    ensures fresh(fields) && PodsIn(cells, fields)
    ensures PodViews(cells, fields) == PodViews(pods, region)
    ensures AllDistinct(cells)
  {
    hide AllDistinct, PodsIn;
    NoCells();
    cells, fields := [], {};
    ghost var views := PodViews(pods, region);
    for i := 0 to |pods|
      invariant |cells| == i && fresh(fields) && PodsIn(cells, fields) && AllDistinct(cells)
      invariant PodViews(cells, fields) == views[..i]
    {
      cells, fields := CopyNext(cells, fields, pods[i]);
      assert views[..i + 1] == views[..i] + [views[i]];
    }
    assert views[..|pods|] == views;
  }

  lemma NoCells()
    ensures PodsIn([], {}) && AllDistinct([])
  {
  }

  /** Appends a copy of one more pod. */
  method CopyNext(cells: seq<PodInfo>, ghost fields: set<object>, pod: PodInfo)
    returns (more: seq<PodInfo>, ghost moreFields: set<object>)
    requires PodsIn(cells, fields) && AllDistinct(cells)
    ensures PodsIn(more, moreFields) && fields <= moreFields && fresh(moreFields - fields)
    ensures PodViews(more, moreFields) == old(PodViews(cells, fields)) + [pod.View()]
    ensures |more| == |cells| + 1 && more[..|cells|] == cells && AllDistinct(more)
  {
    var cell := CopyPod(pod);
    more, moreFields := cells + [cell], fields + cell.Reach();
    assert forall p :: p in more ==> p in cells || p == cell;
  }

  method CopyPod(pod: PodInfo) returns (cell: PodInfo)
    ensures fresh(cell.Reach()) && cell.View() == pod.View()
  {
    cell := new PodInfo(pod.identity);
    pod.DeepCopyInto(cell);
  }

  class CamelMonitorStatus {
    var phase: Phase
    var image: string
    // The slice of pods; each object is one cell of the slice.
    var pods: seq<PodInfo>
    var replicas: Option<int>
    var info: string
    var successRate: SLIExchangeSuccessRate?
    // The slice of conditions; null is the nil slice.
    var conditions: array?<Condition>
    // Every mutable object reached from this status.
    ghost var repr: set<object>

    ghost predicate Valid()
      reads this, repr
    {
      && this in repr
      && PodsIn(pods, repr)
      && (successRate != null ==> successRate in repr)
      && (conditions != null ==> conditions in repr)
    }

    ghost function View(): Status
      requires Valid()
      reads this, repr
    {
      Status(phase, image, PodViews(pods, repr), replicas, info,
             if successRate == null then None else Some(successRate.View()),
             if conditions == null then [] else conditions[..])
    }

    constructor ()
      ensures Valid() && fresh(repr)
      ensures View() == NO_STATUS
    {
      phase, image, pods, replicas, info := NoPhase, "", [], None, "";
      successRate, conditions, repr := null, null, {this};
    }

    method CopyRate() returns (rate: SLIExchangeSuccessRate?)
      ensures (rate == null) == (successRate == null)
      ensures rate != null ==> fresh(rate) && rate.View() == successRate.View()
    {
      rate := null;
      if successRate != null {
        rate := new SLIExchangeSuccessRate();
        successRate.DeepCopyInto(rate);
      }
    }

    method CopyConditions() returns (cs: array?<Condition>)
      ensures (cs == null) == (conditions == null)
      ensures cs != null ==> fresh(cs) && cs[..] == conditions[..]
    {
      cs := null;
      if conditions != null {
        var copy := new Condition[conditions.Length];
        forall i | 0 <= i < conditions.Length { copy[i] := conditions[i]; }
        assert copy[..] == conditions[..];
        cs := copy;
      }
    }

    method SetFields(phase: Phase, image: string, pods: seq<PodInfo>, replicas: Option<int>, info: string,
                     rate: SLIExchangeSuccessRate?, cs: array?<Condition>, ghost repr: set<object>)
      modifies this
      ensures this.phase == phase && this.image == image && this.pods == pods && this.replicas == replicas
      ensures this.info == info && successRate == rate && conditions == cs && this.repr == repr
    {
      this.phase, this.image, this.pods, this.replicas := phase, image, pods, replicas;
      this.info, successRate, conditions, this.repr := info, rate, cs, repr;
    }

    /** Fills a status with parts of its own. */
    method Install(phase: Phase, image: string, pods: seq<PodInfo>, replicas: Option<int>, info: string,
                   rate: SLIExchangeSuccessRate?, cs: array?<Condition>, ghost fields: set<object>)
      requires this !in fields && PodsIn(pods, fields)
      modifies this
      ensures Valid() && repr
              == {this} + fields + (if rate == null then {} else {rate}) + (if cs == null then {} else {cs})
      ensures View() == Status(phase, image, old(PodViews(pods, fields)), replicas, info,
                               if rate == null then None else Some(old(rate.View())),
                               if cs == null then [] else old(cs[..]))
    {
      ghost var views := PodViews(pods, fields);
      SetFields(phase, image, pods, replicas, info, rate, cs,
                {this} + fields + (if rate == null then {} else {rate}) + (if cs == null then {} else {cs}));
      assert PodViews(pods, fields) == views;
      assert PodViews(pods, repr) == views;
    }

    /** Copies of everything this status points to, sharing nothing with it. */
    method CopyParts()
      returns (rate: SLIExchangeSuccessRate?, cs: array?<Condition>, cells: seq<PodInfo>, ghost fields: set<object>)
      requires Valid()
      ensures fresh(fields) && PodsIn(cells, fields)
      ensures rate != null ==> fresh(rate)
      ensures cs != null ==> fresh(cs)
      ensures PodViews(cells, fields) == View().pods
      ensures (if rate == null then None else Some(rate.View())) == View().successRate
      ensures (if cs == null then [] else cs[..]) == View().conditions
    {
      rate := CopyRate();
      cs := CopyConditions();
      cells, fields := CopyPods(pods, repr);
    }

    method DeepCopyInto(out: CamelMonitorStatus)
      requires Valid() && out !in repr
      modifies out
      ensures out.Valid() && fresh(out.repr - {out})
      ensures out.View() == old(View())
      ensures out.phase == old(phase) && out.image == old(image) && out.replicas == old(replicas)
      ensures out.info == old(info) && |out.pods| == |old(pods)|
      ensures out.successRate == null <==> old(successRate) == null
      ensures (if out.conditions == null then [] else out.conditions[..])
           == old(if conditions == null then [] else conditions[..])
    {
      var rate, cs, cells, fields := CopyParts();
      out.Install(phase, image, cells, replicas, info, rate, cs, fields);
    }

    /** DeepCopy. */
    method DeepCopy() returns (out: CamelMonitorStatus)
      requires Valid()
      ensures out.Valid() && fresh(out.repr)
      ensures out.View() == View()
    {
      out := new CamelMonitorStatus();
      DeepCopyInto(out);
    }
  }

  /** Reconcile hands the actions a deep copy and computes the patch against the original: whatever an action writes
      through the copy, the original still holds what was read from the API server. */
  method ActOnCopy(instance: CamelMonitorStatus) returns (target: CamelMonitorStatus)
    requires instance.Valid()
    ensures instance.Valid() && instance.View() == old(instance.View())
    ensures fresh(target)
  {
    target := instance.DeepCopy();
    ghost var reached := target.repr;
    modify reached;
  }
}
