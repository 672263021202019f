/** The conditions a poll reports about an application: setMonitoringCondition for Deployments and CronJobs. */
module Conditions {
  import opened Options
  import opened Decimal
  import opened Api

  const MONITORED := "Monitored"
  const HEALTHY := "Healthy"
  const MEMORY_PRESSURE := "MemoryPressure"
  const CPU_PRESSURE := "CPUPressure"
  const CRON_JOB_EXECUTION := "CronJobExecution"
  const UPGRADE_AVAILABLE := "UpgradeAvailable"

  // ---- Questions about the pods -----------------------------------------------------------

  predicate IsUp(pod: Pod) { pod.runtime.Some? && pod.runtime.value.status == POD_STATUS_UP }

  ghost predicate AllReady(pods: seq<Pod>) { forall p :: p in pods ==> p.identity.ready }
  ghost predicate AllUp(pods: seq<Pod>) { forall p :: p in pods ==> IsUp(p) }
  ghost predicate SomeMemoryPressure(pods: seq<Pod>) { exists p :: p in pods && p.resources.memoryPressure }
  ghost predicate SomeCpuPressure(pods: seq<Pod>) { exists p :: p in pods && p.resources.cpuPressure }

  method AllPodsReady(pods: seq<Pod>) returns (b: bool)
    ensures b <==> AllReady(pods)
  {
    for i := 0 to |pods|
      invariant forall j :: 0 <= j < i ==> pods[j].identity.ready
    {
      if !pods[i].identity.ready {
        return false;
      }
    }
    return true;
  }

  method AllPodsUp(pods: seq<Pod>) returns (b: bool)
    ensures b <==> AllUp(pods)
  {
    for i := 0 to |pods|
      invariant forall j :: 0 <= j < i ==> IsUp(pods[j])
    {
      if pods[i].runtime == None || pods[i].runtime.value.status != POD_STATUS_UP {
        assert pods[i] in pods && !IsUp(pods[i]);
        return false;
      }
    }
    return true;
  }

  method PodMemoryPressure(pods: seq<Pod>) returns (b: bool)
    ensures b <==> SomeMemoryPressure(pods)
  {
    for i := 0 to |pods|
      invariant forall j :: 0 <= j < i ==> !pods[j].resources.memoryPressure
    {
      if pods[i].resources.memoryPressure {
        return true;
      }
    }
    return false;
  }

  method PodCpuPressure(pods: seq<Pod>) returns (b: bool)
    ensures b <==> SomeCpuPressure(pods)
  {
    for i := 0 to |pods|
      invariant forall j :: 0 <= j < i ==> !pods[j].resources.cpuPressure
    {
      if pods[i].resources.cpuPressure {
        return true;
      }
    }
    return false;
  }

  function CountPhase(pods: seq<Pod>, phase: string): nat {
    if pods == [] then 0
    else CountPhase(pods[..|pods| - 1], phase) + if pods[|pods| - 1].identity.phase == phase then 1 else 0
  }

  method CountPodsWithStatus(pods: seq<Pod>, phase: string) returns (n: nat)
    ensures n == CountPhase(pods, phase)
  {
    n := 0;
    for i := 0 to |pods|
      invariant n == CountPhase(pods[..i], phase)
    {
      assert pods[..i + 1][..i] == pods[..i];
      if phase == pods[i].identity.phase {
        n := n + 1;
      }
    }
    assert pods[..|pods|] == pods;
  }

  /** The places of the pods in a phase. */
  ghost function InPhase(pods: seq<Pod>, phase: string): set<int> {
    set i | 0 <= i < |pods| && pods[i].identity.phase == phase
  }

  lemma {:induction false} CountIsNumber(pods: seq<Pod>, phase: string)
    ensures CountPhase(pods, phase) == |InPhase(pods, phase)|
  {
    if pods != [] {
      var n := |pods| - 1;
      CountIsNumber(pods[..n], phase);
      assert InPhase(pods, phase) == InPhase(pods[..n], phase) + if pods[n].identity.phase == phase then {n} else {};
    }
  }

  /** The counts of two different phases together reach the number of pods exactly when every pod is in one of them. */
  lemma {:induction false} CountsCoverIff(pods: seq<Pod>, a: string, b: string)
    requires a != b
    ensures CountPhase(pods, a) + CountPhase(pods, b) <= |pods|
    ensures CountPhase(pods, a) + CountPhase(pods, b) == |pods|
            <==> forall p :: p in pods ==> p.identity.phase == a || p.identity.phase == b
  {
    if pods != [] {
      var front, last := pods[..|pods| - 1], pods[|pods| - 1];
      CountsCoverIff(front, a, b);
      assert pods == front + [last];
    }
  }

  // ---- Deployments ------------------------------------------------------------------------

  function Truthful(b: bool): Truth { if b then True else False }

  const NOT_READY := "Some Pod is not ready. See specific Pods status messages"

  function MonitoredMessage(ready: bool, pods: nat, replicas: Option<int>): string {
    if !ready then NOT_READY
    else if replicas.Some? && pods != replicas.value then
      IntText(pods) + " out of " + IntText(replicas.value) + " pods available"
    else "Success"
  }

  function MonitoredCondition(ready: bool, pods: nat, replicas: Option<int>, now: Time): Condition {
    Condition(MONITORED, Truthful(ready), now, "MonitoringComplete", MonitoredMessage(ready, pods, replicas))
  }

  function HealthyCondition(up: bool, now: Time): Condition {
    Condition(HEALTHY, Truthful(up), now, "HealthCheckCompleted",
              if up then "All Pods are reported as healthy" else NOT_READY)
  }

  function MemoryCondition(pressure: bool, now: Time): Condition {
    Condition(MEMORY_PRESSURE, Truthful(pressure), now, "JVMMemoryPressure",
              if pressure then "At least one Pod has JVM memory pressure" else "No JVM memory pressure detected")
  }

  /** The message speaks of memory, as in the operator. */
  function CpuCondition(pressure: bool, now: Time): Condition {
    Condition(CPU_PRESSURE, Truthful(pressure), now, "CPUPressure",
              if pressure then "At least one Pod has JVM memory pressure" else "No CPU pressure detected")
  }

  /** With no pod nothing is known. */
  function NoPodCondition(kind: string, reason: string, now: Time): Condition {
    Condition(kind, Unknown, now, reason, "No active Pod available")
  }

  /** The conditions added for a Deployment; replicas is the number the previous poll recorded. */
  ghost function DeploymentConditions(pods: seq<Pod>, replicas: Option<int>, now: Time): seq<Condition> {
    if pods == [] then
      [NoPodCondition(MONITORED, "MonitoringComplete", now), NoPodCondition(HEALTHY, "HealthCheckCompleted", now)]
    else
      PodConditions(AllReady(pods), AllUp(pods), SomeMemoryPressure(pods), SomeCpuPressure(pods), |pods|, replicas, now)
  }

  function PodConditions(ready: bool, up: bool, memory: bool, cpu: bool, pods: nat, replicas: Option<int>,
                         now: Time): seq<Condition> {
    [MonitoredCondition(ready, pods, replicas, now), HealthyCondition(up, now), MemoryCondition(memory, now),
     CpuCondition(cpu, now)]
  }

  /** setMonitoringCondition: the conditions are appended one by one. */
  method AddDeploymentConditions(conditions: seq<Condition>, pods: seq<Pod>, replicas: Option<int>, now: Time)
    returns (cs: seq<Condition>)
    ensures cs == conditions + DeploymentConditions(pods, replicas, now)
  {
    cs := conditions;
    if |pods| == 0 {
      cs := AddCondition(cs, NoPodCondition(MONITORED, "MonitoringComplete", now));
      cs := AddCondition(cs, NoPodCondition(HEALTHY, "HealthCheckCompleted", now));
      return;
    }
    var ready := AllPodsReady(pods);
    cs := AddCondition(cs, MonitoredCondition(ready, |pods|, replicas, now));
    var up := AllPodsUp(pods);
    cs := AddCondition(cs, HealthyCondition(up, now));
    var memory := PodMemoryPressure(pods);
    cs := AddCondition(cs, MemoryCondition(memory, now));
    var cpu := PodCpuPressure(pods);
    cs := AddCondition(cs, CpuCondition(cpu, now));
    assert cs == conditions + PodConditions(ready, up, memory, cpu, |pods|, replicas, now);
  }

  // ---- CronJobs ---------------------------------------------------------------------------

  function JobSummary(succeeded: nat, finished: int): string {
    IntText(succeeded) + " out of last " + IntText(finished) + " job succeeded"
  }

  function ScheduleMessage(scheduled: Option<string>, succeeded: Option<string>): string {
    var first := if scheduled.Some? then "Last scheduled time: " + scheduled.value else "";
    if succeeded == None then first
    else first + (if first != "" then "; " else "") + "Last successful time: " + succeeded.value
  }

  function JobHealthCondition(healthy: bool, summary: string, now: Time): Condition {
    Condition(HEALTHY, Truthful(healthy), now, "HealthCheckCompleted", summary)
  }

  function ExecutionCondition(scheduled: Option<string>, succeeded: Option<string>, now: Time): Condition {
    Condition(CRON_JOB_EXECUTION, True, now, "Scheduling", ScheduleMessage(scheduled, succeeded))
  }

  function JobMonitoredCondition(ran: bool, now: Time): Condition {
    Condition(MONITORED, Truthful(ran), now, "MonitoringComplete",
              if ran then "At least one scheduled job has run" else "No scheduled job has run yet")
  }

  function CronJobSummary(pods: seq<Pod>): string {
    JobSummary(CountPhase(pods, "Succeeded"), |pods| - CountPhase(pods, "Running"))
  }

  function CronJobConditions(pods: seq<Pod>, scheduled: Option<string>, succeeded: Option<string>,
                             now: Time): seq<Condition> {
    if pods == [] then [JobMonitoredCondition(false, now)]
    else
      [JobHealthCondition(|pods| == CountPhase(pods, "Running") + CountPhase(pods, "Succeeded"),
                          CronJobSummary(pods), now),
       ExecutionCondition(scheduled, succeeded, now),
       JobMonitoredCondition(true, now)]
  }

  /** SetMonitoringCondition of a CronJob; the info line is replaced when a job has run. */
  method AddCronJobConditions(conditions: seq<Condition>, info: string, pods: seq<Pod>,
                              scheduled: Option<string>, succeeded: Option<string>, now: Time)
    returns (cs: seq<Condition>, newInfo: string)
    ensures cs == conditions + CronJobConditions(pods, scheduled, succeeded, now)
    ensures newInfo == if pods == [] then info else CronJobSummary(pods)
  {
    cs, newInfo := conditions, info;
    if |pods| > 0 {
      var running := CountPodsWithStatus(pods, "Running");
      var done := CountPodsWithStatus(pods, "Succeeded");
      newInfo := JobSummary(done, |pods| - running);
      cs := AddCondition(cs, JobHealthCondition(|pods| == running + done, newInfo, now));
      cs := AddCondition(cs, ExecutionCondition(scheduled, succeeded, now));
    }
    cs := AddCondition(cs, JobMonitoredCondition(|pods| > 0, now));
  }

  // ---- Types and times --------------------------------------------------------------------

  /** Conditions written together: types pairwise distinct and none of them about upgrades, all of one time. */
  predicate OneRound(cs: seq<Condition>, now: Time) {
    && |cs| <= 4 && DistinctKinds(cs)
    && (forall c :: c in cs ==> c.kind != UPGRADE_AVAILABLE && c.at == now)
  }

  lemma DeploymentRound(pods: seq<Pod>, replicas: Option<int>, now: Time)
    ensures OneRound(DeploymentConditions(pods, replicas, now), now)
  {
    if pods != [] {
      PodRound(AllReady(pods), AllUp(pods), SomeMemoryPressure(pods), SomeCpuPressure(pods), |pods|, replicas, now);
    }
  }

  lemma PodRound(ready: bool, up: bool, memory: bool, cpu: bool, pods: nat, replicas: Option<int>, now: Time)
    ensures OneRound(PodConditions(ready, up, memory, cpu, pods, replicas, now), now)
  {
  }

  lemma CronJobRound(pods: seq<Pod>, scheduled: Option<string>, succeeded: Option<string>, now: Time)
    ensures OneRound(CronJobConditions(pods, scheduled, succeeded, now), now)
  {
  }

  /** At most one upgrade condition, written first. */
  predicate UpgradeOnly(cs: seq<Condition>, now: Time) {
    |cs| <= 1 && forall c :: c in cs ==> c.kind == UPGRADE_AVAILABLE && c.at == now
  }

  /** A list of conditions as one poll leaves it: distinct types, so that each one is what its type finds, all written
      by this poll, and at most five. */
  predicate FreshConditions(cs: seq<Condition>, now: Time) {
    && DistinctKinds(cs) && |cs| <= 5
    && (forall c :: c in cs ==> c.at == now)
    && (forall i :: 0 <= i < |cs| ==> Find(cs, cs[i].kind) == Some(cs[i]))
  }

  lemma RoundIsFresh(upgrade: seq<Condition>, added: seq<Condition>, now: Time)
    requires UpgradeOnly(upgrade, now) && OneRound(added, now)
    ensures FreshConditions(upgrade + added, now)
  {
    var cs, n := upgrade + added, |upgrade|;
    forall i, j | 0 <= i < j < |cs| ensures cs[i].kind != cs[j].kind {
      if i < n {
        assert upgrade[i] in upgrade && added[j - n] in added;
      } else {
        assert cs[i] == added[i - n] && cs[j] == added[j - n];
      }
    }
    forall i | 0 <= i < |cs| ensures Find(cs, cs[i].kind) == Some(cs[i]) {
      FindDistinct(cs, i);
    }
  }

  lemma FoundAt(upgrade: seq<Condition>, added: seq<Condition>, now: Time, i: nat)
    requires UpgradeOnly(upgrade, now) && OneRound(added, now) && i < |added|
    ensures Find(upgrade + added, added[i].kind) == Some(added[i])
  {
    RoundIsFresh(upgrade, added, now);
    assert (upgrade + added)[|upgrade| + i] == added[i];
  }
}
