/** One poll of one application: Handle, and how Reconcile turns its result into the next stored status. */
module MonitorPoll {
  import opened Options
  import opened Decimal
  import opened Api
  import opened ObservabilityConf
  import opened Probing
  import opened Aggregate
  import opened Sli
  import opened Conditions

  // ---- What a poll observes ---------------------------------------------------------------

  datatype Fetched<+T> = Failed | NotFound | Found(value: T)

  datatype DeploymentObject = DeploymentObject(annotations: Annotations, image: string, specReplicas: Option<int>,
                                               replicas: int, available: int, cpuMillis: Option<int>)

  datatype CronJobObject = CronJobObject(annotations: Annotations, image: string, active: nat,
                                         lastSchedule: Option<string>, lastSuccess: Option<string>)

  /** The outcome of asking for the latest release of a runtime. */
  datatype Release = Released(version: string) | FetchFailed(message: string)

  /** Operator settings and everything the cluster and the network answer during one poll. */
  datatype Poll = Poll(
    annotations: Annotations,              // of the CamelMonitor itself
    deployments: Fetched<DeploymentObject>, // what the imported name denotes as a Deployment
    cronJobs: Fetched<CronJobObject>,       // and as a CronJob
    listed: Option<seq<PodObject>>,        // None when listing pods fails
    net: Network,
    env: Environment,
    pollingSeconds: int, errorPercentage: int, warningPercentage: int,
    checkUpgrade: bool,
    release: string -> Release,
    podMonitorFails: bool, dashboardFails: bool, // the optional Prometheus and Grafana resources
    haltedAtStart: bool,                         // the operator's first reconcile, without its alert rules
    patchFails: bool,                            // the status patch
    now: Time)

  datatype Owner = DeploymentOwner(deployment: DeploymentObject) | CronJobOwner(cronJob: CronJobObject)

  /** lookupObject and the adapter factory: None stands for every way of not getting an owner. */
  function OwnerOf(poll: Poll): Option<Owner> {
    var kind := Lookup(poll.annotations, IMPORTED_KIND);
    if kind == "Deployment" then
      if poll.deployments.Found? then Some(DeploymentOwner(poll.deployments.value)) else None
    else if kind == "CronJob" then
      if poll.cronJobs.Found? then Some(CronJobOwner(poll.cronJobs.value)) else None
    else None
  }

  function OwnerAnnotations(owner: Owner): Annotations {
    match owner
    case DeploymentOwner(d) => d.annotations
    case CronJobOwner(c) => c.annotations
  }

  function PhaseOf(owner: Owner): Phase {
    match owner
    case DeploymentOwner(d) =>
      if d.available != d.replicas then Failing else if d.replicas == 0 then Paused else Running
    case CronJobOwner(c) => if c.active > 0 then Running else Paused
  }

  function ImageOf(owner: Owner): string {
    match owner
    case DeploymentOwner(d) => d.image
    case CronJobOwner(c) => c.image
  }

  function ReplicasOf(owner: Owner): Option<int> {
    match owner
    case DeploymentOwner(d) => d.specReplicas
    case CronJobOwner(c) => Some(c.active)
  }

  /** The CPU limit handed to the scrape: a decimal text, empty without a positive limit; none for a CronJob. */
  function LimitOf(owner: Owner): Option<string> {
    match owner
    case DeploymentOwner(d) =>
      Some(if d.cpuMillis.Some? && d.cpuMillis.value > 0 then Digits(d.cpuMillis.value) else "")
    case CronJobOwner(_) => None
  }

  /** The annotations in force: the monitor's own, overridden by the camel annotations of its owner. */
  function InForce(poll: Poll, owner: Owner): Annotations { Imported(poll.annotations, OwnerAnnotations(owner)) }

  /** An integer annotation, or the operator's setting when it is absent or not a number. */
  function Setting(annotations: Annotations, key: string, default: int): int {
    ParseInt(Lookup(annotations, key)).GetOr(default)
  }

  // ---- What a poll writes -----------------------------------------------------------------

  function FormatRuntimeInfo(r: Runtime): string {
    if r.provider == "" then "" else r.provider + " - " + r.version + " (" + r.camelVersion + ")"
  }

  /** checkVersionUpgrade: which local version is compared depends on the provider. */
  function CurrentVersion(r: Runtime): string {
    if r.provider == "Spring-Boot" then r.camelVersion else r.version
  }

  predicate KnownProvider(r: Runtime) { r.provider in {"Quarkus", "Spring-Boot", "Main"} }

  function UpgradeMessage(r: Runtime, version: string): string {
    var message := "New Camel " + r.provider + " runtime version " + version + " is available";
    if r.provider == "Quarkus" then message + (" (Camel " + r.camelVersion + ")") else message
  }

  function UpgradeCondition(r: Runtime, poll: Poll): Option<Condition> {
    if r.provider == "" || !poll.checkUpgrade then None
    else
      var release :=
        if KnownProvider(r) then poll.release(r.provider) else FetchFailed("unknown runtime provider " + r.provider);
      Some(match release
        case FetchFailed(message) =>
          Condition(UPGRADE_AVAILABLE, Unknown, poll.now, "FetchingError", "could not fetch repository: " + message)
        case Released(version) =>
          if version != "" && version != CurrentVersion(r) then
            Condition(UPGRADE_AVAILABLE, True, poll.now, "NewVersionAvailable", UpgradeMessage(r, version))
          else
            Condition(UPGRADE_AVAILABLE, False, poll.now, "UpToDate",
                      "runtime version is up to date with latest release"))
  }

  /** The info line and the upgrade condition, written when the current pods have an aggregate. */
  function WithInfo(s: Status, poll: Poll): Status {
    match InfoOf(s.pods)
    case None => s
    case Some(info) =>
      match UpgradeCondition(info, poll)
      case None => s.(info := FormatRuntimeInfo(info))
      case Some(c) => s.(info := FormatRuntimeInfo(info), conditions := AddCondition(s.conditions, c))
  }

  /** The success rate, written when both the previous and the current pods have an aggregate. */
  function WithSuccessRate(s: Status, before: seq<Pod>, annotations: Annotations, poll: Poll): Status {
    match (InfoOf(before), InfoOf(s.pods))
    case (Some(b), Some(n)) =>
      s.(successRate := Some(SliOf(b, n, Setting(annotations, POLLING_INTERVAL, poll.pollingSeconds),
                                   Setting(annotations, SLI_ERROR_PERCENTAGE, poll.errorPercentage),
                                   Setting(annotations, SLI_WARNING_PERCENTAGE, poll.warningPercentage))))
    case _ => s
  }

  ghost function WithConditions(s: Status, before: Status, owner: Owner, poll: Poll): Status {
    match owner
    case DeploymentOwner(_) => s.(conditions := s.conditions + DeploymentConditions(s.pods, before.replicas, poll.now))
    case CronJobOwner(c) =>
      s.(conditions := s.conditions + CronJobConditions(s.pods, c.lastSchedule, c.lastSuccess, poll.now),
         info := if s.pods == [] then s.info else CronJobSummary(s.pods))
  }

  /** The status before pods are listed: only the info line and the success rate survive from the last poll. */
  function Started(before: Status, owner: Owner): Status {
    NO_STATUS.(info := before.info, successRate := before.successRate, phase := PhaseOf(owner), image := ImageOf(owner))
  }

  function Listed(before: Status, owner: Owner, poll: Poll): Status
    requires poll.listed.Some?
  {
    var conf := AppConf(InForce(poll, owner), poll.env, before.pods);
    var pods := PodRecords(poll.listed.value, poll.net, conf, owner.DeploymentOwner?, LimitOf(owner));
    Started(before, owner).(pods := pods, replicas := ReplicasOf(owner))
  }

  function Aggregated(before: Status, owner: Owner, poll: Poll): Status
    requires poll.listed.Some?
  {
    var s := Listed(before, owner, poll);
    WithSuccessRate(WithInfo(s, poll), before.pods, InForce(poll, owner), poll)
  }

  /** Handle: the new status, if there is one, and whether an error is reported with it. */
  ghost function Outcome(before: Status, poll: Poll): (Option<Status>, bool) {
    match OwnerOf(poll)
    case None => (None, true)
    case Some(owner) =>
      if poll.listed == None then (Some(Started(before, owner)), true)
      else
        var s := Aggregated(before, owner, poll);
        if s.pods != [] && (poll.podMonitorFails || poll.dashboardFails) then (Some(s), true)
        else (Some(WithConditions(s, before, owner, poll)), false)
  }

  /** A status that Handle returns is stored. */
  predicate IsStored(poll: Poll) { !poll.haltedAtStart && !poll.patchFails }

  /** Reconcile: a status comes back even with most errors and is patched then too; without one, when the patch fails,
      or when the reconcile ends before Handle, the stored status stays. */
  ghost function Step(before: Status, poll: Poll): Status {
    match Outcome(before, poll).0
    case Some(s) => if IsStored(poll) then s else before
    case None => before
  }

  // ---- The action -------------------------------------------------------------------------

  lemma ImportedStep(own: Annotations, from: Annotations, keys: set<string>, k: string)
    requires k in keys && keys <= from.Keys
    ensures Imported(own, from - (keys - {k}))
         == if CAMEL_PREFIX <= k then Imported(own, from - keys)[k := from[k]] else Imported(own, from - keys)
  {
  }

  /** The CamelMonitor resource that Handle reads and the copy it fills. */
  class CamelMonitor {
    var annotations: Annotations
    var status: Status

    constructor (annotations: Annotations, status: Status)
      ensures this.annotations == annotations && this.status == status
    {
      this.annotations, this.status := annotations, status;
    }

    method AddCondition(c: Condition)
      modifies `status
      ensures status == old(status).(conditions := old(status).conditions + [c])
    {
      status := status.(conditions := status.conditions + [c]);
    }

    /** ImportCamelAnnotations: a loop over the owner's annotations in any order. */
    method ImportCamelAnnotations(from: Annotations)
      modifies `annotations
      ensures annotations == Imported(old(annotations), from)
    {
      var keys := from.Keys;
      while keys != {}
        invariant keys <= from.Keys
        invariant annotations == Imported(old(annotations), from - keys)
      {
        var k :| k in keys;
        ImportedStep(old(annotations), from, keys, k);
        keys := keys - {k};
        if CAMEL_PREFIX <= k {
          annotations := annotations[k := from[k]];
        }
      }
      assert from - keys == from;
    }
  }

  /** checkVersionUpgrade: the condition is worked out step by step and appended. */
  method CheckVersionUpgrade(r: Runtime, target: CamelMonitor, poll: Poll)
    modifies target`status
    ensures target.status == match UpgradeCondition(r, poll)
                             case None => old(target.status)
                             case Some(c) => old(target.status).(conditions := old(target.status).conditions + [c])
  {
    if r.provider == "" || !poll.checkUpgrade {
      return;
    }
    var release, currentVersion;
    match r.provider {
      case "Quarkus" => release, currentVersion := poll.release("Quarkus"), r.version;
      case "Spring-Boot" => release, currentVersion := poll.release("Spring-Boot"), r.camelVersion;
      case "Main" => release, currentVersion := poll.release("Main"), r.version;
      case _ => release, currentVersion := FetchFailed("unknown runtime provider " + r.provider), "";
    }
    var status, reason, message := False, "UpToDate", "runtime version is up to date with latest release";
    if release.FetchFailed? {
      status, reason := Unknown, "FetchingError";
      message := "could not fetch repository: " + release.message;
    } else if release.version != "" && release.version != currentVersion {
      status, reason := True, "NewVersionAvailable";
      message := "New Camel " + r.provider + " runtime version " + release.version + " is available";
      if r.provider == "Quarkus" {
        message := message + (" (Camel " + r.camelVersion + ")");
      }
    }
    target.AddCondition(Condition(UPGRADE_AVAILABLE, status, poll.now, reason, message));
  }

  /** What a poll is to say about upgrades of this runtime: nothing without a provider or with checking off; Unknown for
      another provider than the three or a failed fetch; else whether the repository of the provider names another
      release than the one that the provider's own versioning scheme says is running. */
  function UpgradeVerdict(r: Runtime, poll: Poll): Option<Truth> {
    if r.provider == "" || !poll.checkUpgrade then None
    else if r.provider != "Quarkus" && r.provider != "Spring-Boot" && r.provider != "Main" then Some(Unknown)
    else match poll.release(r.provider)
      case FetchFailed(_) => Some(Unknown)
      case Released(version) =>
        var running := if r.provider == "Spring-Boot" then r.camelVersion else r.version;
        Some(if version != "" && version != running then True else False)
  }

  lemma UpgradeConditionSays(r: Runtime, poll: Poll)
    ensures UpgradeVerdict(r, poll)
         == match UpgradeCondition(r, poll) { case Some(c) => Some(c.status) case None => None }
    ensures UpgradeVerdict(r, poll) == Some(True) ==>
              UpgradeCondition(r, poll).value.message
              == "New Camel " + r.provider + " runtime version " + poll.release(r.provider).version + " is available" +
                 if r.provider == "Quarkus" then " (Camel " + r.camelVersion + ")" else ""
  {
    if UpgradeVerdict(r, poll) == Some(True) && r.provider != "Quarkus" {
      var version := poll.release(r.provider).version;
      var message := "New Camel " + r.provider + " runtime version " + version + " is available";
      assert message + "" == message;
    }
  }

  /** The part of Handle that reads the new pods. */
  method Summarize(cmon: CamelMonitor, target: CamelMonitor, poll: Poll)
    requires target != cmon
    modifies target`status
    ensures target.status
            == WithSuccessRate(WithInfo(old(target.status), poll), cmon.status.pods, target.annotations, poll)
  {
    var pods := target.status.pods;
    var info := GetInfo(pods);
    if info != None {
      target.status := target.status.(info := FormatRuntimeInfo(info.value));
      CheckVersionUpgrade(info.value, target, poll);
    }
    assert target.status == WithInfo(old(target.status), poll);
    var before := GetInfo(cmon.status.pods);
    if before != None && info != None {
      var interval := Setting(target.annotations, POLLING_INTERVAL, poll.pollingSeconds);
      var errPerc := Setting(target.annotations, SLI_ERROR_PERCENTAGE, poll.errorPercentage);
      var warnPerc := Setting(target.annotations, SLI_WARNING_PERCENTAGE, poll.warningPercentage);
      var rate := GetSliExchangeSuccessRate(before.value, info.value, interval, errPerc, warnPerc);
      target.status := target.status.(successRate := Some(rate));
    }
  }

  /** The part of Handle up to the listing of the pods; ok tells whether they could be listed. */
  method Begin(cmon: CamelMonitor, owner: Owner, poll: Poll) returns (target: CamelMonitor, ok: bool)
    requires poll.annotations == cmon.annotations
    ensures fresh(target) && target.annotations == InForce(poll, owner)
    ensures ok == poll.listed.Some?
    ensures target.status == if ok then Listed(cmon.status, owner, poll) else Started(cmon.status, owner)
  {
    target := new CamelMonitor(cmon.annotations, cmon.status);
    target.ImportCamelAnnotations(OwnerAnnotations(owner));
    var conf := AppConf(target.annotations, poll.env, target.status.pods);
    target.status := NO_STATUS.(info := cmon.status.info, successRate := cmon.status.successRate);
    target.status := target.status.(phase := PhaseOf(owner));
    target.status := target.status.(image := ImageOf(owner));
    if poll.listed == None {
      return target, false;
    }
    var pods := GetPods(poll.listed.value, poll.net, conf, owner.DeploymentOwner?, LimitOf(owner));
    target.status := target.status.(pods := pods);
    target.status := target.status.(replicas := ReplicasOf(owner));
    return target, true;
  }

  /** SetMonitoringCondition of the owner's kind. */
  method Finish(cmon: CamelMonitor, target: CamelMonitor, owner: Owner, poll: Poll)
    requires target != cmon
    modifies target`status
    ensures target.status == WithConditions(old(target.status), cmon.status, owner, poll)
  {
    var pods := target.status.pods;
    match owner {
      case DeploymentOwner(_) =>
        var cs := AddDeploymentConditions(target.status.conditions, pods, cmon.status.replicas, poll.now);
        target.status := target.status.(conditions := cs);
      case CronJobOwner(c) =>
        var cs, info := AddCronJobConditions(target.status.conditions, target.status.info, pods, c.lastSchedule,
                                             c.lastSuccess, poll.now);
        target.status := target.status.(conditions := cs, info := info);
    }
  }

  lemma SummaryKeepsPods(before: Status, owner: Owner, poll: Poll)
    requires poll.listed.Some?
    ensures Aggregated(before, owner, poll).pods == Listed(before, owner, poll).pods
    ensures Listed(before, owner, poll).pods == [] ==> Aggregated(before, owner, poll) == Listed(before, owner, poll)
  {
    hide Started;
    var s := Listed(before, owner, poll);
    assert WithInfo(s, poll).pods == s.pods;
    InfoNoneIff([]);
  }

  /** Handle: a fresh copy is filled step by step; what was filled so far is returned with most errors. */
  method Handle(cmon: CamelMonitor, poll: Poll) returns (target: CamelMonitor?, err: bool)
    requires poll.annotations == cmon.annotations
    ensures target == null || fresh(target)
    ensures (if target == null then None else Some(target.status), err) == Outcome(cmon.status, poll)
  {
    hide Listed, Started, InForce, WithInfo, WithSuccessRate, WithConditions;
    var found := OwnerOf(poll);
    if found == None {
      return null, true;
    }
    var owner := found.value;
    var ok: bool;
    target, ok := Begin(cmon, owner, poll);
    if !ok {
      return target, true;
    }
    SummaryKeepsPods(cmon.status, owner, poll);
    if |target.status.pods| != 0 {
      Summarize(cmon, target, poll);
      if poll.podMonitorFails {
        return target, true;
      }
      if poll.dashboardFails {
        return target, true;
      }
    }
    assert target.status == Aggregated(cmon.status, owner, poll);
    Finish(cmon, target, owner, poll);
    return target, false;
  }

  /** The reconciler; its list of actions is filled by the first reconcile of any resource. */
  class Reconciler {
    var initialised: bool

    constructor ()
      ensures !initialised
    {
      initialised := false;
    }

    /** Reconcile: the stored resource is replaced by what the patch of the handled copy makes of it. The first
        reconcile also creates the alert rules and ends there when that fails; no later one does. */
    method Reconcile(stored: CamelMonitor, poll: Poll, alertRulesFail: bool) returns (err: bool)
      requires poll.annotations == stored.annotations
      requires poll.haltedAtStart == (!initialised && alertRulesFail)
      modifies this, stored`status
      ensures initialised
      ensures stored.status == Step(old(stored.status), poll)
      ensures var (status, failed) := Outcome(old(stored.status), poll);
              err <==> poll.haltedAtStart || failed || (status.Some? && poll.patchFails)
    {
      if !initialised {
        initialised := true;
        if alertRulesFail {
          return true;
        }
      }
      var target, failed := Handle(stored, poll);
      if target != null {
        if !poll.patchFails {
          stored.status := target.status;
        }
        return failed || poll.patchFails;
      }
      return failed;
    }
  }
}
