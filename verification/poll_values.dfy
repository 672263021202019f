/** What the status of a poll says, read off what the poll observed. */
module PollValues {
  import opened Options
  import opened Decimal
  import opened Api
  import opened EndpointScan
  import opened ObservabilityConf
  import opened Probing
  import opened Aggregate
  import opened Sli
  import opened Conditions
  import opened MonitorPoll
  import opened ServicesFound
  import opened ScrapedValues
  import opened PollRuns

  // ---- The owner and its pods -------------------------------------------------------------

  /** Whatever status is returned carries the image and the phase of the owner, the number of replicas once the pods are
      listed, and the listed pods in their order. A status that is not stored changes nothing. */
  lemma StatusCarriesOwner(before: Status, poll: Poll)
    requires OwnerOf(poll).Some?
    ensures CarriesOwner(Outcome(before, poll).0.value, OwnerOf(poll).value, poll.listed.Some?)
    ensures poll.patchFails || poll.haltedAtStart ==> Step(before, poll) == before
    ensures !poll.patchFails && !poll.haltedAtStart ==> Step(before, poll) == Outcome(before, poll).0.value
  {
    hide CarriesOwner, Aggregated, Started, DeploymentConditions, CronJobConditions, CronJobSummary;
    var owner := OwnerOf(poll).value;
    StartedCarries(before, owner);
    if poll.listed.Some? {
      AggregatedCarries(before, owner, poll);
      CarriesAlike(Aggregated(before, owner, poll), Outcome(before, poll).0.value, owner, true);
    }
  }

  predicate CarriesOwner(s: Status, owner: Owner, listed: bool) {
    match owner
    case DeploymentOwner(d) =>
      && s.image == d.image && (listed ==> s.replicas == d.specReplicas)
      && (s.phase == Failing <==> d.available != d.replicas)
      && (s.phase == Paused <==> d.available == 0 && d.replicas == 0)
      && (s.phase == Running <==> d.available == d.replicas && d.replicas != 0)
    case CronJobOwner(c) =>
      && s.image == c.image && (listed ==> s.replicas == Some(c.active as int))
      && s.phase == if c.active > 0 then Running else Paused
  }

  lemma CarriesAlike(s: Status, t: Status, owner: Owner, listed: bool)
    requires CarriesOwner(s, owner, listed) && t.image == s.image && t.phase == s.phase && t.replicas == s.replicas
    ensures CarriesOwner(t, owner, listed)
  {
  }

  lemma StartedCarries(before: Status, owner: Owner)
    ensures CarriesOwner(Started(before, owner), owner, false)
  {
  }

  lemma AggregatedCarries(before: Status, owner: Owner, poll: Poll)
    requires poll.listed.Some?
    ensures CarriesOwner(Aggregated(before, owner, poll), owner, true)
  {
    hide PodRecords, SliOf, UpgradeCondition, InfoOf, Setting, FormatRuntimeInfo;
  }

  lemma OutcomePods(before: Status, poll: Poll)
    requires OwnerOf(poll).Some? && poll.listed.Some?
    ensures var owner := OwnerOf(poll).value;
            Outcome(before, poll).0.value.pods
            == PodRecords(poll.listed.value, poll.net, AppConf(InForce(poll, owner), poll.env, before.pods),
                          owner.DeploymentOwner?, LimitOf(owner))
  {
    OutcomeConditions(before, poll);
    AggregatedShape(before, OwnerOf(poll).value, poll);
  }

  /** Every listed pod is recorded under its own name, with what Kubernetes says of it. */
  lemma PodsCarryIdentity(before: Status, poll: Poll, j: nat)
    requires OwnerOf(poll).Some? && poll.listed.Some? && j < |poll.listed.value|
    ensures var pods, o := Outcome(before, poll).0.value.pods, poll.listed.value[j];
            && |pods| == |poll.listed.value|
            && var id := pods[j].identity;
               && id.name == o.name && id.internalIp == o.ip && id.phase == o.phase && id.jolokia == o.jolokia
               && (id.ready <==> o.readyCondition.Some? && o.readyCondition.value.0)
               && id.uptime == match o.readyCondition { case Some(c) => Some(c.1) case None => None }
  {
    OutcomePods(before, poll);
    var owner, o := OwnerOf(poll).value, poll.listed.value[j];
    var conf := AppConf(InForce(poll, owner), poll.env, before.pods);
    RecordKeepsIdentity(o, poll.net, conf, owner.DeploymentOwner?, LimitOf(owner));
  }

  lemma RecordKeepsIdentity(o: PodObject, net: Network, conf: Conf, inspect: bool, limit: Option<string>)
    ensures PodRecord(o, net, conf, inspect, limit).identity == Identified(o).identity
  {
    hide Inspected;
    InspectionRecords(Identified(o), ProberOf(net, o.ip), conf, limit);
  }

  // ---- Scraped counters -------------------------------------------------------------------

  /** What the scrape of one pod counts under a name; zero for a pod that is not ready or whose metrics are not found.
      */
  function CountAt(o: PodObject, net: Network, conf: Conf, name: string): int {
    var m := ScrapedMetrics(ProberOf(net, o.ip), conf);
    if IsReady(o) && m.Some? then CountIn(m.value, name) else 0
  }

  function ListedCount(os: seq<PodObject>, net: Network, conf: Conf, name: string): int {
    if os == [] then 0 else ListedCount(os[..|os| - 1], net, conf, name) + CountAt(os[|os| - 1], net, conf, name)
  }

  lemma RecordCounts(o: PodObject, net: Network, conf: Conf, limit: Option<string>)
    ensures var e := ExchangeOf(PodRecord(o, net, conf, true, limit));
            && e.total == CountAt(o, net, conf, "camel_exchanges_total")
            && e.failed == CountAt(o, net, conf, "camel_exchanges_failed_total")
            && e.succeeded == CountAt(o, net, conf, "camel_exchanges_succeeded_total")
  {
    hide Inspected, Finds, HoldsResources, HoldsTexts, ScrapedMetrics;
    var probe := ProberOf(net, o.ip);
    if IsReady(o) {
      if m :| ScrapedMetrics(probe, conf) == Some(m) {
        FindsByScan(probe, conf, m);
        InspectedHolds(Identified(o), probe, conf, limit, m);
      } else {
        forall m ensures !Finds(probe, conf, m) {
          FindsByScan(probe, conf, m);
        }
        UnscrapedHolds(Identified(o), probe, conf, limit);
      }
    }
  }

  lemma {:induction false} RecordsCount(os: seq<PodObject>, net: Network, conf: Conf, limit: Option<string>)
    ensures var e := ExchangeSum(PodRecords(os, net, conf, true, limit));
            && e.total == ListedCount(os, net, conf, "camel_exchanges_total")
            && e.failed == ListedCount(os, net, conf, "camel_exchanges_failed_total")
            && e.succeeded == ListedCount(os, net, conf, "camel_exchanges_succeeded_total")
  {
    hide PodRecord, CountAt, ExchangeOf;
    var pods := PodRecords(os, net, conf, true, limit);
    if os != [] {
      var n := |os| - 1;
      RecordsCount(os[..n], net, conf, limit);
      assert pods[..n] == PodRecords(os[..n], net, conf, true, limit);
      RecordCounts(os[n], net, conf, limit);
    }
  }

  /** What a poll of a Deployment scrapes under a name from all its pods. */
  ghost function PollCount(before: Status, poll: Poll, name: string): int
    requires Scraped(poll)
  {
    ListedCount(poll.listed.value, poll.net, AppConf(InForce(poll, OwnerOf(poll).value), poll.env, before.pods), name)
  }

  lemma StoredCounts(before: Status, poll: Poll)
    requires Scraped(poll)
    ensures var e := ExchangeSum(Step(before, poll).pods);
            && e.total == PollCount(before, poll, "camel_exchanges_total")
            && e.failed == PollCount(before, poll, "camel_exchanges_failed_total")
            && e.succeeded == PollCount(before, poll, "camel_exchanges_succeeded_total")
  {
    hide PodRecord, ListedCount, ExchangeSum, Aggregated;
    CommittedKeepsPods(before, poll);
    var owner := OwnerOf(poll).value;
    var conf := AppConf(InForce(poll, owner), poll.env, before.pods);
    RecordsCount(poll.listed.value, poll.net, conf, LimitOf(owner));
  }

  /** From the counters to the stored interval: after two scraping polls in a row, whose pods have aggregates, the
      second status reports by how much the scraped counters rose in total from the first poll to the second. */
  lemma IntervalFromCounters(before: Status, first: Poll, second: Poll)
    requires Scraped(first) && Scraped(second)
    ensures var one := Step(before, first);
            var two := Step(one, second);
            InfoOf(one.pods).Some? && InfoOf(two.pods).Some? ==>
              && two.successRate.Some?
              && two.successRate.value.total
                 == Rise(PollCount(before, first, "camel_exchanges_total"),
                         PollCount(one, second, "camel_exchanges_total"))
              && two.successRate.value.failed
                 == Rise(PollCount(before, first, "camel_exchanges_failed_total"),
                         PollCount(one, second, "camel_exchanges_failed_total"))
  {
    hide Step, PollCount, ExchangeSum, InfoOf, Outcome;
    var one := Step(before, first);
    StoredCounts(before, first);
    StoredCounts(one, second);
    ScrapedIsCommitted(one, second);
    CommittedReports(one, second);
  }

  lemma ScrapedIsCommitted(before: Status, poll: Poll)
    requires Scraped(poll)
    ensures Committed(before, poll)
  {
  }

  // ---- The success rate -------------------------------------------------------------------

  /** A setting is the integer that the annotation prints, and the operator's own without the annotation. */
  lemma SettingReads(annotations: Annotations, key: string, default: int, n: int)
    ensures key !in annotations || annotations[key] == "" ==> Setting(annotations, key, default) == default
    ensures key in annotations && annotations[key] == IntText(n) ==> Setting(annotations, key, default) == n
  {
    IntTextRoundTrip(n);
  }

  /** An annotation in force is the owner's, and the monitor's own when the owner has none. */
  lemma InForceReads(poll: Poll, owner: Owner, key: string)
    requires "camel.apache.org" <= key
    ensures var theirs := if owner.DeploymentOwner? then owner.deployment.annotations else owner.cronJob.annotations;
            Lookup(InForce(poll, owner), key) == if key in theirs then theirs[key] else Lookup(poll.annotations, key)
  {
  }

  /** The status of a rate: a hundred times the failures are compared with the total times the thresholds. */
  function StatusFor(total: int, failed: int, error: int, warning: int): SliStatus {
    if total <= 0 then (if warning < 0 then Error else if error < 0 then Warning else Unset)
    else if 100 * failed > warning * total then Error
    else if 100 * failed > error * total then Warning
    else Success
  }

  /** The text of a percentage: empty without new exchanges, else the rate of the others than the failed ones, to two
      decimals. */
  predicate PercentageReads(text: string, total: int, failed: int) {
    if total <= 0 then text == ""
    else
      && ParseFixed(text).Some?
      && -0.005 <= ParseFixed(text).value - (100.0 - failed as real / total as real * 100.0) <= 0.005
  }

  lemma PrintedReads(total: int, failed: int)
    ensures PercentageReads(if total > 0 then FormatFixed(100.0 - FailureRate(total, failed), 2) else "", total, failed)
  {
    hide FormatFixed, ParseFixed, RoundedTo;
    if total > 0 {
      PrintedNear(100.0 - FailureRate(total, failed));
    }
  }

  lemma PrintedNear(x: real)
    ensures ParseFixed(FormatFixed(x, 2)).Some? && -0.005 <= ParseFixed(FormatFixed(x, 2)).value - x <= 0.005
  {
    hide FormatFixed, ParseFixed, RoundedTo;
    FormatParse(x, 2);
    assert Pow10(2) == 100 by { assert Pow10(1) == 10 && Pow10(0) == 1; }
    RoundedError(x, 100);
  }

  /** A rate between two aggregates: its length is the setting of its own annotation, its time that of the last
      exchange, and its status compares with the thresholds of their own annotations. */
  predicate RateReads(rate: SuccessRate, before: Exchange, now: Exchange, a: Annotations, poll: Poll) {
    && rate.interval == Setting(a, "camel.apache.org/polling-interval-seconds", poll.pollingSeconds)
    && rate.lastTimestamp == now.lastTimestamp
    && PercentageReads(rate.percentage, now.total - before.total, now.failed - before.failed)
    && rate.status
       == StatusFor(now.total - before.total, now.failed - before.failed,
                    Setting(a, "camel.apache.org/sli-exchange-error-percentage", poll.errorPercentage),
                    Setting(a, "camel.apache.org/sli-exchange-warning-percentage", poll.warningPercentage))
  }

  lemma SettingKeys()
    ensures POLLING_INTERVAL == "camel.apache.org/polling-interval-seconds"
    ensures SLI_ERROR_PERCENTAGE == "camel.apache.org/sli-exchange-error-percentage"
    ensures SLI_WARNING_PERCENTAGE == "camel.apache.org/sli-exchange-warning-percentage"
  {
  }

  lemma SliReads(before: Info, now: Info, a: Annotations, poll: Poll)
    ensures RateReads(SliOf(before, now, Setting(a, POLLING_INTERVAL, poll.pollingSeconds),
                            Setting(a, SLI_ERROR_PERCENTAGE, poll.errorPercentage),
                            Setting(a, SLI_WARNING_PERCENTAGE, poll.warningPercentage)),
                      before.exchange.value, now.exchange.value, a, poll)
  {
    hide Setting, Classify, FailureRate, FormatFixed, PercentageReads;
    SettingKeys();
    PrintedReads(TotalGrowth(before, now), FailedGrowth(before, now));
    StatusByIntegers(before, now, Setting(a, POLLING_INTERVAL, poll.pollingSeconds),
                     Setting(a, SLI_ERROR_PERCENTAGE, poll.errorPercentage),
                     Setting(a, SLI_WARNING_PERCENTAGE, poll.warningPercentage));
  }

  /** The rate that a stored poll reports is read off the two aggregates and the settings in force. */
  lemma StoredRateReads(before: Status, poll: Poll)
    requires Committed(before, poll)
    ensures var s := Step(before, poll);
            InfoOf(before.pods).Some? && InfoOf(s.pods).Some? ==>
              && s.successRate.Some?
              && RateReads(s.successRate.value, ExchangeSum(before.pods), ExchangeSum(s.pods),
                           InForce(poll, OwnerOf(poll).value), poll)
  {
    hide ExchangeSum, InfoOf, Listed, Started, InForce, RateReads, Aggregated;
    CommittedKeepsPods(before, poll);
    NoPodsNoInfo();
    var s := Step(before, poll);
    if InfoOf(before.pods).Some? && InfoOf(s.pods).Some? {
      AggregatedRateReads(before, OwnerOf(poll).value, poll);
    }
  }

  lemma AggregatedRateReads(before: Status, owner: Owner, poll: Poll)
    requires poll.listed.Some? && InfoOf(before.pods).Some? && InfoOf(Listed(before, owner, poll).pods).Some?
    ensures var rate := Aggregated(before, owner, poll).successRate;
            && rate.Some?
            && RateReads(rate.value, ExchangeSum(before.pods), ExchangeSum(Listed(before, owner, poll).pods),
                         InForce(poll, owner), poll)
  {
    hide ExchangeSum, Aggregated, Listed, Setting, InForce, InfoOf, SliOf, RateReads;
    AggregatedRate(before, owner, poll);
    var pods := Listed(before, owner, poll).pods;
    InfoNoneIff(before.pods);
    InfoNoneIff(pods);
    SliReads(InfoOf(before.pods).value, InfoOf(pods).value, InForce(poll, owner), poll);
  }

  // ---- Texts ------------------------------------------------------------------------------

  /** The info line names provider and versions of the aggregate; that of a CronJob with pods how many of its finished
      jobs succeeded. */
  lemma InfoReads(before: Status, poll: Poll)
    requires IsComplete(poll)
    ensures Outcome(before, poll).0.Some?
    ensures var s := Outcome(before, poll).0.value;
            match OwnerOf(poll).value
            case DeploymentOwner(_) =>
              s.info == if InfoOf(s.pods) == None then before.info
                        else (var r := InfoOf(s.pods).value;
                              if r.provider == "" then ""
                              else r.provider + " - " + r.version + " (" + r.camelVersion + ")")
            case CronJobOwner(_) =>
              s.pods != [] ==>
                s.info == IntText(|InPhase(s.pods, "Succeeded")|) + " out of last " +
                          IntText(|s.pods| - |InPhase(s.pods, "Running")|) + " job succeeded"
  {
    hide PodRecords, SliOf, UpgradeCondition, InfoOf, IntText, InPhase, CountPhase, DeploymentConditions,
         CronJobConditions;
    var s := Outcome(before, poll).0.value;
    SummaryKeepsPods(before, OwnerOf(poll).value, poll);
    CountIsNumber(s.pods, "Succeeded");
    CountIsNumber(s.pods, "Running");
  }

  /** When every pod is ready the Monitored condition compares their number with the replicas that the last status
      recorded. */
  lemma MonitoredReads(before: Status, poll: Poll)
    requires IsComplete(poll) && OwnerOf(poll).value.DeploymentOwner? && poll.listed.value != []
    requires forall o :: o in poll.listed.value ==> IsReady(o)
    ensures Outcome(before, poll).0.Some?
    ensures var c, n := Find(Outcome(before, poll).0.value.conditions, "Monitored"), |poll.listed.value|;
            c.Some? && c.value.message
                       == if before.replicas.Some? && before.replicas.value != n then
                            IntText(n) + " out of " + IntText(before.replicas.value) + " pods available"
                          else "Success"
  {
    hide SaysUp, IntText, PodRecord;
    var owner, os := OwnerOf(poll).value, poll.listed.value;
    var conf := AppConf(InForce(poll, owner), poll.env, before.pods);
    OutcomeConditions(before, poll);
    AggregatedShape(before, owner, poll);
    var agg := Aggregated(before, owner, poll);
    assert agg.pods == PodRecords(os, poll.net, conf, true, LimitOf(owner));
    HealthFound(agg.conditions, agg.pods, before.replicas, poll.now);
    RecordsUpIff(os, agg.pods, poll.net, conf, LimitOf(owner));
  }
}
