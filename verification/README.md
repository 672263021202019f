# Camel Monitor Operator: a verified model

The operator watches Camel applications on Kubernetes. For each one it keeps a `CamelMonitor` resource whose status it
refreshes by polling: it searches the application's pods for working health and metrics endpoints, reads counters and
gauges, folds the pods into one aggregate, and derives a success rate and a list of conditions. Monitors are created and
deleted by events on labelled Deployments and CronJobs. Beside this the repository holds a cache of Maven metadata, a
reconciler for a console plugin and a generator that embeds a DSL schema in a CRD schema.

The project models these parts and proves what holds over every input and every run.

| file | models |
|---|---|
| `options.dfy`, `text.dfy`, `decimal.dfy` | optional values, splitting of strings, decimal printing and parsing |
| `api.dfy` | the `CamelMonitor` resource as a value: what the API server stores |
| `api_objects.dfy` | the status as objects in memory, written in place and deep-copied |
| `endpoint_scan.dfy` | the two-level endpoint search with its early exits, its cost, and what narrowing the candidates keeps |
| `observability_conf.dfy` | which candidates a poll tries: annotations, environment, the remembered pair, defaults |
| `metrics.dfy`, `probing.dfy` | reading metric families; scraping one pod and listing all pods |
| `services_found.dfy` | what a scrape records, and what the record does to the next search |
| `scraped_values.dfy` | what the scrape of a pod leaves in its record, metric by metric and code by code |
| `memory.dfy` | how a remembered pair is kept, dropped and found again over polls |
| `aggregate.dfy`, `sli.dfy` | folding pods; the success rate over an interval |
| `conditions.dfy`, `monitor.dfy` | conditions; one poll, and how it becomes the stored status |
| `poll_runs.dfy` | facts about every run of polls |
| `poll_values.dfy` | what the status of a poll says, read off what the poll observed |
| `registry.dfy` | the store of synthetic monitors driven by add and delete events |
| `imported_owner.dfy` | how a monitor of the registry leads its polls to the object it was imported from |
| `schema_refs.dfy` | rebasing of JSON Schema references (sections 4 and 6 of RFC 6901) and relocation of definitions |
| `maven_cache.dfy` | the Maven metadata caches with their time to live |
| `console.dfy` | the console plugin reconciler |

Code that works step by step is written as methods over classes and loops, each proved equal to a function of its inputs
or of the old state; the theorems are lemmas about those functions.

## Assumptions

- `float64` is idealised as `real`: no rounding, NaN or infinity, except that the division by a zero CPU limit follows
  the infinities and NaN it would give. Integers are unbounded.
- Printing with a fixed precision rounds half to even; parsing covers the plain decimal notation, which is all that the
  operator prints.
- The text parser of metrics drops families without samples, so a family that is present has one; this is what the heap
  gauges rely on. A gauge whose family is missing reads as zero and not as absent, so the last exchange timestamp and the
  CPU usage are always set after a successful scrape.
- A status handed to the API server is stored as it is, and the next poll reads it. Reads see earlier writes. Creating an
  object fails when its name is taken or empty.
- The theorems about remembered endpoints let pods differ, and change, in everything that is measured and at every address
  that no search tries; only which of the requests tried fail, end a search or succeed must be alike.
- During one poll the network answers each request the same way. All times of one poll are one instant.

## Findings

- The nested search is not always the lexicographic search it looks like: `ScanIsLexicographicIff` says exactly when, and
  `TimeoutHidesAnswer` gives a port on which a time-out hides the answer.
- A remembered pair is kept for as long as it works, even when a full search would find another one. For metrics it works
  while it answers 200 with readable metrics (`MetricsRecoverIff`); for health it is kept while it answers 200 or 503, even
  with a body that is no health document (`HealthRecoversIff`). `MovedIsMissed` is an instance of both.
- The threshold called "warning" marks an error and the one called "error" marks a warning (`StatusByIntegers`).
- With a shared label, deleting an object removes the un-suffixed monitor whoever owns it: `DeleteHitsItsOwnIff` says for
  every store when a delete ends exactly its own import, `DeleteHitsTheOther` gives an instance. An object added again
  after its label was freed this way is imported twice (`NeverTwiceIff`, `SharedLabelDoubles`), and then its delete
  leaves the suffixed monitor behind (`DoubledOutlivesDelete`).
- A Deployment annotated as imported from something else is imported a second time when it is added again, unless one of
  its two names was taken before, and then no more: `AddTwiceIff`, `ClaimingIsAddedTwice`, `ThirdAddIsNoOp`. Suffixed
  names can collide with labels and lose an import: `AddImportsIff` and `RunImportsIff` say exactly when,
  `AmbiguousNamesLoseAnImport` gives an instance.
- A reference that does not start with the token `items` is broken by the remapping (`RemapIsPointerIff`,
  `RootReferenceIsBroken`). One to the items themselves denotes the root of the CRD schema
  afterwards, and one that leads past them but not to their definitions denotes something of the CRD schema
  (`OtherRefsPointIntoCrd`, `ItemReferenceIsLost`). A reference in a list in a list is not remapped at all (`RefRemappedIff`,
  `NestedRefStays`).
- A failed fetch of Maven metadata is not remembered: every later call goes to the repository again
  (`FailuresAreRepeated`).
- The message of the CPU pressure condition speaks of memory pressure.

## Model

| member | source | states |
|---|---|---|
| EndpointScan.ScanIsLexicographicIff | pkg/controller/synthetic/synthetic_support.go:237-261 | the nested search ends at the pair that trying all pairs in lexicographic order finds, if and only if no dead answer on that port comes before it |
| EndpointScan.ScanIsLexicographic | pkg/controller/synthetic/synthetic_support.go:237-261 | when only the port decides reachability the two searches always agree |
| EndpointScan.DeadPortCostsOneProbe | pkg/controller/synthetic/synthetic_support.go:248-252 | inserting a dead port anywhere among the candidates never changes what is found and costs exactly one request if it is reached, none otherwise |
| EndpointScan.TraceEndsAtHit | pkg/controller/synthetic/synthetic_support.go:239-257 | every request of a search but the last, and the last too when nothing is found, met a dead port or a 404; when the search ends its last request is the pair found, which could not be asked for or responded with another code |
| EndpointScan.ScanEndsIff | pkg/controller/synthetic/synthetic_support.go:237-295 | a search ends at a pair if and only if that is the first answer other than a 404 on the first port that is not given up, a port being given up when only 404s precede a dead answer or the end of the list |
| EndpointScan.NarrowedScanAgrees | pkg/controller/synthetic/synthetic_support.go:159-222 | searching any narrower candidate lists that still hold the winner and put nothing new before it finds the same winner |
| EndpointScan.SubsequenceNarrows | pkg/controller/synthetic/synthetic_support.go:159-222 | every subsequence of candidates that still holds the winner is such a narrower list, when no candidate is listed twice; `DuplicatesLoseTheWinner` shows why |
| ObservabilityConf.CandidatesNarrow | pkg/controller/synthetic/synthetic_support.go:185-235 | remembering nothing, or a winner of the full search, gives candidates that keep that winner in front |
| ObservabilityConf.ConfChosen | pkg/controller/synthetic/synthetic_support.go:159-235 | each of the four candidate lists is that of its own annotation, cut at commas, else of its own setting, else what the first pod remembers of it, else its own defaults |
| Text.SplitJoin | pkg/controller/synthetic/synthetic_support.go:185-188 | splitting an annotation loses no character and leaves no separator in a piece |
| MetricsReading.GetGauge | pkg/controller/synthetic/synthetic_support.go:438-456 | the loop yields the sum of the gauge samples that carry the wanted label, and zero for a missing family |
| MetricsReading.LevelSumAppend | pkg/controller/synthetic/synthetic_support.go:448-452 | the sum over a concatenation of samples is the sum of the parts |
| MetricsReading.LevelOfOne | pkg/controller/synthetic/synthetic_support.go:448-470 | a single sample counts with its level when it is a gauge and carries the wanted label, else with zero |
| Probing.Client.Get | pkg/controller/synthetic/synthetic_support.go:274-274 | one request is issued and recorded |
| Probing.StoreMetrics | pkg/controller/synthetic/synthetic_support.go:306-376 | a successful scrape writes the pair, the runtime, the exchange counters and the memory readings into the pod and nothing else |
| Probing.CollectMetrics | pkg/controller/synthetic/synthetic_support.go:264-377 | one request; a dead port or a 404 leaves the pod as it is and reports no error, any other answer is handled and ends the search |
| Probing.TryMetricsPort | pkg/controller/synthetic/synthetic_support.go:242-257 | the inner loop stops where the search on one port stops, issues exactly the requests of that search, and leaves the pod alone when the port is given up |
| Probing.SetMetrics | pkg/controller/synthetic/synthetic_support.go:237-261 | the loops compute the search's result in place and issue exactly its requests, in order |
| Probing.CheckHealthEndpoint | pkg/controller/synthetic/synthetic_support.go:501-558 | one request; 200 and 503 record the pair before the body is read, other codes report their status line |
| Probing.TryHealthPort | pkg/controller/synthetic/synthetic_support.go:479-494 | the inner loop over the endpoints of one port |
| Probing.SetHealth | pkg/controller/synthetic/synthetic_support.go:474-498 | the loops compute the health search's result in place and issue exactly its requests |
| Probing.StatusLine | pkg/controller/synthetic/synthetic_support.go:528-528 | no HTTP status line reads UP |
| Probing.SetCpuPressure | pkg/controller/synthetic/synthetic_support.go:130-154 | the flag is only ever raised, by the comparison of the two parsed texts; an unparsable text leaves it |
| Probing.CpuPressureSurvivesText | pkg/controller/synthetic/synthetic_support.go:130-154 | for every usage and positive limit, printing and parsing both sets the flag exactly when ten times the rounded millicores reach nine times the limit |
| ServicesFound.CpuPressureIff | pkg/controller/synthetic/synthetic_support.go:100-154 | a listed pod is under CPU pressure exactly when it is ready, its metrics were found, and the scraped usage reaches nine tenths of a positive limit |
| ServicesFound.MemoryPressureIff | pkg/controller/synthetic/synthetic_support.go:356-376 | a listed pod is under memory pressure exactly when it is ready, its metrics were found, and the scraped heap reaches nine tenths of a positive maximum |
| Decimal.FormatParse | pkg/controller/synthetic/synthetic_support.go:352-354 | printing any real at any precision and parsing the text gives the rounded number |
| Decimal.RoundedError | pkg/controller/camel_monitor/monitor.go:296-296 | the printed number is within half a unit of its last place |
| Decimal.RoundedInRange | pkg/controller/camel_monitor/monitor.go:296-296 | rounding does not leave an interval with integer bounds |
| Probing.InspectPod | pkg/controller/synthetic/synthetic_support.go:100-127 | a pod is scraped for health, then metrics, then CPU pressure, with the reasons of both failures kept and the requests of the two searches issued in that order |
| Probing.GetPods | pkg/controller/synthetic/synthetic_support.go:59-97 | one record per listed pod in order; only ready pods are scraped |
| ServicesFound.InspectionRecords | pkg/controller/synthetic/synthetic_support.go:100-127 | inspection records exactly the service its two searches find and leaves the pod's identity alone |
| ServicesFound.MetricsRecordedIff | pkg/controller/synthetic/synthetic_support.go:290-307 | metrics are recorded at a pair if and only if the search ends there with code 200 and readable metrics |
| ServicesFound.HealthRecordedIff | pkg/controller/synthetic/synthetic_support.go:530-548 | health is recorded at a pair if and only if the search ends there with code 200 or 503 |
| ScrapedValues.InspectedHolds | pkg/controller/synthetic/synthetic_support.go:306-376 | when metrics are found, every counter, gauge, timestamp, text and resource of the pod is what the metric of its own name says |
| ScrapedValues.UnscrapedHolds | pkg/controller/synthetic/synthetic_support.go:237-261 | when they are not, nothing is recorded of exchanges, memory and CPU usage |
| ScrapedValues.StatusRecorded | pkg/controller/synthetic/synthetic_support.go:528-554 | the status of a pod is that of the health document of a 200 or 503, or the status line of another answer that ended the search |
| ScrapedValues.ReasonTells | pkg/controller/synthetic/synthetic_support.go:100-121 | the reason of a pod tells which of its two scrapes failed, in their order, and is empty exactly when none did |
| ServicesFound.MetricsErrorChangesNothing | pkg/controller/synthetic/synthetic_support.go:237-315 | setMetrics reports an error exactly when no working pair is found, and then the pod is wholly unchanged |
| ServicesFound.RememberedServiceAgrees | pkg/controller/synthetic/synthetic_support.go:159-222 | searching from the remembered service finds the service of the full search again |
| ServicesFound.RememberedPairCostsOneProbe | pkg/controller/synthetic/synthetic_support.go:203-206 | with defaults in force, each of the two searches of a pod issues one request when its pair is remembered |
| ServicesFound.RememberedHealthRecordedIff | pkg/controller/synthetic/synthetic_support.go:539-548 | a remembered health pair is recorded again exactly while it answers 200 or 503 |
| ServicesFound.InspectedUpIff | pkg/controller/synthetic/synthetic_support.go:550-554 | a pod is up after inspection exactly when its health search ends at a document saying UP |
| ServicesFound.MetricsDoNotTouchHealth | pkg/controller/synthetic/synthetic_support.go:474-498 | answers that differ only in their metrics give the same health |
| PollRuns.StickyEndpointsAgree | pkg/controller/synthetic/synthetic_support.go:159-222 | over every run in which the candidates answer alike on every ready pod and keep doing so, while what they measure changes freely, every poll records on every ready pod exactly what a search over all candidates finds |
| PollRuns.MetricsRecoverIff | pkg/controller/synthetic/synthetic_support.go:203-261 | over every run, whatever polls fail, a scraping poll records the pair a search over all defaults finds once the pair remembered at first was dropped, and before that the old pair if it works and nothing otherwise; so it records the full search's pair if and only if the old one was dropped or is that pair, or both are nothing |
| PollRuns.HealthRecoversIff | pkg/controller/synthetic/synthetic_support.go:539-548 | the same for health, where the old pair counts as working while it answers 200 or 503, whatever the body says |
| PairMemory.RecordedAfter | pkg/controller/synthetic/synthetic_support.go:203-206 | after any sequence of polls what is recorded next depends only on whether the first pair was dropped, by a poll without a record or a scrape it failed |
| PollRuns.HealthyIff | pkg/controller/synthetic/synthetic_support.go:596-630 | with pods, Healthy is True when every pod is ready and its first answer other than a 404 on its first port that is not given up is a 200 or 503 saying UP, and False otherwise; Monitored is True when every pod is ready, and False otherwise |
| PollRuns.PressureIff | pkg/controller/synthetic/synthetic_support.go:632-662 | each of the two pressure conditions is True when on some ready pod metrics are found and the scraped usage reaches nine tenths of the limit or the heap maximum, and False otherwise |
| PollRuns.CronJobHealthyIff | pkg/controller/synthetic/synthetic_cronjob.go:94-160 | a CronJob with pods is Healthy when every pod is running or has succeeded, and not otherwise, and nothing is said without pods; it is Monitored when there are pods, and not otherwise |
| PollRuns.NoPodsUnknown | pkg/controller/synthetic/synthetic_support.go:576-595 | without pods Monitored and Healthy of a Deployment are Unknown and nothing is said of pressure |
| PollRuns.ErrorsReported | pkg/controller/camel_monitor/monitor.go:64-139 | a poll ends in an error exactly when its owner or the list of its pods is missing or, with pods, an optional resource cannot be created; its status then carries no other condition than that of upgrades |
| PollRuns.UpgradeIff | pkg/controller/camel_monitor/monitor.go:225-281 | the upgrade condition is missing without an aggregate, a provider or the check, Unknown for other providers and failed fetches, and else True exactly when the repository of the provider names another release than the one running |
| MonitorPoll.UpgradeConditionSays | pkg/controller/camel_monitor/monitor.go:225-281 | and when True its message names the provider and the new version |
| PollRuns.ConditionsStayBounded | pkg/controller/camel_monitor/monitor.go:64-139 | every status Handle returns, also with an error, holds at most five conditions, all of this poll, of distinct types, each the one found under its type |
| PollRuns.RunsStayBounded | pkg/apis/camel/v1alpha1/camel_monitor_types_support.go:60-66 | over any run the condition list never grows beyond that, although conditions are only appended |
| PollRuns.HistoryIsRetained | pkg/controller/camel_monitor/monitor.go:85-119 | the success rate changes only when there was an aggregate before and there is one now, a Deployment's info line only when there is one now |
| PollRuns.CommittedReports | pkg/controller/camel_monitor/monitor.go:113-119 | a stored poll reports the growth of total and failed exchanges since the previous status, zero when they dropped |
| PollRuns.StoredRateFromPods | pkg/controller/camel_monitor/monitor.go:113-119 | when the pods of two successive statuses are the same, in any order, and each fails no more than it exchanges, the stored percentage is in range and within half a hundredth of the exact rate |
| PollValues.IntervalFromCounters | pkg/controller/camel_monitor/monitor.go:105-119 | after two scraping polls in a row the stored interval is by how much the counters camel_exchanges_total and camel_exchanges_failed_total, scraped from all ready pods, rose from the first poll to the second |
| PollValues.StoredRateReads | pkg/controller/camel_monitor/monitor.go:113-119 | interval, timestamp, percentage and status of a stored rate are read off the aggregates and the settings of their own annotations |
| PollValues.SettingReads | pkg/controller/camel_monitor/camel_monitor_controller.go:199-250 | a setting is the integer its annotation prints, and the operator's own without the annotation |
| PollValues.InForceReads | pkg/controller/camel_monitor/monitor.go:81-83 | an annotation in force is the owner's, else the monitor's own |
| PollValues.StatusCarriesOwner | pkg/controller/camel_monitor/monitor.go:84-104 | every returned status carries the image and phase of its owner, and its replicas once pods are listed; a status that is not stored changes nothing |
| PollValues.PodsCarryIdentity | pkg/controller/synthetic/synthetic_support.go:73-97 | every listed pod is recorded under its name, address and phase, ready by its condition |
| PollValues.InfoReads | pkg/controller/camel_monitor/monitor.go:92-96 | the info line names provider and versions of the aggregate, that of a CronJob how many of its finished jobs succeeded |
| PollValues.MonitoredReads | pkg/controller/synthetic/synthetic_support.go:600-610 | when every pod is ready the message of Monitored compares their number with the replicas of the last status |
| PollRuns.IntervalsConserve | pkg/controller/camel_monitor/monitor.go:105-119 | over any stretch of polls with aggregates the reported intervals add up to at least the growth, and exactly to it if and only if the aggregate never drops |
| Aggregate.GetInfo | pkg/controller/camel_monitor/monitor.go:178-212 | the loop computes the componentwise sums, the latest timestamp and the spokesman's texts |
| Aggregate.AggregateAppend | pkg/controller/camel_monitor/monitor.go:183-204 | aggregating two groups of pods and combining the parts is aggregating all of them |
| Aggregate.AggregateOne | pkg/controller/camel_monitor/monitor.go:190-203 | a single pod is its own aggregate |
| Aggregate.LatestTimestamp | pkg/controller/camel_monitor/monitor.go:196-202 | the timestamp of the aggregate is the latest of any pod's |
| Aggregate.SumIgnoresOrder | pkg/controller/camel_monitor/monitor.go:190-203 | the sums and the latest timestamp do not depend on the order of the pods |
| Aggregate.FirstNamingSpeaks | pkg/controller/camel_monitor/monitor.go:184-189 | provider and both versions come together from the first pod that names a provider |
| Aggregate.LastRunningSpeaks | pkg/controller/camel_monitor/monitor.go:184-189 | when no pod names a provider the versions are those of the last pod with a runtime |
| Aggregate.InfoNoneIff | pkg/controller/camel_monitor/monitor.go:206-209 | there is no aggregate exactly when no pod names a provider and no exchange was counted |
| Sli.GetSliExchangeSuccessRate | pkg/controller/camel_monitor/monitor.go:283-322 | the record filled field by field is the interval's growth, rate and classification |
| Sli.SuccessRateFromPods | pkg/controller/camel_monitor/monitor.go:283-305 | when the same pods, in any order, each fail no more than they exchange, the printed percentage is between 0 and 100 and within half a hundredth of the exact rate |
| Sli.RateInRangeIff | pkg/controller/camel_monitor/monitor.go:293-297 | the rate lies between 0 and 100 exactly when failures grew by no more than the total |
| Sli.SeverityMonotone | pkg/controller/camel_monitor/monitor.go:307-315 | for the same number of exchanges more failures never look better, whatever the thresholds |
| Sli.StatusByIntegers | pkg/controller/camel_monitor/monitor.go:307-315 | the status is decided by integer comparisons of failures with the two thresholds |
| Conditions.AllPodsReady | pkg/controller/synthetic/synthetic_support.go:685-693 | the loop answers whether every pod is ready |
| Conditions.AllPodsUp | pkg/controller/synthetic/synthetic_support.go:707-715 | the loop answers whether every pod reports UP |
| Conditions.PodMemoryPressure | pkg/controller/synthetic/synthetic_support.go:665-673 | the loop answers whether some pod is under memory pressure |
| Conditions.PodCpuPressure | pkg/controller/synthetic/synthetic_support.go:675-683 | the loop answers whether some pod is under CPU pressure |
| Conditions.CountPodsWithStatus | pkg/controller/synthetic/synthetic_support.go:695-705 | the loop counts the pods in a phase |
| Conditions.CountsCoverIff | pkg/controller/synthetic/synthetic_cronjob.go:112-119 | two counts reach the number of pods exactly when every pod is in one of the two phases |
| Conditions.AddDeploymentConditions | pkg/controller/synthetic/synthetic_support.go:576-663 | appends exactly the conditions of the Deployment to those already there |
| Conditions.AddCronJobConditions | pkg/controller/synthetic/synthetic_cronjob.go:104-160 | appends exactly the conditions of the CronJob and replaces the info line when a job has run |
| Api.Find | pkg/apis/camel/v1alpha1/camel_monitor_types_support.go:77-85 | a condition is found under a type exactly when one of that type is in the list |
| Api.FindDistinct | pkg/apis/camel/v1alpha1/camel_monitor_types_support.go:77-85 | with distinct types every condition is the one found under its type |
| Api.GetCondition | pkg/apis/camel/v1alpha1/camel_monitor_types_support.go:77-85 | the loop returns the first condition of a type |
| Api.Imported | pkg/apis/camel/v1alpha1/camel_monitor_types_support.go:69-75 | exactly the keys with the camel prefix are copied over, all others keep their values |
| MonitorPoll.CamelMonitor.ImportCamelAnnotations | pkg/apis/camel/v1alpha1/camel_monitor_types_support.go:69-75 | the loop, in any order of keys, imports the camel annotations |
| MonitorPoll.CheckVersionUpgrade | pkg/controller/camel_monitor/monitor.go:225-281 | appends the upgrade condition, or nothing without a provider or when checking is off |
| MonitorPoll.Handle | pkg/controller/camel_monitor/monitor.go:64-139 | one poll returns a fresh resource with the status it computed, also with most errors, and leaves the resource it was given alone |
| MonitorPoll.Reconciler.Reconcile | pkg/controller/camel_monitor/camel_monitor_controller.go:113-198 | the stored status becomes what Handle returned if it returned one and the patch succeeded, and stays otherwise; only the first reconcile can end before Handle, when its alert rules cannot be created |
| ApiObjects.PodInfo.DeepCopyInto | pkg/apis/camel/v1alpha1/zz_generated.deepcopy.go:281-317 | the copy has the same value, and everything reached from it is newly allocated |
| ApiObjects.RuntimeInfo.DeepCopyInto | pkg/apis/camel/v1alpha1/zz_generated.deepcopy.go:330-337 | the copy has the same value and an exchange record of its own |
| ApiObjects.CopyPods | pkg/apis/camel/v1alpha1/zz_generated.deepcopy.go:90-96 | every pod of a slice is copied into a cell of its own, sharing nothing |
| ApiObjects.CamelMonitorStatus.DeepCopyInto | pkg/apis/camel/v1alpha1/zz_generated.deepcopy.go:88-114 | the copied status has the same value and shares no mutable object with its source |
| ApiObjects.ActOnCopy | pkg/controller/camel_monitor/camel_monitor_controller.go:142-167 | whatever is written through the copy, the base of the merge patch keeps its value |
| Registry.Monitors.OnAdd | pkg/controller/synthetic/synthetic.go:85-122 | an add creates the label's monitor, a suffixed one when another object holds the label, or nothing |
| Registry.Monitors.CreateSynthetic | pkg/controller/synthetic/synthetic.go:166-172 | the monitor is created under its name with the suffix, and a taken name leaves the store alone |
| Registry.Monitors.OnDelete | pkg/controller/synthetic/synthetic.go:124-135 | a delete removes the un-suffixed monitor of the label and nothing else |
| Registry.AddRepresents | pkg/controller/synthetic/synthetic.go:85-101 | an add never overwrites a monitor, and afterwards monitors and added objects correspond one to one |
| Registry.EveryObjectImportedOnce | pkg/controller/synthetic/synthetic.go:85-101 | after any sequence of adds from an empty store every added object is imported by exactly one monitor |
| Registry.EveryMonitorIsAnImport | pkg/controller/synthetic/synthetic_deployment.go:41-60 | after any such sequence every monitor is the import of an added object |
| Registry.EveryMonitorCarries | pkg/controller/synthetic/synthetic_deployment.go:41-60 | over every run of adds and deletes each monitor stands under the label of an added object, or the label with its name as suffix, and carries its name, its kind and for a Deployment its camel annotations |
| Registry.KindIsCarried | pkg/controller/synthetic/synthetic_cronjob.go:41-60 | so its kind reads Deployment exactly for a Deployment and CronJob exactly for a CronJob, unless the object is annotated with a kind of its own |
| ImportedOwner.OwnerOfImport | pkg/controller/camel_monitor/monitor.go:67-80 | polls of such a monitor look up the object it was imported from by its name and kind |
| Registry.FirstComerHoldsTheLabel | pkg/controller/synthetic/synthetic.go:85-101 | the first object added with a label holds its un-suffixed monitor for good |
| Registry.ReplayIsNoOp | pkg/controller/synthetic/synthetic.go:85-122 | once a set of objects has been added, adding any of them again in any order changes nothing |
| Registry.AddTwiceIff | pkg/controller/synthetic/synthetic_deployment.go:43-47 | in any store, adding one object twice in a row is a no-op the second time exactly when its annotations do not name another import or one of its two names was taken before |
| Registry.ThirdAddIsNoOp | pkg/controller/synthetic/synthetic.go:85-101 | whatever the store and the object, adding it a third time changes nothing |
| Registry.AddImportsIff | pkg/controller/synthetic/synthetic.go:85-122 | in any store, after an add the object is imported if and only if it was before or one of its two names was free |
| Registry.RunImportsIff | pkg/controller/synthetic/synthetic.go:85-122 | after any add run, with names that may clash, an object is imported if and only if one of its adds met a free name |
| Registry.StoreMirrorsLive | pkg/controller/synthetic/synthetic.go:85-135 | over every run of adds and deletes with distinct live labels the monitors are exactly the imports of the live objects |
| Registry.AddDeleteRestores | pkg/controller/synthetic/synthetic.go:124-135 | adding an object with a free label and deleting it restores the store |
| Registry.DeleteHitsItsOwnIff | pkg/controller/synthetic/synthetic.go:174-179 | in any store, a delete ends exactly the import of its object and no other if and only if the object is imported at most under its label, and whatever else the label's monitor imports is imported once more |
| Registry.DeleteAfterAddsIff | pkg/controller/synthetic/synthetic.go:174-179 | in the store of an add run with unambiguous names this holds exactly when the object holds its un-suffixed name |
| Registry.NeverTwiceIff | pkg/controller/synthetic/synthetic.go:85-135 | over every run of adds and deletes an object is never imported twice if and only if none of its adds finds it imported under another name than its label with a name free |
| SchemaRefs.RebaseRefs | cmd/util/json-schema-gen/main.go:119-140 | the loops over keys and lists compute the rebased schema and end |
| SchemaRefs.RemapIsPointerIff | cmd/util/json-schema-gen/main.go:115-117 | remapping a pointer gives a pointer exactly when its first token is items, and drops that token |
| SchemaRefs.PointerTextIff | cmd/util/json-schema-gen/main.go:115-117 | a fragment denotes a path if and only if it is the text of that path, as section 6 of RFC 6901 has it |
| SchemaRefs.ResolveRebased | cmd/util/json-schema-gen/main.go:119-140 | for every document and every path, resolving in the rebased schema gives the rebased result of resolving in the original, or the unchanged result when the path leads through a list in a list |
| SchemaRefs.HoistedRefsKeepMeaning | cmd/util/json-schema-gen/main.go:60-65 | a reference in the original document and its remapped form, which is the text of the path without its first token, denote the same subschema in the hoisted items, up to rebasing, for every document |
| SchemaRefs.RefRemappedIff | cmd/util/json-schema-gen/main.go:120-137 | a reference string is remapped if and only if no list in a list stands on the way to it |
| SchemaRefs.OnlyRefsChange | cmd/util/json-schema-gen/main.go:119-140 | up to the strings under $ref, rebasing is the identity on every document |
| SchemaRefs.PathComponents | cmd/util/json-schema-gen/main.go:184-196 | the loop keeps the parts of a dotted path that are not blank |
| SchemaRefs.DropBlankAppend | cmd/util/json-schema-gen/main.go:184-196 | parts are kept or dropped one by one |
| SchemaRefs.GeneratedRefsKeepMeaning | cmd/util/json-schema-gen/main.go:54-104 | in the generated CRD schema every remapped reference into the items' definitions denotes the rebased original or, as the original does, nothing, whether the array was kept or hoisted; what lies behind a list in a list stays unrebased |
| SchemaRefs.OtherRefsPointIntoCrd | cmd/util/json-schema-gen/main.go:54-104 | a remapped reference to the items denotes the root of the generated schema; one that leads past them but not to their definitions denotes what the CRD schema with the stored property holds there, which is what it held before unless the path leads through that property |
| SchemaRefs.GeneratedHoldsSchema | cmd/util/json-schema-gen/main.go:54-104 | the generated CRD schema holds the rebased schema, or its rebased items when hoisted, without the definitions at the end of the path, and at every place off that path and outside the definitions what it held before |
| SchemaRefs.GeneratedHoldsDefinitions | cmd/util/json-schema-gen/main.go:83-91 | its definitions are those of what was embedded |
| SchemaRefs.GenerateIff | cmd/util/json-schema-gen/main.go:54-104 | the generator gets through exactly when the CRD schema has no definitions yet and a map of properties at every step of the path, and the DSL schema has no null and, when needed, items |
| SchemaRefs.NullFreeIff | cmd/util/json-schema-gen/main.go:119-140 | the rewrite panics exactly on the documents in which a null can be reached without leaving a list in a list |
| MavenCache.MetadataCaches.GetCamelMainMetadata | pkg/controller/camel_monitor/releases.go:69-83 | answers from the cache or a fetch and stores only its own cache |
| MavenCache.MetadataCaches.GetCamelQuarkusMetadata | pkg/controller/camel_monitor/releases.go:86-100 | the same for Quarkus |
| MavenCache.MetadataCaches.GetCamelSpringBootMetadata | pkg/controller/camel_monitor/releases.go:103-117 | the same for Spring Boot |
| MavenCache.GetMavenMetadata | pkg/controller/camel_monitor/releases.go:126-141 | a request reaches the repository if and only if nothing younger than the time to live is cached, and the answer is the cached value or what the request brought |
| MavenCache.ServeAll | pkg/controller/camel_monitor/monitor.go:225-250 | calls made one after another leave in the repository's record exactly the requests that the fetch rate is stated about |
| MavenCache.ServedIsFresh | pkg/controller/camel_monitor/releases.go:126-141 | in any run whatever is returned was fetched for the same provider by this call or less than 24 hours before its check |
| MavenCache.FetchesAreSpread | pkg/controller/camel_monitor/releases.go:130-141 | of the requests that reach the repository in a sequential run, the j-th successful one for a provider is stamped at least j - i times 24 hours after the i-th |
| MavenCache.FailuresAreRepeated | pkg/controller/camel_monitor/releases.go:130-138 | when fetches keep failing every call reaches the repository and the caches stay empty |
| Console.Reconciler.CreateOrUpdate | pkg/controller/console/console_plugin_controller.go:222-245 | the resource is read, mutated and written; a failure of either leaves the store alone |
| Console.Reconciler.EnsureAllResources | pkg/controller/console/console_plugin_controller.go:247-269 | the resources before the first failure are written, none after it |
| Console.Reconciler.IsUninstalling | pkg/controller/console/console_plugin_controller.go:179-200 | the loop answers whether there are versions of the operator and all of them are being deleted |
| Console.Reconciler.Reconcile | pkg/controller/console/console_plugin_controller.go:144-177 | clean-up while uninstalling, else everything is ensured |
| Console.AnyRunsConverge | pkg/controller/console/console_plugin_controller.go:247-269 | after any sequence of interrupted runs, even ones that wanted something else, and of clean-ups, one complete run gives the store it alone would have given, over a store without the plugin if there was a clean-up |
| Console.CompleteRunSets | pkg/controller/console/console_plugin_controller.go:271-344 | a complete run gives every resource the wanted parts and keeps all others |
| Console.CompleteRunWants | pkg/controller/console/console_plugin_controller.go:271-344 | after a complete run every resource carries the labels, all but the plugin their owner, and each its own contents |
| Console.CompleteRunSpares | pkg/controller/console/console_plugin_controller.go:271-344 | and the parts that are not wanted of a resource are as they were |
| Console.ReachedInOrder | pkg/controller/console/console_plugin_controller.go:247-269 | a run that is interrupted has written config map, deployment, service, plugin and network policy as far as it got, in this order, and nothing else |

## Left out

- HTTP, XML, JSON and Prometheus text parsing: an answer of the network carries the parsed outcome.
- The Kubernetes client, informers, leader election, cache staleness, events, logging and timers.
- Concurrent callers of the Maven caches, whose pointers are read before the lock and written after it.
- Time stamps are instants; the truncation to seconds when a status is stored is not modelled.
- Pointers to plain values that nothing writes through (times, numbers, strings) are optional values in `api_objects.dfy`.
- The plain fields of a pod are grouped in two records, and the inner loops of the searches are methods of their own.
- `Handle` works on a status held as a value; its sharing of the old success rate with the copy is covered by the deep copy only.
- The scan of a pod's conditions for Ready and of its ports for jolokia: their results are inputs.
- Prometheus and Grafana objects: only whether creating them fails.
- SchemaRefs.RebaseRefs: works on values; a parsed document shares no maps, so the rewriting in place is not observable.
- SchemaRefs.GeneratedRefsKeepMeaning: does not model what unmarshalling into the typed CRD schema drops.
- Console.Reconciler.CreateOrUpdate: resources are maps of parts; the literals behind them are parameters.
- Escape sequences in JSON pointers (section 3 of RFC 6901).
- Owner references of monitors (pkg/controller/synthetic/synthetic_deployment.go:48-57), by which the cluster itself deletes
  every monitor of an object that is deleted: `Deleted` is the operator's own handler only, which is also what runs when
  an object loses its label.
