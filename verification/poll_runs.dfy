/** What holds over every run of polls of one application. */
module PollRuns {
  import opened Options
  import opened Decimal
  import opened Api
  import opened EndpointScan
  import opened ObservabilityConf
  import opened Probing
  import opened ServicesFound
  import opened Aggregate
  import opened PairMemory
  import opened Sli
  import opened Conditions
  import opened MonitorPoll

  /** Each stored status is what one poll makes of the one before. */
  ghost predicate IsRun(states: seq<Status>, polls: seq<Poll>) {
    |states| == |polls| + 1 && forall i :: 0 <= i < |polls| ==> states[i + 1] == Step(states[i], polls[i])
  }

  lemma RunStep(states: seq<Status>, polls: seq<Poll>, k: nat)
    requires IsRun(states, polls) && 0 < k < |states|
    ensures states[k] == Step(states[k - 1], polls[k - 1])
  {
    assert states[k - 1 + 1] == Step(states[k - 1], polls[k - 1]);
  }

  /** The poll has an owner, so that Handle returns a status, and the API server took that status. */
  predicate Committed(before: Status, poll: Poll) { OwnerOf(poll).Some? && IsStored(poll) }

  /** A committed poll of a Deployment whose pods could be listed. */
  ghost predicate Scraped(poll: Poll) {
    && OwnerOf(poll).Some? && OwnerOf(poll).value.DeploymentOwner?
    && poll.listed.Some? && IsStored(poll)
  }

  predicate IsReady(o: PodObject) { o.readyCondition != None && o.readyCondition.value.0 }

  /** Past the listing, only the info line, the success rate and the conditions change. */
  lemma CommittedKeepsPods(before: Status, poll: Poll)
    requires Committed(before, poll)
    ensures var owner, s := OwnerOf(poll).value, Step(before, poll);
            if poll.listed == None then s == Started(before, owner) && s.pods == []
            else && s.pods == Listed(before, owner, poll).pods
                 && s.successRate == Aggregated(before, owner, poll).successRate
  {
    if poll.listed.Some? {
      AggregatedShape(before, OwnerOf(poll).value, poll);
    }
  }

  // ---- The remembered endpoint ------------------------------------------------------------

  /** The annotations and settings that choose candidates are the same in every poll. */
  ghost predicate SameChoices(poll: Poll, a: Annotations, env: Environment) {
    OwnerOf(poll).Some? ==>
      var b := InForce(poll, OwnerOf(poll).value);
      poll.env == env && MetricsChoice(b) == MetricsChoice(a) && HealthChoice(b) == HealthChoice(a)
  }

  /** To the requests asked for, every ready pod answers like this, up to what is measured: which requests fail, end a
      search or succeed is the same for all pods, while metrics and health documents may differ between pods and
      polls. */
  ghost predicate Alike(poll: Poll, oracle: Prober, asked: set<Pair>) {
    poll.listed.Some? ==>
      forall i, at :: 0 <= i < |poll.listed.value| && IsReady(poll.listed.value[i]) && at in asked
        ==> SameVerdict(poll.net(poll.listed.value[i].ip, at.port, at.endpoint), oracle(at.port, at.endpoint))
  }

  /** What is searched for when this status is what the last poll left. */
  function ConfAfter(s: Status, a: Annotations, env: Environment): Conf { ConfWith(a, env, Existing(s.pods)) }

  /** What a scraping poll records on each pod, given what it remembers. */
  lemma ScrapedRecords(before: Status, poll: Poll, a: Annotations, env: Environment, oracle: Prober, asked: set<Pair>)
    requires Scraped(poll) && SameChoices(poll, a, env) && Alike(poll, oracle, asked)
    requires Asked(ConfAfter(before, a, env)) <= asked
    ensures var s, os := Step(before, poll), poll.listed.value;
            && |s.pods| == |os|
            && forall j :: 0 <= j < |os| ==>
                 s.pods[j].observe
                     == if IsReady(os[j]) then Some(ServiceFound(oracle, ConfAfter(before, a, env))) else None
  {
    CommittedKeepsPods(before, poll);
    var owner, os := OwnerOf(poll).value, poll.listed.value;
    var conf := ConfAfter(before, a, env);
    assert AppConf(InForce(poll, owner), poll.env, before.pods) == conf;
    forall j | 0 <= j < |os|
      ensures PodRecord(os[j], poll.net, conf, true, LimitOf(owner)).observe
              == if IsReady(os[j]) then Some(ServiceFound(oracle, conf)) else None
    {
      RecordedService(os[j], poll.net, oracle, conf, LimitOf(owner));
    }
  }

  lemma RecordedService(o: PodObject, net: Network, oracle: Prober, conf: Conf, limit: Option<string>)
    requires IsReady(o) ==>
               forall at :: at in Asked(conf)
                   ==> SameVerdict(net(o.ip, at.port, at.endpoint), oracle(at.port, at.endpoint))
    ensures PodRecord(o, net, conf, true, limit).observe
            == if IsReady(o) then Some(ServiceFound(oracle, conf)) else None
  {
    if IsReady(o) {
      InspectionRecords(Identified(o), ProberOf(net, o.ip), conf, limit);
      AlikeFound(ProberOf(net, o.ip), oracle, conf);
    }
  }

  /** Whatever a pod remembers is what the full search finds. */
  ghost predicate Settled(s: Status, found: ObsService) {
    forall i :: 0 <= i < |s.pods| && s.pods[i].observe.Some? ==> s.pods[i].observe == Some(found)
  }

  lemma SettledSearch(s: Status, a: Annotations, env: Environment, oracle: Prober)
    requires AllSearchable(oracle, a, env) && Settled(s, ServiceFound(oracle, FullConf(a, env)))
    ensures Asked(ConfAfter(s, a, env)) <= Asked(FullConf(a, env))
    ensures ServiceFound(oracle, ConfAfter(s, a, env)) == ServiceFound(oracle, FullConf(a, env))
  {
    AskedAgain(oracle, a, env, NO_SERVICE);
    RememberedServiceAgrees(oracle, a, env, Existing(s.pods));
  }

  lemma SettledStep(before: Status, poll: Poll, a: Annotations, env: Environment, oracle: Prober)
    requires SameChoices(poll, a, env) && Alike(poll, oracle, Asked(FullConf(a, env))) && AllSearchable(oracle, a, env)
    requires Settled(before, ServiceFound(oracle, FullConf(a, env)))
    ensures Settled(Step(before, poll), ServiceFound(oracle, FullConf(a, env)))
  {
    hide AllSearchable, ServiceFound, Alike, Asked;
    if Committed(before, poll) {
      CommittedKeepsPods(before, poll);
      if Scraped(poll) {
        SettledSearch(before, a, env, oracle);
        ScrapedRecords(before, poll, a, env, oracle, Asked(FullConf(a, env)));
      }
    }
  }

  lemma {:induction false} RunStaysSettled(states: seq<Status>, polls: seq<Poll>, a: Annotations, env: Environment,
                                           oracle: Prober,
                                           k: nat)
    requires IsRun(states, polls) && k < |states|
    requires Settled(states[0], ServiceFound(oracle, FullConf(a, env)))
    requires AllSearchable(oracle, a, env)
    requires forall i :: 0 <= i < |polls| ==>
               SameChoices(polls[i], a, env) && Alike(polls[i], oracle, Asked(FullConf(a, env)))
    ensures Settled(states[k], ServiceFound(oracle, FullConf(a, env)))
  {
    hide Step, SameChoices, Alike, AllSearchable, Settled;
    if k > 0 {
      RunStaysSettled(states, polls, a, env, oracle, k - 1);
      RunStep(states, polls, k);
      SettledStep(states[k - 1], polls[k - 1], a, env, oracle);
    }
  }

  /** The remembered endpoint agrees with the full search over whole runs: while pods answer the candidates alike and
      their answers hold still, every poll k records on every ready pod j exactly the service a search over all
      candidates would find, although after the first poll only the remembered pair is tried. Pods may come, go and
      change readiness, and polls may fail. */
  lemma StickyEndpointsAgree(states: seq<Status>, polls: seq<Poll>, a: Annotations, env: Environment, oracle: Prober,
                             k: nat, j: nat)
    requires IsRun(states, polls) && k < |polls|
    requires Settled(states[0], ServiceFound(oracle, FullConf(a, env)))
    requires AllSearchable(oracle, a, env)
    requires forall i :: 0 <= i < |polls| ==>
               SameChoices(polls[i], a, env) && Alike(polls[i], oracle, Asked(FullConf(a, env)))
    requires Scraped(polls[k]) && j < |polls[k].listed.value|
    ensures j < |states[k + 1].pods|
    ensures states[k + 1].pods[j].observe
         == if IsReady(polls[k].listed.value[j]) then Some(ServiceFound(oracle, FullConf(a, env))) else None
  {
    hide AllSearchable, Alike, Settled;
    RunStaysSettled(states, polls, a, env, oracle, k);
    SettledSearch(states[k], a, env, oracle);
    ScrapedRecords(states[k], polls[k], a, env, oracle, Asked(FullConf(a, env)));
  }

  // ---- Recovery ---------------------------------------------------------------------------

  /** What the j-th pod of a status records, if there is such a pod and it records anything. */
  function ServiceAt(s: Status, j: nat): Option<ObsService> {
    if j < |s.pods| then s.pods[j].observe else None
  }

  /** What a poll does to what is remembered. Only the record of the first pod counts. */
  ghost function TurnOf(before: Status, poll: Poll): Turn {
    if !Committed(before, poll) then Keeps
    else if Scraped(poll) && poll.listed.value != [] && IsReady(poll.listed.value[0]) then Records
    else Forgets
  }

  ghost function Turns(states: seq<Status>, polls: seq<Poll>, k: nat): (turns: seq<Turn>)
    requires k <= |polls| < |states|
    ensures |turns| == k
  {
    if k == 0 then [] else Turns(states, polls, k - 1) + [TurnOf(states[k - 1], polls[k - 1])]
  }

  lemma Remembers(before: Status, poll: Poll, a: Annotations, env: Environment, oracle: Prober, asked: set<Pair>)
    requires SameChoices(poll, a, env) && Alike(poll, oracle, asked) && Asked(ConfAfter(before, a, env)) <= asked
    ensures Existing(Step(before, poll).pods)
         == match TurnOf(before, poll)
            case Keeps => Existing(before.pods)
            case Forgets => NO_SERVICE
            case Records => ServiceFound(oracle, ConfAfter(before, a, env))
  {
    hide Asked, Alike, ServiceFound;
    if Committed(before, poll) {
      CommittedKeepsPods(before, poll);
      if Scraped(poll) {
        ScrapedRecords(before, poll, a, env, oracle, asked);
      }
    }
  }

  /** Polls to which the same requests keep working: the candidates of a full search and of the first poll. */
  ghost predicate Steady(start: Status, polls: seq<Poll>, a: Annotations, env: Environment, oracle: Prober) {
    forall i :: 0 <= i < |polls| ==>
      && SameChoices(polls[i], a, env)
      && Alike(polls[i], oracle, Asked(FullConf(a, env)) + Asked(ConfAfter(start, a, env)))
  }

  /** No later poll asks for more. */
  lemma {:induction false} RunAsks(states: seq<Status>, polls: seq<Poll>, a: Annotations, env: Environment,
                                   oracle: Prober, k: nat)
    requires IsRun(states, polls) && Steady(states[0], polls, a, env, oracle) && k < |states|
    ensures Asked(ConfAfter(states[k], a, env)) <= Asked(FullConf(a, env)) + Asked(ConfAfter(states[0], a, env))
  {
    hide Step, Asked, ServiceFound, SameChoices, Alike;
    if k > 0 {
      RunAsks(states, polls, a, env, oracle, k - 1);
      RunStep(states, polls, k);
      var asked := Asked(FullConf(a, env)) + Asked(ConfAfter(states[0], a, env));
      Remembers(states[k - 1], polls[k - 1], a, env, oracle, asked);
      AskedAgain(oracle, a, env, Existing(states[k - 1].pods));
    }
  }

  lemma RunRemembers(states: seq<Status>, polls: seq<Poll>, a: Annotations, env: Environment, oracle: Prober, k: nat)
    requires IsRun(states, polls) && Steady(states[0], polls, a, env, oracle) && k < |polls|
    ensures Existing(states[k + 1].pods)
         == match TurnOf(states[k], polls[k])
            case Keeps => Existing(states[k].pods)
            case Forgets => NO_SERVICE
            case Records => ServiceFound(oracle, ConfAfter(states[k], a, env))
    ensures Scraped(polls[k]) ==>
              (forall j :: 0 <= j < |polls[k].listed.value| && IsReady(polls[k].listed.value[j])
                 ==> ServiceAt(states[k + 1], j) == Some(ServiceFound(oracle, ConfAfter(states[k], a, env))))
  {
    hide Asked, ServiceFound, SameChoices, Alike;
    var asked := Asked(FullConf(a, env)) + Asked(ConfAfter(states[0], a, env));
    RunAsks(states, polls, a, env, oracle, k);
    RunStep(states, polls, k + 1);
    Remembers(states[k], polls[k], a, env, oracle, asked);
    if Scraped(polls[k]) {
      ScrapedRecords(states[k], polls[k], a, env, oracle, asked);
    }
  }

  lemma {:induction false} MetricsMemory(states: seq<Status>, polls: seq<Poll>, a: Annotations, env: Environment,
                                         oracle: Prober, k: nat)
    requires IsRun(states, polls) && Steady(states[0], polls, a, env, oracle) && MetricsDefaults(a, env) && k <= |polls|
    requires NoneOrWhole(MetricsPart(Existing(states[0].pods)))
    ensures var now := MetricsPart(Existing(states[k].pods));
            && NoneOrWhole(now)
            && now == After(MetricsPart(Existing(states[0].pods)), Turns(states, polls, k),
                            MetricsFound(oracle, a, env), MetricsWork(oracle))
  {
    hide Steady, MetricsDefaults, MetricsFound, MetricsWork, ServiceFound, TurnOf, ConfWith;
    if k > 0 {
      MetricsMemory(states, polls, a, env, oracle, k - 1);
      RunRemembers(states, polls, a, env, oracle, k - 1);
      MetricsTurn(oracle, a, env, Existing(states[k - 1].pods));
      assert Turns(states, polls, k)[..k - 1] == Turns(states, polls, k - 1);
    }
  }

  lemma {:induction false} HealthMemory(states: seq<Status>, polls: seq<Poll>, a: Annotations, env: Environment,
                                        oracle: Prober, k: nat)
    requires IsRun(states, polls) && Steady(states[0], polls, a, env, oracle) && HealthDefaults(a, env) && k <= |polls|
    requires NoneOrWhole(HealthPart(Existing(states[0].pods)))
    ensures var now := HealthPart(Existing(states[k].pods));
            && NoneOrWhole(now)
            && now == After(HealthPart(Existing(states[0].pods)), Turns(states, polls, k),
                            HealthFoundAt(oracle, a, env), HealthReports(oracle))
  {
    hide Steady, HealthDefaults, HealthFoundAt, HealthReports, ServiceFound, TurnOf, ConfWith;
    if k > 0 {
      HealthMemory(states, polls, a, env, oracle, k - 1);
      RunRemembers(states, polls, a, env, oracle, k - 1);
      HealthTurn(oracle, a, env, Existing(states[k - 1].pods));
      assert Turns(states, polls, k)[..k - 1] == Turns(states, polls, k - 1);
    }
  }

  /** Recovery of the metrics endpoint after a change, with the defaults in force and over any run, whatever polls
      fail. A scraping poll k records on every ready pod j what a search over all defaults finds as soon as the pair
      remembered at first was dropped: by a stored poll that left no record of a first pod, or by a scrape it did not
      work for. Until then it records the old pair while that works, and nothing when it does not. */
  lemma MetricsRecoverIff(states: seq<Status>, polls: seq<Poll>, a: Annotations, env: Environment, oracle: Prober,
                          k: nat, j: nat)
    requires IsRun(states, polls) && Steady(states[0], polls, a, env, oracle) && MetricsDefaults(a, env) && k < |polls|
    requires NoneOrWhole(MetricsPart(Existing(states[0].pods)))
    requires Scraped(polls[k]) && j < |polls[k].listed.value| && IsReady(polls[k].listed.value[j])
    ensures var was, found, now :=
            MetricsPart(Existing(states[0].pods)), MetricsFound(oracle, a, env), ServiceAt(states[k + 1], j);
            var dropped := was == NO_PAIR || Dropped(was, Turns(states, polls, k), MetricsWork(oracle));
            && now.Some?
            && MetricsPart(now.value)
               == (if dropped then found.GetOr(NO_PAIR) else if MetricsWork(oracle)(was) then was else NO_PAIR)
            && (MetricsPart(now.value) == found.GetOr(NO_PAIR)
                <==> dropped || found == Some(was) || (found == None && !MetricsWork(oracle)(was)))
  {
    hide Steady, MetricsDefaults, MetricsFound, MetricsWork, ServiceFound, Turns, TurnOf, ConfWith;
    MetricsMemory(states, polls, a, env, oracle, k);
    RunRemembers(states, polls, a, env, oracle, k);
    MetricsTurn(oracle, a, env, Existing(states[k].pods));
    RecordedAfter(MetricsPart(Existing(states[0].pods)), Turns(states, polls, k), MetricsFound(oracle, a, env),
                  MetricsWork(oracle));
  }

  /** Recovery of the health endpoint: the same, but the pair is recorded before the body is read, so the old pair
      stays for as long as it answers 200 or 503, whatever the body says. */
  lemma HealthRecoversIff(states: seq<Status>, polls: seq<Poll>, a: Annotations, env: Environment, oracle: Prober,
                          k: nat, j: nat)
    requires IsRun(states, polls) && Steady(states[0], polls, a, env, oracle) && HealthDefaults(a, env) && k < |polls|
    requires NoneOrWhole(HealthPart(Existing(states[0].pods)))
    requires Scraped(polls[k]) && j < |polls[k].listed.value| && IsReady(polls[k].listed.value[j])
    ensures var was, found, now :=
            HealthPart(Existing(states[0].pods)), HealthFoundAt(oracle, a, env), ServiceAt(states[k + 1], j);
            var dropped := was == NO_PAIR || Dropped(was, Turns(states, polls, k), HealthReports(oracle));
            && now.Some?
            && HealthPart(now.value)
               == (if dropped then found.GetOr(NO_PAIR) else if HealthReports(oracle)(was) then was else NO_PAIR)
            && (HealthPart(now.value) == found.GetOr(NO_PAIR)
                <==> dropped || found == Some(was) || (found == None && !HealthReports(oracle)(was)))
  {
    hide Steady, HealthDefaults, HealthFoundAt, HealthReports, ServiceFound, Turns, TurnOf, ConfWith;
    HealthMemory(states, polls, a, env, oracle, k);
    RunRemembers(states, polls, a, env, oracle, k);
    HealthTurn(oracle, a, env, Existing(states[k].pods));
    RecordedAfter(HealthPart(Existing(states[0].pods)), Turns(states, polls, k), HealthFoundAt(oracle, a, env),
                  HealthReports(oracle));
  }

  /** A pod that now answers at the first default pairs, while an old process on another port still answers too. */
  function Moved(port: string, endpoint: string): Answer {
    if port == "9876" && endpoint == "observe/health" then Response(200, "OK", Unparsable(""), Parsed(POD_STATUS_UP))
    else if port == "9876" && endpoint == "observe/metrics" then Response(200, "OK", Parsed(map[]), Unparsable(""))
    else if port == "8080" && endpoint == "q/health" then
      Response(503, "Service Unavailable", Unparsable(""), Unparsable(""))
    else if port == "8080" && endpoint == "q/metrics" then Response(200, "OK", Parsed(map[]), Unparsable(""))
    else Unreachable
  }

  /** A poll of one such pod with nothing configured. */
  function PollOfMoved(): Poll {
    Poll(map[IMPORTED_KIND := "Deployment"], Found(DeploymentObject(map[], "image", Some(1), 1, 1, None)), NotFound,
         Some([PodObject("pod", "10.0.0.1", "Running", Some((true, 0)), false)]),
         (ip, port, endpoint) => Moved(port, endpoint), Environment("", "", "", ""), 60, 5, 10, false,
         provider => FetchFailed(""), false, false, false, false, 0)
  }

  lemma MovedIsFound()
    ensures var env := PollOfMoved().env;
            && MetricsFound(Moved, map[], env) == Some(Pair("9876", "observe/metrics"))
            && HealthFoundAt(Moved, map[], env) == Some(Pair("9876", "observe/health"))
  {
    var full := FullConf(map[], PollOfMoved().env);
    assert FirstEndpoint(Moved, "9876", full.healthEndpoints) == Some("observe/health");
    assert FirstEndpoint(Moved, "9876", full.metricsEndpoints) == Some("observe/metrics");
  }

  lemma MovedIsRecorded(before: Status)
    ensures Scraped(PollOfMoved()) && TurnOf(before, PollOfMoved()) == Records
  {
  }

  lemma MovedIsSteady(before: Status)
    ensures Steady(before, [PollOfMoved(), PollOfMoved()], map[], PollOfMoved().env, Moved)
  {
  }

  lemma MovedTurns(states: seq<Status>, polls: seq<Poll>)
    requires polls == [PollOfMoved(), PollOfMoved()] && |states| == 3
    ensures Turns(states, polls, 1) == [Records]
  {
    MovedIsRecorded(states[0]);
    assert Turns(states, polls, 0) == [];
  }

  lemma OldPairsWork()
    ensures MetricsWork(Moved)(Pair("8080", "q/metrics")) && HealthReports(Moved)(Pair("8080", "q/health"))
  {
    assert "8080"[0] != "9876"[0] && "q/metrics"[2] != "q/health"[2];
    assert Moved("8080", "q/metrics") == Response(200, "OK", Parsed(map[]), Unparsable(""));
    assert Moved("8080", "q/health").Response? && Moved("8080", "q/health").code == 503;
    assert MetricsOk(Moved("8080", "q/metrics")) && ReportsHealth(Moved("8080", "q/health"));
  }

  /** A full search finds the new pairs at once, but the old ones are still recorded after two polls. */
  lemma MovedIsMissed(before: Status)
    requires Existing(before.pods) == ObsService("q/health", "8080", "q/metrics", "8080")
    ensures var poll := PollOfMoved();
            var now := ServiceAt(Step(Step(before, poll), poll), 0);
            && MetricsFound(Moved, map[], poll.env) == Some(Pair("9876", "observe/metrics"))
            && HealthFoundAt(Moved, map[], poll.env) == Some(Pair("9876", "observe/health"))
            && now.Some? && MetricsPart(now.value) == Pair("8080", "q/metrics")
            && HealthPart(now.value) == Pair("8080", "q/health")
  {
    hide Step, Steady, MetricsFound, HealthFoundAt, MetricsWork, HealthReports, Turns, TurnOf, FullConf, Moved;
    OldPairsWork();
    var poll, one := PollOfMoved(), Step(before, PollOfMoved());
    var states, polls := [before, one, Step(one, poll)], [poll, poll];
    assert IsRun(states, polls);
    MovedIsFound();
    MovedIsSteady(before);
    MovedTurns(states, polls);
    MovedIsRecorded(one);
    MetricsRecoverIff(states, polls, map[], poll.env, Moved, 1, 0);
    HealthRecoversIff(states, polls, map[], poll.env, Moved, 1, 0);
  }

  // ---- Conditions -------------------------------------------------------------------------

  /** Aggregating keeps the pods and adds at most the upgrade condition. */
  lemma AggregatedShape(before: Status, owner: Owner, poll: Poll)
    requires poll.listed.Some?
    ensures Aggregated(before, owner, poll).pods == Listed(before, owner, poll).pods
    ensures UpgradeOnly(Aggregated(before, owner, poll).conditions, poll.now)
  {
    InfoShape(Listed(before, owner, poll), poll);
  }

  lemma InfoShape(s: Status, poll: Poll)
    requires s.conditions == []
    ensures WithInfo(s, poll).pods == s.pods && WithInfo(s, poll).successRate == s.successRate
    ensures UpgradeOnly(WithInfo(s, poll).conditions, poll.now)
  {
    if InfoOf(s.pods).Some? {
      UpgradeShape(InfoOf(s.pods).value, poll);
    }
  }

  lemma UpgradeShape(r: Runtime, poll: Poll)
    ensures var c := UpgradeCondition(r, poll);
            c.Some? ==> c.value.kind == UPGRADE_AVAILABLE && c.value.at == poll.now
  {
  }

  /** The conditions a poll adds once the pods are aggregated. */
  ghost function Added(pods: seq<Pod>, before: Status, owner: Owner, poll: Poll): seq<Condition> {
    match owner
    case DeploymentOwner(_) => DeploymentConditions(pods, before.replicas, poll.now)
    case CronJobOwner(c) => CronJobConditions(pods, c.lastSchedule, c.lastSuccess, poll.now)
  }

  lemma OutcomeConditions(before: Status, poll: Poll)
    requires OwnerOf(poll).Some?
    ensures var owner, r := OwnerOf(poll).value, Outcome(before, poll);
            if poll.listed == None then r.0.value.conditions == []
            else
              var agg := Aggregated(before, owner, poll);
              && r.0.value.pods == agg.pods
              && r.0.value.conditions == agg.conditions + if r.1 then [] else Added(agg.pods, before, owner, poll)
  {
  }

  lemma AddedRound(pods: seq<Pod>, before: Status, owner: Owner, poll: Poll)
    ensures OneRound(Added(pods, before, owner, poll), poll.now)
  {
    match owner
    case DeploymentOwner(_) => DeploymentRound(pods, before.replicas, poll.now);
    case CronJobOwner(c) => CronJobRound(pods, c.lastSchedule, c.lastSuccess, poll.now);
  }

  /** Whatever Handle returns, also together with an error, carries only conditions of this poll, each type once: the
      list never grows across polls although conditions are only ever appended. */
  lemma ConditionsStayBounded(before: Status, poll: Poll)
    requires OwnerOf(poll).Some?
    ensures FreshConditions(Outcome(before, poll).0.value.conditions, poll.now)
  {
    OutcomeConditions(before, poll);
    if poll.listed.Some? {
      var owner := OwnerOf(poll).value;
      var agg := Aggregated(before, owner, poll);
      AggregatedShape(before, owner, poll);
      AddedRound(agg.pods, before, owner, poll);
      var added := if Outcome(before, poll).1 then [] else Added(agg.pods, before, owner, poll);
      RoundIsFresh(agg.conditions, added, poll.now);
    }
  }

  function Verdict(b: bool): Truth { if b then True else False }

  /** Every pod is ready, and the first answer other than a 404 on its first port that is not given up has the code 200
      or 503 and a document saying UP. */
  ghost predicate AllSayUp(os: seq<PodObject>, net: Network, conf: Conf) {
    forall o :: o in os ==> IsReady(o) && SaysUp(ProberOf(net, o.ip), conf)
  }

  /** The health condition of a Deployment agrees with the probes: it is True when every listed pod is ready and its
      health search ends at a document saying UP, and False otherwise; Monitored is True when every pod is ready, and
      False otherwise, so Healthy implies Monitored, and metrics play no part in either. */
  lemma HealthyIff(before: Status, poll: Poll)
    requires IsComplete(poll) && OwnerOf(poll).value.DeploymentOwner?
    requires poll.listed.value != []
    ensures Outcome(before, poll).0.Some? && !Outcome(before, poll).1
    ensures var cs, os := Outcome(before, poll).0.value.conditions, poll.listed.value;
            var conf := AppConf(InForce(poll, OwnerOf(poll).value), poll.env, before.pods);
            && StatusUnder(cs, "Healthy") == Some(Verdict(AllSayUp(os, poll.net, conf)))
            && StatusUnder(cs, "Monitored") == Some(Verdict(forall o :: o in os ==> IsReady(o)))
  {
    var owner, os := OwnerOf(poll).value, poll.listed.value;
    var conf := AppConf(InForce(poll, owner), poll.env, before.pods);
    OutcomeConditions(before, poll);
    AggregatedShape(before, owner, poll);
    var agg := Aggregated(before, owner, poll);
    hide SaysUp;
    assert agg.pods == PodRecords(os, poll.net, conf, true, LimitOf(owner));
    HealthFound(agg.conditions, agg.pods, before.replicas, poll.now);
    RecordsUpIff(os, agg.pods, poll.net, conf, LimitOf(owner));
  }

  /** Nothing stands in the way of a poll: the owner exists, its pods can be listed, and if there are any the optional
      resources are created. */
  predicate IsComplete(poll: Poll) {
    && OwnerOf(poll).Some? && poll.listed.Some?
    && (poll.listed.value != [] ==> !poll.podMonitorFails && !poll.dashboardFails)
  }

  /** The status of the condition found under a type. */
  function StatusUnder(cs: seq<Condition>, kind: string): Option<Truth> {
    match Find(cs, kind)
    case Some(c) => Some(c.status)
    case None => None
  }

  /** The upgrade condition, on a Deployment or a CronJob and also when the poll ends in an error, says what is to be
      said of the runtime of the listed pods, and is missing when they have no aggregate. */
  lemma UpgradeIff(before: Status, poll: Poll)
    requires OwnerOf(poll).Some?
    ensures var s := Outcome(before, poll).0.value;
            StatusUnder(s.conditions, "UpgradeAvailable")
            == if poll.listed == None || InfoOf(s.pods) == None then None
               else UpgradeVerdict(InfoOf(s.pods).value, poll)
  {
    hide Aggregated, Added, UpgradeCondition, UpgradeVerdict, InfoOf;
    OutcomeConditions(before, poll);
    if poll.listed.Some? {
      var owner := OwnerOf(poll).value;
      var agg := Aggregated(before, owner, poll);
      AggregatedShape(before, owner, poll);
      AggregatedUpgrade(before, owner, poll);
      AddedRound(agg.pods, before, owner, poll);
      var added := if Outcome(before, poll).1 then [] else Added(agg.pods, before, owner, poll);
      UpgradeFound(agg.conditions, added, poll.now);
      if InfoOf(agg.pods).Some? {
        UpgradeConditionSays(InfoOf(agg.pods).value, poll);
      }
    }
  }

  lemma AggregatedUpgrade(before: Status, owner: Owner, poll: Poll)
    requires poll.listed.Some?
    ensures var s := Aggregated(before, owner, poll);
            s.conditions == match InfoOf(s.pods)
                            case None => []
                            case Some(info) =>
                              match UpgradeCondition(info, poll)
                              case None => []
                              case Some(c) => [c]
  {
    hide UpgradeCondition, InfoOf, Listed, SliOf;
    AggregatedShape(before, owner, poll);
    ListedStartsBare(before, owner, poll);
  }

  lemma ListedStartsBare(before: Status, owner: Owner, poll: Poll)
    requires poll.listed.Some?
    ensures Listed(before, owner, poll).conditions == []
  {
  }

  lemma UpgradeFound(upgrade: seq<Condition>, added: seq<Condition>, now: Time)
    requires UpgradeOnly(upgrade, now) && OneRound(added, now)
    ensures Find(upgrade + added, UPGRADE_AVAILABLE) == if upgrade == [] then None else Some(upgrade[0])
  {
    if upgrade == [] {
      assert upgrade + added == added;
    } else {
      assert upgrade[0] in upgrade && (upgrade + added)[0] == upgrade[0];
    }
  }

  /** The CPU limit of a Deployment in millicores, zero when there is none. */
  function CpuLimit(d: DeploymentObject): nat {
    if d.cpuMillis.Some? && d.cpuMillis.value > 0 then d.cpuMillis.value else 0
  }

  /** The two pressure conditions of a Deployment agree with what is scraped: each is True when on some ready
      pod the search for metrics succeeds and the scraped usage reaches nine tenths of what is allowed,
      and False otherwise. */
  lemma PressureIff(before: Status, poll: Poll)
    requires IsComplete(poll) && OwnerOf(poll).value.DeploymentOwner?
    requires poll.listed.value != []
    ensures Outcome(before, poll).0.Some? && !Outcome(before, poll).1
    ensures var cs, os := Outcome(before, poll).0.value.conditions, poll.listed.value;
            var conf := AppConf(InForce(poll, OwnerOf(poll).value), poll.env, before.pods);
            var limit := CpuLimit(OwnerOf(poll).value.deployment);
            && StatusUnder(cs, "CPUPressure")
               == Some(Verdict(exists o :: o in os && CpuPressedPod(o, poll.net, conf, limit)))
            && StatusUnder(cs, "MemoryPressure")
               == Some(Verdict(exists o :: o in os && MemoryPressedPod(o, poll.net, conf)))
  {
    hide PodRecord, CpuPressedPod, MemoryPressedPod, SomeCpuPressure, SomeMemoryPressure;
    var owner, os := OwnerOf(poll).value, poll.listed.value;
    var conf := AppConf(InForce(poll, owner), poll.env, before.pods);
    OutcomeConditions(before, poll);
    AggregatedShape(before, owner, poll);
    var agg := Aggregated(before, owner, poll);
    var limit := CpuLimit(owner.deployment);
    assert agg.pods == PodRecords(os, poll.net, conf, true, Some(if limit > 0 then Digits(limit) else ""));
    PressureFound(agg.conditions, agg.pods, before.replicas, poll.now);
    RecordsPressedIff(os, poll.net, conf, limit);
  }

  predicate CpuPressedPod(o: PodObject, net: Network, conf: Conf, limit: nat) {
    var m := ScrapedMetrics(ProberOf(net, o.ip), conf);
    IsReady(o) && m.Some? && CpuPressed(m.value, limit)
  }

  predicate MemoryPressedPod(o: PodObject, net: Network, conf: Conf) {
    var m := ScrapedMetrics(ProberOf(net, o.ip), conf);
    IsReady(o) && m.Some? && MemoryPressed(m.value)
  }

  lemma RecordsPressedIff(os: seq<PodObject>, net: Network, conf: Conf, limit: nat)
    ensures var pods := PodRecords(os, net, conf, true, Some(if limit > 0 then Digits(limit) else ""));
            && (SomeCpuPressure(pods) <==> exists o :: o in os && CpuPressedPod(o, net, conf, limit))
            && (SomeMemoryPressure(pods) <==> exists o :: o in os && MemoryPressedPod(o, net, conf))
  {
    hide PodRecord, Digits, CpuPressed, MemoryPressed, ScrapedMetrics;
    var text := Some(if limit > 0 then Digits(limit) else "");
    var pods := PodRecords(os, net, conf, true, text);
    forall o | o in os
      ensures PodRecord(o, net, conf, true, text).resources.cpuPressure <==> CpuPressedPod(o, net, conf, limit)
      ensures PodRecord(o, net, conf, true, text).resources.memoryPressure <==> MemoryPressedPod(o, net, conf)
    {
      CpuPressureIff(o, net, conf, limit);
      MemoryPressureIff(o, net, conf, text);
    }
    RecordsAre(os, pods, net, conf, text);
  }

  /** The records are those of the listed pods. */
  lemma RecordsAre(os: seq<PodObject>, pods: seq<Pod>, net: Network, conf: Conf, limit: Option<string>)
    requires pods == PodRecords(os, net, conf, true, limit)
    ensures forall o :: o in os ==> PodRecord(o, net, conf, true, limit) in pods
    ensures forall pod :: pod in pods ==> exists o :: o in os && pod == PodRecord(o, net, conf, true, limit)
  {
    hide PodRecord;
    forall o | o in os ensures PodRecord(o, net, conf, true, limit) in pods {
      var i :| 0 <= i < |os| && os[i] == o;
      assert pods[i] in pods;
    }
    forall pod | pod in pods ensures exists o :: o in os && pod == PodRecord(o, net, conf, true, limit) {
      var i :| 0 <= i < |pods| && pods[i] == pod;
      assert os[i] in os;
    }
  }

  lemma PressureFound(upgrade: seq<Condition>, pods: seq<Pod>, replicas: Option<int>, now: Time)
    requires UpgradeOnly(upgrade, now) && pods != []
    ensures var cs := upgrade + DeploymentConditions(pods, replicas, now);
            && Find(cs, MEMORY_PRESSURE) == Some(MemoryCondition(SomeMemoryPressure(pods), now))
            && Find(cs, CPU_PRESSURE) == Some(CpuCondition(SomeCpuPressure(pods), now))
  {
    PodConditionsFound(upgrade, AllReady(pods), AllUp(pods), SomeMemoryPressure(pods), SomeCpuPressure(pods), |pods|,
                       replicas, now);
  }

  lemma HealthFound(upgrade: seq<Condition>, pods: seq<Pod>, replicas: Option<int>, now: Time)
    requires UpgradeOnly(upgrade, now) && pods != []
    ensures var cs := upgrade + DeploymentConditions(pods, replicas, now);
            && Find(cs, MONITORED) == Some(MonitoredCondition(AllReady(pods), |pods|, replicas, now))
            && Find(cs, HEALTHY) == Some(HealthyCondition(AllUp(pods), now))
  {
    PodConditionsFound(upgrade, AllReady(pods), AllUp(pods), SomeMemoryPressure(pods), SomeCpuPressure(pods), |pods|,
                       replicas, now);
  }

  lemma PodConditionsFound(upgrade: seq<Condition>, ready: bool, up: bool, memory: bool, cpu: bool, pods: nat,
                           replicas: Option<int>, now: Time)
    requires UpgradeOnly(upgrade, now)
    ensures var cs := upgrade + PodConditions(ready, up, memory, cpu, pods, replicas, now);
            && Find(cs, MONITORED) == Some(MonitoredCondition(ready, pods, replicas, now))
            && Find(cs, HEALTHY) == Some(HealthyCondition(up, now))
            && Find(cs, MEMORY_PRESSURE) == Some(MemoryCondition(memory, now))
            && Find(cs, CPU_PRESSURE) == Some(CpuCondition(cpu, now))
  {
    PodRound(ready, up, memory, cpu, pods, replicas, now);
    var added := PodConditions(ready, up, memory, cpu, pods, replicas, now);
    FoundAt(upgrade, added, now, 0);
    FoundAt(upgrade, added, now, 1);
    FoundAt(upgrade, added, now, 2);
    FoundAt(upgrade, added, now, 3);
  }

  lemma RecordsUpIff(os: seq<PodObject>, pods: seq<Pod>, net: Network, conf: Conf, limit: Option<string>)
    requires pods == PodRecords(os, net, conf, true, limit)
    ensures AllUp(pods) <==> AllSayUp(os, net, conf)
    ensures AllReady(pods) <==> forall o :: o in os ==> IsReady(o)
  {
    forall j | 0 <= j < |os|
      ensures os[j] in os && pods[j] in pods && pods[j].identity.ready == IsReady(os[j])
      ensures IsUp(pods[j]) <==> IsReady(os[j]) && SaysUp(ProberOf(net, os[j].ip), conf)
    {
      RecordUpIff(os[j], net, conf, limit);
    }
  }

  lemma RecordUpIff(o: PodObject, net: Network, conf: Conf, limit: Option<string>)
    ensures var pod := PodRecord(o, net, conf, true, limit);
            && pod.identity.ready == IsReady(o)
            && (IsUp(pod) <==> IsReady(o) && SaysUp(ProberOf(net, o.ip), conf))
  {
    if IsReady(o) {
      InspectionRecords(Identified(o), ProberOf(net, o.ip), conf, limit);
      InspectedUpIff(Identified(o), ProberOf(net, o.ip), conf, limit);
    }
  }

  /** A CronJob with pods is healthy when every one of them is running or has succeeded, and not healthy otherwise; it
      is monitored when a job has run, and not otherwise. Without pods nothing is said of its health. */
  lemma CronJobHealthyIff(before: Status, poll: Poll)
    requires IsComplete(poll) && OwnerOf(poll).value.CronJobOwner?
    ensures Outcome(before, poll).0.Some? && !Outcome(before, poll).1
    ensures var cs, os := Outcome(before, poll).0.value.conditions, poll.listed.value;
            && StatusUnder(cs, "Healthy")
               == (if os == [] then None
                   else Some(Verdict(forall o :: o in os ==> o.phase == "Running" || o.phase == "Succeeded")))
            && StatusUnder(cs, "Monitored") == Some(Verdict(os != []))
            && StatusUnder(cs, "CronJobExecution") == if os == [] then None else Some(True)
  {
    hide PodRecord, CronJobConditions;
    var owner, os := OwnerOf(poll).value, poll.listed.value;
    OutcomeConditions(before, poll);
    AggregatedShape(before, owner, poll);
    var agg := Aggregated(before, owner, poll);
    var c := owner.cronJob;
    var conf := AppConf(InForce(poll, owner), poll.env, before.pods);
    assert agg.pods == PodRecords(os, poll.net, conf, false, LimitOf(owner));
    JobConditionsFound(agg.conditions, agg.pods, c.lastSchedule, c.lastSuccess, poll.now);
    PhasesKept(os, poll.net, conf, LimitOf(owner));
  }

  lemma PhasesKept(os: seq<PodObject>, net: Network, conf: Conf, limit: Option<string>)
    ensures var pods := PodRecords(os, net, conf, false, limit);
            (forall p :: p in pods ==> IsFine(p))
            <==> forall o :: o in os ==> o.phase == "Running" || o.phase == "Succeeded"
  {
    var pods := PodRecords(os, net, conf, false, limit);
    forall j | 0 <= j < |os| ensures pods[j] in pods && os[j] in os && pods[j].identity.phase == os[j].phase {
    }
  }

  predicate IsFine(p: Pod) { p.identity.phase == "Running" || p.identity.phase == "Succeeded" }

  lemma JobConditionsFound(upgrade: seq<Condition>, pods: seq<Pod>, scheduled: Option<string>,
                           succeeded: Option<string>, now: Time)
    requires UpgradeOnly(upgrade, now)
    ensures var cs := upgrade + CronJobConditions(pods, scheduled, succeeded, now);
            && StatusUnder(cs, "Healthy")
               == (if pods == [] then None
                   else Some(Verdict(forall p :: p in pods ==> IsFine(p))))
            && StatusUnder(cs, "Monitored") == Some(Verdict(pods != []))
            && StatusUnder(cs, "CronJobExecution") == if pods == [] then None else Some(True)
  {
    var added := CronJobConditions(pods, scheduled, succeeded, now);
    CronJobRound(pods, scheduled, succeeded, now);
    FoundAt(upgrade, added, now, 0);
    if pods == [] {
      NoneOfKind(upgrade, added, "Healthy");
      NoneOfKind(upgrade, added, "CronJobExecution");
    } else {
      FoundAt(upgrade, added, now, 1);
      FoundAt(upgrade, added, now, 2);
      CountsCoverIff(pods, "Running", "Succeeded");
    }
  }

  lemma NoneOfKind(a: seq<Condition>, b: seq<Condition>, kind: string)
    requires forall c :: c in a || c in b ==> c.kind != kind
    ensures Find(a + b, kind) == None
  {
  }

  /** A poll ends in an error exactly when something stood in its way; without an owner there is no status then, and
      with one it says nothing of monitoring, health or pressure. */
  lemma ErrorsReported(before: Status, poll: Poll)
    ensures Outcome(before, poll).1 <==> !IsComplete(poll)
    ensures Outcome(before, poll).0 == None <==> OwnerOf(poll) == None
    ensures Outcome(before, poll).0.Some? && Outcome(before, poll).1 ==>
              forall c :: c in Outcome(before, poll).0.value.conditions ==> c.kind == "UpgradeAvailable"
  {
    hide Aggregated, Started, DeploymentConditions, CronJobConditions;
    if OwnerOf(poll).Some? {
      OutcomeConditions(before, poll);
      if poll.listed.Some? {
        AggregatedShape(before, OwnerOf(poll).value, poll);
        SummaryKeepsPods(before, OwnerOf(poll).value, poll);
      }
    }
  }

  /** A Deployment without pods: nothing is known of its monitoring and its health, and nothing is said of pressure. */
  lemma NoPodsUnknown(before: Status, poll: Poll)
    requires IsComplete(poll) && OwnerOf(poll).value.DeploymentOwner? && poll.listed.value == []
    ensures Outcome(before, poll).0.Some? && !Outcome(before, poll).1
    ensures var cs := Outcome(before, poll).0.value.conditions;
            && StatusUnder(cs, "Monitored") == Some(Unknown) && StatusUnder(cs, "Healthy") == Some(Unknown)
            && StatusUnder(cs, "CPUPressure") == None && StatusUnder(cs, "MemoryPressure") == None
  {
    var owner := OwnerOf(poll).value;
    OutcomeConditions(before, poll);
    AggregatedShape(before, owner, poll);
    var agg := Aggregated(before, owner, poll);
    assert agg.pods == [];
    NoPodConditionsFound(agg.conditions, before.replicas, poll.now);
  }

  lemma NoPodConditionsFound(upgrade: seq<Condition>, replicas: Option<int>, now: Time)
    requires UpgradeOnly(upgrade, now)
    ensures var cs := upgrade + DeploymentConditions([], replicas, now);
            && StatusUnder(cs, "Monitored") == Some(Unknown) && StatusUnder(cs, "Healthy") == Some(Unknown)
            && StatusUnder(cs, "CPUPressure") == None && StatusUnder(cs, "MemoryPressure") == None
  {
    var added := DeploymentConditions([], replicas, now);
    DeploymentRound([], replicas, now);
    FoundAt(upgrade, added, now, 0);
    FoundAt(upgrade, added, now, 1);
    NoneOfKind(upgrade, added, "CPUPressure");
    NoneOfKind(upgrade, added, "MemoryPressure");
  }

  /** Over any run the stored status never holds two conditions of one type. */
  lemma {:induction false} RunsStayBounded(states: seq<Status>, polls: seq<Poll>, k: nat)
    requires IsRun(states, polls) && k < |states|
    requires DistinctKinds(states[0].conditions) && |states[0].conditions| <= 5
    ensures DistinctKinds(states[k].conditions) && |states[k].conditions| <= 5
  {
    if k > 0 {
      RunsStayBounded(states, polls, k - 1);
      RunStep(states, polls, k);
      if Committed(states[k - 1], polls[k - 1]) {
        ConditionsStayBounded(states[k - 1], polls[k - 1]);
      }
    }
  }

  // ---- Retained history -------------------------------------------------------------------

  /** The success rate changes only when there was an aggregate before and there is one now; the info line of a
      Deployment only when there is one now. So scaling to zero, and the poll after it, keep what was last known. */
  lemma HistoryIsRetained(before: Status, poll: Poll)
    ensures var s := Step(before, poll);
            && (InfoOf(before.pods) == None || InfoOf(s.pods) == None ==> s.successRate == before.successRate)
            && (InfoOf(s.pods) == None && OwnerOf(poll).Some? && OwnerOf(poll).value.DeploymentOwner?
                ==> s.info == before.info)
  {
    if Committed(before, poll) && poll.listed.Some? {
      AggregatedRetains(before, OwnerOf(poll).value, poll);
    }
  }

  lemma AggregatedRetains(before: Status, owner: Owner, poll: Poll)
    requires poll.listed.Some?
    ensures var s := Aggregated(before, owner, poll);
            && (InfoOf(before.pods) == None || InfoOf(s.pods) == None ==> s.successRate == before.successRate)
            && (InfoOf(s.pods) == None ==> s.info == before.info)
  {
  }

  /** When both aggregates exist, a committed poll reports the growth between them. */
  lemma CommittedReports(before: Status, poll: Poll)
    requires Committed(before, poll)
    ensures var s := Step(before, poll);
            InfoOf(before.pods).Some? && InfoOf(s.pods).Some? ==>
              && s.successRate.Some?
              && s.successRate.value.total == Rise(ExchangeSum(before.pods).total, ExchangeSum(s.pods).total)
              && s.successRate.value.failed == Rise(ExchangeSum(before.pods).failed, ExchangeSum(s.pods).failed)
  {
    CommittedKeepsPods(before, poll);
    InfoNoneIff([]);
    if InfoOf(before.pods).Some? && InfoOf(Step(before, poll).pods).Some? && poll.listed.Some? {
      AggregatedShape(before, OwnerOf(poll).value, poll);
      AggregatedReports(before, OwnerOf(poll).value, poll);
    }
  }

  lemma AggregatedReports(before: Status, owner: Owner, poll: Poll)
    requires poll.listed.Some? && InfoOf(before.pods).Some? && InfoOf(Listed(before, owner, poll).pods).Some?
    ensures var s := Aggregated(before, owner, poll);
            && s.successRate.Some?
            && s.successRate.value.total == Rise(ExchangeSum(before.pods).total, ExchangeSum(s.pods).total)
            && s.successRate.value.failed == Rise(ExchangeSum(before.pods).failed, ExchangeSum(s.pods).failed)
  {
    var listed := Listed(before, owner, poll);
    InfoNoneIff(before.pods);
    InfoNoneIff(listed.pods);
    assert WithInfo(listed, poll).pods == listed.pods;
  }

  lemma AggregatedRate(before: Status, owner: Owner, poll: Poll)
    requires poll.listed.Some? && InfoOf(before.pods).Some? && InfoOf(Listed(before, owner, poll).pods).Some?
    ensures var s, annotations := Aggregated(before, owner, poll), InForce(poll, owner);
            s.successRate == Some(SliOf(InfoOf(before.pods).value, InfoOf(Listed(before, owner, poll).pods).value,
                                        Setting(annotations, POLLING_INTERVAL, poll.pollingSeconds),
                                        Setting(annotations, SLI_ERROR_PERCENTAGE, poll.errorPercentage),
                                        Setting(annotations, SLI_WARNING_PERCENTAGE, poll.warningPercentage)))
  {
    var listed := Listed(before, owner, poll);
    assert WithInfo(listed, poll).pods == listed.pods;
  }

  lemma NoPodsNoInfo()
    ensures InfoOf([]) == None
  {
    InfoNoneIff([]);
  }

  lemma AggregatedRateFromPods(before: Status, owner: Owner, poll: Poll, aligned: seq<Pod>)
    requires poll.listed.Some? && InfoOf(before.pods).Some? && InfoOf(Listed(before, owner, poll).pods).Some?
    requires GrewSanely(before.pods, Listed(before, owner, poll).pods, aligned)
    ensures var rate, pods := Aggregated(before, owner, poll).successRate, Listed(before, owner, poll).pods;
            rate.Some? && ReportsRate(rate.value, ExchangeSum(pods).total - ExchangeSum(before.pods).total,
                                      ExchangeSum(pods).failed - ExchangeSum(before.pods).failed)
  {
    hide ReportsRate, GrewSanely, ExchangeSum, Aggregated, Listed, Setting, InForce, SliOf;
    AggregatedRate(before, owner, poll);
    var annotations := InForce(poll, owner);
    SuccessRateFromPods(before.pods, Listed(before, owner, poll).pods, aligned,
                        Setting(annotations, POLLING_INTERVAL, poll.pollingSeconds),
                        Setting(annotations, SLI_ERROR_PERCENTAGE, poll.errorPercentage),
                        Setting(annotations, SLI_WARNING_PERCENTAGE, poll.warningPercentage));
  }

  /** From what each pod does to what is stored: when the pods of the last status, in some order, are those of this
      one and each failed no more than it exchanged since then, a stored poll reports these growths, and a percentage
      between 0 and 100 within half a hundredth of the exact success rate. */
  lemma StoredRateFromPods(before: Status, poll: Poll, aligned: seq<Pod>)
    requires Committed(before, poll) && GrewSanely(before.pods, Step(before, poll).pods, aligned)
    ensures var s := Step(before, poll);
            InfoOf(before.pods).Some? && InfoOf(s.pods).Some? ==>
              && s.successRate.Some?
              && ReportsRate(s.successRate.value, ExchangeSum(s.pods).total - ExchangeSum(before.pods).total,
                             ExchangeSum(s.pods).failed - ExchangeSum(before.pods).failed)
  {
    hide ReportsRate, GrewSanely, ExchangeSum, Aggregated, InfoOf, Started, Listed;
    CommittedKeepsPods(before, poll);
    var s := Step(before, poll);
    NoPodsNoInfo();
    if InfoOf(before.pods).Some? && InfoOf(s.pods).Some? {
      AggregatedRateFromPods(before, OwnerOf(poll).value, poll, aligned);
    }
  }

  function Rise(a: int, b: int): nat { if b >= a then b - a else 0 }

  // ---- Conservation -----------------------------------------------------------------------

  /** What a poll reports of the interval since the last one; nothing when its status is not stored. */
  ghost function Reported(before: Status, poll: Poll, failed: bool): int {
    var rate := Step(before, poll).successRate;
    if !Committed(before, poll) || rate == None then 0 else if failed then rate.value.failed else rate.value.total
  }

  /** The exchanges reported by the first k polls of a run: all of them, or the failed ones. */
  ghost function ReportedSum(states: seq<Status>, polls: seq<Poll>, k: nat, failed: bool): int
    requires k <= |polls| < |states|
  {
    if k == 0 then 0 else ReportedSum(states, polls, k - 1, failed) + Reported(states[k - 1], polls[k - 1], failed)
  }

  function Counted(s: Status, failed: bool): int {
    if failed then ExchangeSum(s.pods).failed else ExchangeSum(s.pods).total
  }

  /** The aggregate never drops in the first k polls. */
  predicate NeverDrops(states: seq<Status>, k: nat, failed: bool)
    requires k < |states|
  {
    forall i :: 0 < i <= k ==> Counted(states[i - 1], failed) <= Counted(states[i], failed)
  }

  lemma ReportedIsRise(before: Status, poll: Poll, failed: bool)
    requires InfoOf(before.pods).Some? && InfoOf(Step(before, poll).pods).Some?
    ensures Reported(before, poll, failed) == Rise(Counted(before, failed), Counted(Step(before, poll), failed))
  {
    if Committed(before, poll) {
      CommittedReports(before, poll);
    }
  }

  /** Conservation over runs: while every status has an aggregate, the reported intervals add up to at least the growth
      from the first status to the k-th, and to exactly that growth if and only if the aggregate never drops. */
  lemma {:induction false} IntervalsConserve(states: seq<Status>, polls: seq<Poll>, k: nat, failed: bool)
    requires IsRun(states, polls) && k <= |polls|
    requires forall i :: 0 <= i <= k ==> InfoOf(states[i].pods).Some?
    ensures ReportedSum(states, polls, k, failed) >= Counted(states[k], failed) - Counted(states[0], failed)
    ensures ReportedSum(states, polls, k, failed) == Counted(states[k], failed) - Counted(states[0], failed)
            <==> NeverDrops(states, k, failed)
  {
    if k > 0 {
      IntervalsConserve(states, polls, k - 1, failed);
      RunStep(states, polls, k);
      ReportedIsRise(states[k - 1], polls[k - 1], failed);
    }
  }
}
