/** The three caches of Maven metadata and their time to live, for sequential callers. */
module MavenCache {
  import opened Options

  /** Seconds on some clock. */
  type Instant = int

  const TTL: int := 24 * 60 * 60

  datatype Provider = Main | Quarkus | SpringBoot

  datatype Metadata = Metadata(release: string, fetchedAt: Instant)

  /** What the repository answers; a successful answer is stamped when it has been decoded. */
  datatype Fetch = Fetched(metadata: Metadata) | FetchFailed(message: string)

  datatype Answer = Served(metadata: Metadata) | Refused(message: string)

  /** One call: who is asked for, the time of the check, and what a fetch would answer. */
  datatype Call = Call(provider: Provider, now: Instant, fetch: Fetch)

  datatype Caches = Caches(main: Option<Metadata>, quarkus: Option<Metadata>, springBoot: Option<Metadata>) {
    function Get(p: Provider): Option<Metadata> {
      match p
      case Main => main
      case Quarkus => quarkus
      case SpringBoot => springBoot
    }

    function Set(p: Provider, m: Metadata): Caches {
      match p
      case Main => this.(main := Some(m))
      case Quarkus => this.(quarkus := Some(m))
      case SpringBoot => this.(springBoot := Some(m))
    }
  }

  const NO_CACHES := Caches(None, None, None)

  // ---- What a call means ------------------------------------------------------------------

  predicate StillFresh(cached: Option<Metadata>, now: Instant) {
    cached.Some? && now < cached.value.fetchedAt + TTL
  }

  function Looked(cached: Option<Metadata>, now: Instant, fetch: Fetch): Answer {
    if StillFresh(cached, now) then Served(cached.value)
    else match fetch
      case Fetched(m) => Served(m)
      case FetchFailed(message) => Refused(message)
  }

  function AnswerTo(c: Caches, call: Call): Answer { Looked(c.Get(call.provider), call.now, call.fetch) }

  /** The request a call issues, if any. */
  function Issued(c: Caches, call: Call): seq<Call> {
    if StillFresh(c.Get(call.provider), call.now) then [] else [call]
  }

  function After(c: Caches, call: Call): Caches {
    match AnswerTo(c, call)
    case Served(m) => c.Set(call.provider, m)
    case Refused(_) => c
  }

  // ---- The cache --------------------------------------------------------------------------

  /** The Maven repository; it keeps the requests it got, with what it answered to each. */
  class Repository {
    var requests: seq<Call>

    constructor ()
      ensures requests == []
    {
      requests := [];
    }

    method Fetch(call: Call) returns (fetch: Fetch)
      modifies this
      ensures fetch == call.fetch
      ensures requests == old(requests) + [call]
    {
      requests := requests + [call];
      fetch := call.fetch;
    }
  }

  /** getMavenMetadata: a request is issued exactly when nothing fresh is cached. */
  method GetMavenMetadata(repository: Repository, cached: Option<Metadata>, call: Call) returns (answer: Answer)
    modifies repository
    ensures answer == Looked(cached, call.now, call.fetch)
    ensures repository.requests == old(repository.requests) + if StillFresh(cached, call.now) then [] else [call]
  {
    if cached != None && call.now < cached.value.fetchedAt + TTL {
      return Served(cached.value);
    }
    var fetch := repository.Fetch(call);
    match fetch {
      case Fetched(m) => return Served(m);
      case FetchFailed(message) => return Refused(message);
    }
  }

  class MetadataCaches {
    const repository: Repository
    var main: Option<Metadata>
    var quarkus: Option<Metadata>
    var springBoot: Option<Metadata>

    constructor (repository: Repository)
      ensures View() == NO_CACHES && this.repository == repository
    {
      this.repository := repository;
      main, quarkus, springBoot := None, None, None;
    }

    function View(): Caches
      reads this
    {
      Caches(main, quarkus, springBoot)
    }

    method GetCamelMainMetadata(now: Instant, fetch: Fetch) returns (answer: Answer)
      modifies `main, repository
      ensures answer == AnswerTo(old(View()), Call(Main, now, fetch))
      ensures View() == After(old(View()), Call(Main, now, fetch))
      ensures repository.requests == old(repository.requests) + Issued(old(View()), Call(Main, now, fetch))
    {
      answer := GetMavenMetadata(repository, main, Call(Main, now, fetch));
      if answer.Served? {
        main := Some(answer.metadata);
      }
    }

    method GetCamelQuarkusMetadata(now: Instant, fetch: Fetch) returns (answer: Answer)
      modifies `quarkus, repository
      ensures answer == AnswerTo(old(View()), Call(Quarkus, now, fetch))
      ensures View() == After(old(View()), Call(Quarkus, now, fetch))
      ensures repository.requests == old(repository.requests) + Issued(old(View()), Call(Quarkus, now, fetch))
    {
      answer := GetMavenMetadata(repository, quarkus, Call(Quarkus, now, fetch));
      if answer.Served? {
        quarkus := Some(answer.metadata);
      }
    }

    method GetCamelSpringBootMetadata(now: Instant, fetch: Fetch) returns (answer: Answer)
      modifies `springBoot, repository
      ensures answer == AnswerTo(old(View()), Call(SpringBoot, now, fetch))
      ensures View() == After(old(View()), Call(SpringBoot, now, fetch))
      ensures repository.requests == old(repository.requests) + Issued(old(View()), Call(SpringBoot, now, fetch))
    {
      answer := GetMavenMetadata(repository, springBoot, Call(SpringBoot, now, fetch));
      if answer.Served? {
        springBoot := Some(answer.metadata);
      }
    }

    /** One call, for whichever provider. */
    method Serve(call: Call) returns (answer: Answer)
      modifies this, repository
      ensures answer == AnswerTo(old(View()), call)
      ensures View() == After(old(View()), call)
      ensures repository.requests == old(repository.requests) + Issued(old(View()), call)
    {
      match call.provider {
        case Main => answer := GetCamelMainMetadata(call.now, call.fetch);
        case Quarkus => answer := GetCamelQuarkusMetadata(call.now, call.fetch);
        case SpringBoot => answer := GetCamelSpringBootMetadata(call.now, call.fetch);
      }
    }
  }

  /** A sequential run of calls, as one poll after another makes them. */
  method ServeAll(caches: MetadataCaches, calls: seq<Call>)
    requires caches.View() == NO_CACHES && caches.repository.requests == []
    modifies caches, caches.repository
    ensures caches.View() == AfterAll(NO_CACHES, calls, |calls|)
    ensures caches.repository.requests == Requests(calls, |calls|)
  {
    for k := 0 to |calls|
      invariant caches.View() == AfterAll(NO_CACHES, calls, k)
      invariant caches.repository.requests == Requests(calls, k)
    {
      var _ := caches.Serve(calls[k]);
    }
  }

  // ---- Runs of calls ----------------------------------------------------------------------

  function AfterAll(c: Caches, calls: seq<Call>, k: nat): Caches
    requires k <= |calls|
  {
    if k == 0 then c else After(AfterAll(c, calls, k - 1), calls[k - 1])
  }

  /** A fetch is not stamped before the check that led to it. */
  predicate StampedAfterCheck(call: Call) { call.fetch.Fetched? ==> call.now <= call.fetch.metadata.fetchedAt }

  /** The k-th call went to the repository and got an answer. */
  predicate FetchesAt(calls: seq<Call>, k: nat)
    requires k < |calls|
  {
    Issued(AfterAll(NO_CACHES, calls, k), calls[k]) == [calls[k]] && calls[k].fetch.Fetched?
  }

  /** A cached value was fetched by an earlier call for the same provider. */
  lemma {:induction false} CachedWasFetched(calls: seq<Call>, k: nat, p: Provider) returns (i: nat)
    requires k <= |calls| && AfterAll(NO_CACHES, calls, k).Get(p).Some?
    ensures i < k && calls[i].provider == p && FetchesAt(calls, i)
    ensures calls[i].fetch.metadata == AfterAll(NO_CACHES, calls, k).Get(p).value
    ensures forall j :: i < j < k && calls[j].provider == p ==> !FetchesAt(calls, j)
  {
    var c := AfterAll(NO_CACHES, calls, k - 1);
    if calls[k - 1].provider == p && FetchesAt(calls, k - 1) {
      i := k - 1;
    } else {
      i := CachedWasFetched(calls, k - 1, p);
    }
  }

  /** Freshness: in any run from empty caches, whatever a call returns was fetched for the same provider, either by this
      very call or by an earlier one less than the time to live before this check. */
  lemma ServedIsFresh(calls: seq<Call>, k: nat) returns (i: nat)
    requires k < |calls| && AnswerTo(AfterAll(NO_CACHES, calls, k), calls[k]).Served?
    ensures i <= k && calls[i].provider == calls[k].provider && FetchesAt(calls, i)
    ensures AnswerTo(AfterAll(NO_CACHES, calls, k), calls[k]).metadata == calls[i].fetch.metadata
    ensures i < k ==> calls[k].now < calls[i].fetch.metadata.fetchedAt + 86400
  {
    if FetchesAt(calls, k) {
      i := k;
    } else {
      i := CachedWasFetched(calls, k, calls[k].provider);
    }
  }

  /** A call is refused exactly when nothing fresh is cached and the fetch fails; then every cache stays as it was. */
  lemma RefusedIff(c: Caches, call: Call)
    ensures AnswerTo(c, call).Refused? <==> !StillFresh(c.Get(call.provider), call.now) && call.fetch.FetchFailed?
    ensures AnswerTo(c, call).Refused? ==> After(c, call) == c
    ensures StillFresh(c.Get(call.provider), call.now) ==> After(c, call) == c
    ensures forall p :: p != call.provider ==> After(c, call).Get(p) == c.Get(p)
  {
  }

  // ---- Requests ---------------------------------------------------------------------------

  /** The requests that reach the repository during the first k calls. */
  function Requests(calls: seq<Call>, k: nat): seq<Call>
    requires k <= |calls|
  {
    if k == 0 then [] else Requests(calls, k - 1) + Issued(AfterAll(NO_CACHES, calls, k - 1), calls[k - 1])
  }

  /** The metadata that requests for one provider brought back, in order. */
  function Fetches(requests: seq<Call>, p: Provider): seq<Metadata> {
    if requests == [] then []
    else
      var last := requests[|requests| - 1];
      Fetches(requests[..|requests| - 1], p) +
      if last.provider == p && last.fetch.Fetched? then [last.fetch.metadata] else []
  }

  lemma FetchesGrow(requests: seq<Call>, call: Call, p: Provider)
    ensures Fetches(requests + [call], p)
         == Fetches(requests, p) + if call.provider == p && call.fetch.Fetched? then [call.fetch.metadata] else []
  {
    assert (requests + [call])[..|requests|] == requests;
  }

  /** Stamps at least the time to live apart. */
  predicate Spread(fetches: seq<Metadata>) {
    forall i :: 0 < i < |fetches| ==> fetches[i].fetchedAt >= fetches[i - 1].fetchedAt + TTL
  }

  function LastOf(fetches: seq<Metadata>): Option<Metadata> {
    if fetches == [] then None else Some(fetches[|fetches| - 1])
  }

  lemma AppendSpread(fetches: seq<Metadata>, m: Metadata)
    requires Spread(fetches)
    requires fetches != [] ==> m.fetchedAt >= fetches[|fetches| - 1].fetchedAt + TTL
    ensures Spread(fetches + [m]) && LastOf(fetches + [m]) == Some(m)
  {
  }

  /** What is cached for the provider is what its last successful request brought back, and successive ones are
      spread. */
  predicate InStep(c: Caches, requests: seq<Call>, p: Provider) {
    c.Get(p) == LastOf(Fetches(requests, p)) && Spread(Fetches(requests, p))
  }

  lemma CallKeepsStep(c: Caches, requests: seq<Call>, call: Call, p: Provider)
    requires InStep(c, requests, p) && StampedAfterCheck(call)
    ensures InStep(After(c, call), requests + Issued(c, call), p)
  {
    RefusedIff(c, call);
    if StillFresh(c.Get(call.provider), call.now) {
      assert requests + [] == requests;
    } else {
      FetchesGrow(requests, call, p);
      if call.provider == p && call.fetch.Fetched? {
        AppendSpread(Fetches(requests, p), call.fetch.metadata);
      }
    }
  }

  lemma {:induction false} RunStaysInStep(calls: seq<Call>, k: nat, p: Provider)
    requires forall i :: 0 <= i < |calls| ==> StampedAfterCheck(calls[i])
    requires k <= |calls|
    ensures InStep(AfterAll(NO_CACHES, calls, k), Requests(calls, k), p)
  {
    hide InStep, StampedAfterCheck;
    if k > 0 {
      RunStaysInStep(calls, k - 1, p);
      CallKeepsStep(AfterAll(NO_CACHES, calls, k - 1), Requests(calls, k - 1), calls[k - 1], p);
    } else {
      StartsInStep(p);
    }
  }

  lemma StartsInStep(p: Provider)
    ensures InStep(NO_CACHES, [], p)
  {
  }

  /** Fetch rate: in any sequential run of calls, the requests for one provider that succeed are so rare that the j-th
      is stamped at least j - i times the time to live after the i-th. */
  lemma {:induction false} FetchesAreSpread(calls: seq<Call>, p: Provider, i: nat, j: nat)
    requires forall k :: 0 <= k < |calls| ==> StampedAfterCheck(calls[k])
    requires i <= j < |Fetches(Requests(calls, |calls|), p)|
    ensures var fetches := Fetches(Requests(calls, |calls|), p);
            fetches[j].fetchedAt >= fetches[i].fetchedAt + (j - i) * 86400 // 24 hours in seconds
    decreases j - i
  {
    if i < j {
      FetchesAreSpread(calls, p, i, j - 1);
      RunStaysInStep(calls, |calls|, p);
    }
  }

  /** The other side: a call that finds nothing fresh is always requested, so failures are not spaced at all. */
  lemma {:induction false} FailuresAreRepeated(calls: seq<Call>, k: nat, p: Provider)
    requires k <= |calls|
    requires forall i :: 0 <= i < |calls| ==> calls[i].provider == p && calls[i].fetch.FetchFailed?
    ensures Requests(calls, k) == calls[..k] && AfterAll(NO_CACHES, calls, k) == NO_CACHES
  {
    if k > 0 {
      FailuresAreRepeated(calls, k - 1, p);
      assert calls[..k] == calls[..k - 1] + [calls[k - 1]];
    }
  }
}
