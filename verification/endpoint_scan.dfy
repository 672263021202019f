/** The two-level search for a working (port, endpoint) pair, shared by the health and the metrics scrape. */
module EndpointScan {
  import opened Options

  // ---- What a pod may answer --------------------------------------------------------------

  datatype Parsed<+T> = Parsed(value: T) | Unparsable(message: string)

  datatype Reading = CounterReading(count: real) | GaugeReading(level: real) | OtherReading

  datatype Sample = Sample(labels: seq<(string, string)>, reading: Reading)

  /** Metric families by name. The text parser drops families without samples. */
  type Metrics = m: map<string, seq<Sample>> | forall k :: k in m ==> m[k] != [] witness map[]

  /** One HTTP GET: the request may be malformed, the port may not respond, or a response comes back whose body
      is read as metrics or as a health document depending on who asks. */
  datatype Answer =
    | Malformed(error: string)
    | Unreachable
    | Response(code: nat, reason: string, metrics: Parsed<Metrics>, health: Parsed<string>)

  type Prober = (string, string) -> Answer

  datatype Pair = Pair(port: string, endpoint: string)

  /** Any answer except a dead port and a 404 ends the search, successfully or with an error. */
  predicate Stops(a: Answer) { a.Malformed? || (a.Response? && a.code != 404) }

  // ---- The search -------------------------------------------------------------------------

  /** Inner loop: the endpoint at which the search on one port ends; None when the port is given up. */
  function FirstEndpoint(probe: Prober, port: string, endpoints: seq<string>): Option<string> {
    if endpoints == [] then None
    else if probe(port, endpoints[0]).Unreachable? then None
    else if Stops(probe(port, endpoints[0])) then Some(endpoints[0])
    else FirstEndpoint(probe, port, endpoints[1..])
  }

  /** Outer loop: the pair at which the search ends. */
  function Scan(probe: Prober, ports: seq<string>, endpoints: seq<string>): Option<Pair> {
    if ports == [] then None
    else match FirstEndpoint(probe, ports[0], endpoints)
      case Some(e) => Some(Pair(ports[0], e))
      case None => Scan(probe, ports[1..], endpoints)
  }

  /** The requests issued on one port, in order. */
  function PortTrace(probe: Prober, port: string, endpoints: seq<string>): seq<Pair> {
    if endpoints == [] then []
    else
      var a := probe(port, endpoints[0]);
      [Pair(port, endpoints[0])] + (if a.Unreachable? || Stops(a) then [] else PortTrace(probe, port, endpoints[1..]))
  }

  /** All the requests a search issues, in order. */
  function Trace(probe: Prober, ports: seq<string>, endpoints: seq<string>): seq<Pair> {
    if ports == [] then []
    else
      PortTrace(probe, ports[0], endpoints) +
      (if FirstEndpoint(probe, ports[0], endpoints).Some? then [] else Trace(probe, ports[1..], endpoints))
  }

  // ---- Reference definition: all pairs in lexicographic order -----------------------------

  function PortPairs(port: string, endpoints: seq<string>): seq<Pair> {
    if endpoints == [] then [] else [Pair(port, endpoints[0])] + PortPairs(port, endpoints[1..])
  }

  function Pairs(ports: seq<string>, endpoints: seq<string>): seq<Pair> {
    if ports == [] then [] else PortPairs(ports[0], endpoints) + Pairs(ports[1..], endpoints)
  }

  function FirstStop(probe: Prober, pairs: seq<Pair>): Option<Pair> {
    if pairs == [] then None
    else if Stops(probe(pairs[0].port, pairs[0].endpoint)) then Some(pairs[0])
    else FirstStop(probe, pairs[1..])
  }

  /** Endpoint i is dead and endpoint j is the first one that would end the search, later than i. */
  predicate ShadowedAt(probe: Prober, port: string, endpoints: seq<string>, i: int, j: int) {
    && 0 <= i < j < |endpoints|
    && probe(port, endpoints[i]).Unreachable?
    && Stops(probe(port, endpoints[j]))
    && forall k :: 0 <= k < j ==> !Stops(probe(port, endpoints[k]))
  }

  /** On this port a dead answer comes before the first answer that would end the search. */
  ghost predicate Shadowed(probe: Prober, port: string, endpoints: seq<string>) {
    exists i, j :: ShadowedAt(probe, port, endpoints, i, j)
  }

  /** Whether a port responds does not depend on the endpoint asked for. */
  predicate PortUniform(probe: Prober, ports: seq<string>, endpoints: seq<string>) {
    forall p, e, f :: p in ports && e in endpoints && f in endpoints
                      ==> (probe(p, e).Unreachable? <==> probe(p, f).Unreachable?)
  }

  lemma {:induction false} FirstStopAppend(probe: Prober, a: seq<Pair>, b: seq<Pair>)
    ensures FirstStop(probe, a + b) == if FirstStop(probe, a).Some? then FirstStop(probe, a) else FirstStop(probe, b)
  {
    if a == [] {
      assert a + b == b;
    } else {
      assert (a + b)[1..] == a[1..] + b;
      FirstStopAppend(probe, a[1..], b);
    }
  }

  /** On one port the search finds the first stopping endpoint unless a dead answer shadows it. */
  lemma {:induction false} PortAgrees(probe: Prober, port: string, endpoints: seq<string>)
    ensures var flat := FirstStop(probe, PortPairs(port, endpoints));
            && (flat.Some? ==> flat.value.port == port)
            && FirstEndpoint(probe, port, endpoints)
               == if flat == None || Shadowed(probe, port, endpoints) then None else Some(flat.value.endpoint)
    ensures FirstStop(probe, PortPairs(port, endpoints)).Some?
            <==> exists j :: 0 <= j < |endpoints| && Stops(probe(port, endpoints[j]))
  {
    if endpoints != [] {
      var rest := endpoints[1..];
      PortAgrees(probe, port, rest);
      var pairs := PortPairs(port, endpoints);
      assert pairs[0] == Pair(port, endpoints[0]) && pairs[1..] == PortPairs(port, rest);
      ShadowedStep(probe, port, endpoints);
      assert (exists j :: 0 <= j < |rest| && Stops(probe(port, rest[j])))
             ==> exists j :: 0 <= j < |endpoints| && Stops(probe(port, endpoints[j])) by {
        if j :| 0 <= j < |rest| && Stops(probe(port, rest[j])) {
          assert endpoints[j + 1] == rest[j];
        }
      }
    }
  }

  lemma ShadowedStep(probe: Prober, port: string, endpoints: seq<string>)
    requires endpoints != []
    ensures Stops(probe(port, endpoints[0])) ==> !Shadowed(probe, port, endpoints)
    ensures probe(port, endpoints[0]).Unreachable? ==>
              (Shadowed(probe, port, endpoints)
               <==> exists j :: 1 <= j < |endpoints| && Stops(probe(port, endpoints[j])))
    ensures !Stops(probe(port, endpoints[0])) && !probe(port, endpoints[0]).Unreachable? ==>
              (Shadowed(probe, port, endpoints) <==> Shadowed(probe, port, endpoints[1..]))
  {
    if probe(port, endpoints[0]).Unreachable? {
      if j :| 1 <= j < |endpoints| && Stops(probe(port, endpoints[j])) {
        FirstIndex(probe, port, endpoints, j);
        var m :| && 0 <= m <= j && Stops(probe(port, endpoints[m]))
                 && forall k :: 0 <= k < m ==> !Stops(probe(port, endpoints[k]));
        assert ShadowedAt(probe, port, endpoints, 0, m);
      }
    } else if !Stops(probe(port, endpoints[0])) {
      ShadowedTail(probe, port, endpoints);
    }
  }

  lemma ShadowedTail(probe: Prober, port: string, endpoints: seq<string>)
    requires endpoints != [] && !Stops(probe(port, endpoints[0])) && !probe(port, endpoints[0]).Unreachable?
    ensures Shadowed(probe, port, endpoints) <==> Shadowed(probe, port, endpoints[1..])
  {
    var rest := endpoints[1..];
    if i, j :| ShadowedAt(probe, port, rest, i, j) {
      assert forall k :: 0 < k < j + 1 ==> endpoints[k] == rest[k - 1];
      assert ShadowedAt(probe, port, endpoints, i + 1, j + 1);
    }
    if i, j :| ShadowedAt(probe, port, endpoints, i, j) {
      assert forall k :: 0 <= k < j - 1 ==> rest[k] == endpoints[k + 1];
      assert endpoints[i] == rest[i - 1] && endpoints[j] == rest[j - 1];
      assert ShadowedAt(probe, port, rest, i - 1, j - 1);
    }
  }

  /** Some index is the first one that stops, and it is not after j. */
  lemma {:induction false} FirstIndex(probe: Prober, port: string, endpoints: seq<string>, j: nat)
    requires j < |endpoints| && Stops(probe(port, endpoints[j]))
    ensures exists m :: 0 <= m <= j && Stops(probe(port, endpoints[m]))
                        && forall k :: 0 <= k < m ==> !Stops(probe(port, endpoints[k]))
  {
    if k :| 0 <= k < j && Stops(probe(port, endpoints[k])) {
      FirstIndex(probe, port, endpoints, k);
    }
  }

  /** The pair a search ends at is where the search on that port alone ends. */
  lemma {:induction false} ScanEndsOnPort(probe: Prober, ports: seq<string>, endpoints: seq<string>)
    ensures Scan(probe, ports, endpoints).Some? ==>
              var hit := Scan(probe, ports, endpoints).value;
              hit.port in ports && FirstEndpoint(probe, hit.port, endpoints) == Some(hit.endpoint)
  {
    if ports != [] {
      ScanEndsOnPort(probe, ports[1..], endpoints);
    }
  }

  /** The nested loop with its early exits agrees with trying every pair in lexicographic order, skipping dead and
      404 answers, exactly when no dead answer shadows the pair that order finds. */
  lemma {:induction false} ScanIsLexicographicIff(probe: Prober, ports: seq<string>, endpoints: seq<string>)
    ensures var flat := FirstStop(probe, Pairs(ports, endpoints));
            Scan(probe, ports, endpoints) == flat
            <==> (flat.Some? ==> !Shadowed(probe, flat.value.port, endpoints))
  {
    if ports == [] {
    } else {
      var p := ports[0];
      FirstStopAppend(probe, PortPairs(p, endpoints), Pairs(ports[1..], endpoints));
      PortAgrees(probe, p, endpoints);
      ScanEndsOnPort(probe, ports[1..], endpoints);
      ScanIsLexicographicIff(probe, ports[1..], endpoints);
    }
  }

  /** A port whose first endpoint times out while its second one answers. */
  function SlowFirst(port: string, endpoint: string): Answer {
    if endpoint == "q/health" then Response(200, "OK", Unparsable(""), Parsed("UP")) else Unreachable
  }

  /** The time-out hides the answer: the nested search gives the port up, trying every pair would not. */
  lemma TimeoutHidesAnswer()
    ensures Scan(SlowFirst, ["9876"], ["observe/health", "q/health"]) == None
    ensures FirstStop(SlowFirst, Pairs(["9876"], ["observe/health", "q/health"])) == Some(Pair("9876", "q/health"))
    ensures Shadowed(SlowFirst, "9876", ["observe/health", "q/health"])
  {
    var ports, endpoints := ["9876"], ["observe/health", "q/health"];
    assert "observe/health"[0] != "q/health"[0];
    assert ShadowedAt(SlowFirst, "9876", endpoints, 0, 1);
    ScanIsLexicographicIff(SlowFirst, ports, endpoints);
    assert ports[1..] == [] && Pairs([], endpoints) == [];
    assert endpoints[1..] == ["q/health"] && ["q/health"][1..] == [];
    assert PortPairs("9876", endpoints) == [Pair("9876", "observe/health"), Pair("9876", "q/health")];
    var pairs := Pairs(ports, endpoints);
    assert pairs == [Pair("9876", "observe/health"), Pair("9876", "q/health")];
    assert pairs[1..] == [Pair("9876", "q/health")];
    assert FirstEndpoint(SlowFirst, "9876", endpoints) == None;
  }

  /** When only the port decides reachability, the two searches agree. */
  lemma {:induction false} ScanIsLexicographic(probe: Prober, ports: seq<string>, endpoints: seq<string>)
    requires PortUniform(probe, ports, endpoints)
    ensures Scan(probe, ports, endpoints) == FirstStop(probe, Pairs(ports, endpoints))
  {
    ScanIsLexicographicIff(probe, ports, endpoints);
    FirstStopIsAPair(probe, ports, endpoints);
  }

  lemma {:induction false} FirstStopIsAPair(probe: Prober, ports: seq<string>, endpoints: seq<string>)
    ensures var flat := FirstStop(probe, Pairs(ports, endpoints));
            flat.Some? ==> flat.value.port in ports
  {
    if ports != [] {
      FirstStopAppend(probe, PortPairs(ports[0], endpoints), Pairs(ports[1..], endpoints));
      PortAgrees(probe, ports[0], endpoints);
      FirstStopIsAPair(probe, ports[1..], endpoints);
    }
  }

  // ---- The cost of a search ---------------------------------------------------------------

  lemma {:induction false} TraceAppend(probe: Prober, a: seq<string>, b: seq<string>, endpoints: seq<string>)
    ensures Scan(probe, a + b, endpoints)
         == if Scan(probe, a, endpoints).Some? then Scan(probe, a, endpoints) else Scan(probe, b, endpoints)
    ensures Trace(probe, a + b, endpoints)
         == if Scan(probe, a, endpoints).Some? then Trace(probe, a, endpoints)
            else Trace(probe, a, endpoints) + Trace(probe, b, endpoints)
  {
    if a == [] {
      assert a + b == b;
    } else {
      assert (a + b)[1..] == a[1..] + b;
      TraceAppend(probe, a[1..], b, endpoints);
    }
  }

  /** A dead port reached by the search costs exactly one request and never changes what is found. */
  lemma DeadPortCostsOneProbe(probe: Prober, before: seq<string>, dead: string, after: seq<string>,
                              endpoints: seq<string>)
    requires endpoints != [] && forall e :: e in endpoints ==> probe(dead, e).Unreachable?
    ensures Scan(probe, before + [dead] + after, endpoints) == Scan(probe, before + after, endpoints)
    ensures |Trace(probe, before + [dead] + after, endpoints)|
         == |Trace(probe, before + after, endpoints)| + if Scan(probe, before, endpoints).Some? then 0 else 1
  {
    assert probe(dead, endpoints[0]).Unreachable?;
    assert PortTrace(probe, dead, endpoints) == [Pair(dead, endpoints[0])];
    assert ([dead] + after)[1..] == after;
    assert before + [dead] + after == before + ([dead] + after);
    TraceAppend(probe, before, [dead] + after, endpoints);
    TraceAppend(probe, before, after, endpoints);
  }

  /** Only the last request of the trace got an answer other than a dead port or a 404, and it is the hit. */
  predicate EndsAt(probe: Prober, t: seq<Pair>, hit: Option<Pair>) {
    && (hit.Some? ==>
          && t != [] && t[|t| - 1] == hit.value
          && var a := probe(hit.value.port, hit.value.endpoint); a.Malformed? || (a.Response? && a.code != 404))
    && (forall i :: 0 <= i < |t| && (i < |t| - 1 || hit == None) ==>
          var a := probe(t[i].port, t[i].endpoint); a.Unreachable? || (a.Response? && a.code == 404))
  }

  /** The search ends with the request that found the pair, and no earlier request could have ended it. */
  lemma {:induction false} TraceEndsAtHit(probe: Prober, ports: seq<string>, endpoints: seq<string>)
    ensures EndsAt(probe, Trace(probe, ports, endpoints), Scan(probe, ports, endpoints))
  {
    if ports != [] {
      PortTraceEndsAtHit(probe, ports[0], endpoints);
      TraceEndsAtHit(probe, ports[1..], endpoints);
      if FirstEndpoint(probe, ports[0], endpoints) == None {
        EndsAtAppend(probe, PortTrace(probe, ports[0], endpoints), Trace(probe, ports[1..], endpoints),
                     Scan(probe, ports[1..], endpoints));
      }
    }
  }

  lemma {:induction false} PortTraceEndsAtHit(probe: Prober, port: string, endpoints: seq<string>)
    ensures EndsAt(probe, PortTrace(probe, port, endpoints), OnPort(port, FirstEndpoint(probe, port, endpoints)))
  {
    if endpoints != [] && !Stops(probe(port, endpoints[0])) && !probe(port, endpoints[0]).Unreachable? {
      PortTraceEndsAtHit(probe, port, endpoints[1..]);
      EndsAtAppend(probe, [Pair(port, endpoints[0])], PortTrace(probe, port, endpoints[1..]),
                   OnPort(port, FirstEndpoint(probe, port, endpoints[1..])));
    }
  }

  function OnPort(port: string, endpoint: Option<string>): Option<Pair> {
    match endpoint
    case Some(e) => Some(Pair(port, e))
    case None => None
  }

  lemma EndsAtAppend(probe: Prober, a: seq<Pair>, b: seq<Pair>, hit: Option<Pair>)
    requires EndsAt(probe, a, None) && EndsAt(probe, b, hit)
    ensures EndsAt(probe, a + b, hit)
  {
    var t := a + b;
    assert forall i :: 0 <= i < |t| ==> t[i] == if i < |a| then a[i] else b[i - |a|];
  }

  // ---- Where the search ends, by codes ----------------------------------------------------

  /** The first n endpoints of the port answer 404. */
  predicate NotFoundUpTo(probe: Prober, port: string, endpoints: seq<string>, n: int) {
    0 <= n <= |endpoints| &&
    forall m :: 0 <= m < n ==> probe(port, endpoints[m]).Response? && probe(port, endpoints[m]).code == 404
  }

  /** On this port the n-th endpoint is the first that is not a 404, and it responds or cannot even be asked for. */
  predicate AnswersAt(probe: Prober, port: string, endpoints: seq<string>, n: int) {
    && NotFoundUpTo(probe, port, endpoints, n) && n < |endpoints|
    && var a := probe(port, endpoints[n]); a.Malformed? || (a.Response? && a.code != 404)
  }

  /** On this port nothing but 404s is found, up to a dead answer or the end of the list. */
  ghost predicate GivenUp(probe: Prober, port: string, endpoints: seq<string>) {
    exists n {:trigger NotFoundUpTo(probe, port, endpoints, n)} ::
      NotFoundUpTo(probe, port, endpoints, n) && (n == |endpoints| || probe(port, endpoints[n]).Unreachable?)
  }

  /** The first port that is not given up is this one, and its first answer other than a 404 is at this endpoint. */
  predicate StandsAt(at: Pair, ports: seq<string>, endpoints: seq<string>, i: int, n: int) {
    0 <= i < |ports| && 0 <= n < |endpoints| && at == Pair(ports[i], endpoints[n])
  }

  ghost predicate SearchEndsAt(probe: Prober, ports: seq<string>, endpoints: seq<string>, at: Pair) {
    exists i, n {:trigger StandsAt(at, ports, endpoints, i, n)} ::
      && StandsAt(at, ports, endpoints, i, n) && AnswersAt(probe, ports[i], endpoints, n)
      && forall h :: 0 <= h < i ==> GivenUp(probe, ports[h], endpoints)
  }

  lemma NotFoundTail(probe: Prober, port: string, endpoints: seq<string>, n: int)
    requires endpoints != [] && n >= 0
    ensures NotFoundUpTo(probe, port, endpoints, n + 1)
            <==> && probe(port, endpoints[0]).Response? && probe(port, endpoints[0]).code == 404
                 && NotFoundUpTo(probe, port, endpoints[1..], n)
  {
    assert forall m :: 0 <= m < |endpoints| - 1 ==> endpoints[1..][m] == endpoints[m + 1];
    if NotFoundUpTo(probe, port, endpoints, n + 1) {
      assert probe(port, endpoints[0]).Response?;
      forall m | 0 <= m < n
        ensures probe(port, endpoints[1..][m]).Response? && probe(port, endpoints[1..][m]).code == 404
      {
        assert probe(port, endpoints[m + 1]).Response?;
      }
    }
    if NotFoundUpTo(probe, port, endpoints[1..], n) {
      assert forall m :: 0 < m < n + 1 ==> endpoints[m] == endpoints[1..][m - 1];
    }
  }

  /** The inner loop by codes: it ends where the port answers, or the port is given up. */
  lemma {:induction false} PortByCodes(probe: Prober, port: string, endpoints: seq<string>)
    ensures FirstEndpoint(probe, port, endpoints) == None <==> GivenUp(probe, port, endpoints)
    ensures forall n :: AnswersAt(probe, port, endpoints, n) ==>
              FirstEndpoint(probe, port, endpoints) == Some(endpoints[n])
    ensures FirstEndpoint(probe, port, endpoints).Some? ==> exists n :: AnswersAt(probe, port, endpoints, n)
  {
    if endpoints == [] {
      assert NotFoundUpTo(probe, port, endpoints, 0);
    } else {
      var first, rest := probe(port, endpoints[0]), endpoints[1..];
      assert NotFoundUpTo(probe, port, endpoints, 0);
      assert forall n :: NotFoundUpTo(probe, port, endpoints, n) ==> n == 0 || (first.Response? && first.code == 404);
      if first.Response? && first.code == 404 {
        PortByCodes(probe, port, rest);
        forall n | 0 <= n <= |rest|
          ensures NotFoundUpTo(probe, port, endpoints, n + 1) <==> NotFoundUpTo(probe, port, rest, n)
        {
          NotFoundTail(probe, port, endpoints, n);
        }
        PortTailByCodes(probe, port, endpoints);
      } else if first.Unreachable? {
        assert GivenUp(probe, port, endpoints);
      } else {
        assert AnswersAt(probe, port, endpoints, 0);
      }
    }
  }

  /** Behind a first 404 the port is what its other endpoints make of it. */
  lemma PortTailByCodes(probe: Prober, port: string, endpoints: seq<string>)
    requires endpoints != []
    requires forall n :: 0 <= n <= |endpoints| - 1 ==>
               (NotFoundUpTo(probe, port, endpoints, n + 1) <==> NotFoundUpTo(probe, port, endpoints[1..], n))
    requires probe(port, endpoints[0]).Response? && probe(port, endpoints[0]).code == 404
    ensures GivenUp(probe, port, endpoints) <==> GivenUp(probe, port, endpoints[1..])
    ensures forall n :: n >= 0 ==>
              (AnswersAt(probe, port, endpoints, n + 1) <==> AnswersAt(probe, port, endpoints[1..], n))
    ensures !AnswersAt(probe, port, endpoints, 0)
  {
    var rest := endpoints[1..];
    assert forall m :: 0 <= m < |rest| ==> rest[m] == endpoints[m + 1];
    if GivenUp(probe, port, rest) {
      var n :| NotFoundUpTo(probe, port, rest, n) && (n == |rest| || probe(port, rest[n]).Unreachable?);
      assert NotFoundUpTo(probe, port, endpoints, n + 1);
    }
    if GivenUp(probe, port, endpoints) {
      var n :| NotFoundUpTo(probe, port, endpoints, n) && (n == |endpoints| || probe(port, endpoints[n]).Unreachable?);
      assert n > 0;
      assert NotFoundUpTo(probe, port, endpoints, (n - 1) + 1);
      assert NotFoundUpTo(probe, port, rest, n - 1);
    }
  }

  /** The whole search by codes: it ends at a pair if and only if that is the first answer other than a 404 on the first
      port that is not given up. */
  lemma {:induction false} ScanEndsIff(probe: Prober, ports: seq<string>, endpoints: seq<string>, at: Pair)
    ensures Scan(probe, ports, endpoints) == Some(at) <==> SearchEndsAt(probe, ports, endpoints, at)
  {
    if ports != [] {
      var rest := ports[1..];
      ScanEndsIff(probe, rest, endpoints, at);
      PortByCodes(probe, ports[0], endpoints);
      if SearchEndsAt(probe, ports, endpoints, at) {
        var i, n :| && StandsAt(at, ports, endpoints, i, n) && AnswersAt(probe, ports[i], endpoints, n)
                    && forall h :: 0 <= h < i ==> GivenUp(probe, ports[h], endpoints);
        if i > 0 {
          assert GivenUp(probe, ports[0], endpoints);
          assert StandsAt(at, rest, endpoints, i - 1, n);
          assert forall h :: 0 <= h < i - 1 ==> rest[h] == ports[h + 1];
          assert SearchEndsAt(probe, rest, endpoints, at);
        }
      }
      if Scan(probe, ports, endpoints) == Some(at) {
        if FirstEndpoint(probe, ports[0], endpoints).Some? {
          var n :| AnswersAt(probe, ports[0], endpoints, n);
          assert StandsAt(at, ports, endpoints, 0, n);
        } else {
          var i, n :| && StandsAt(at, rest, endpoints, i, n) && AnswersAt(probe, rest[i], endpoints, n)
                      && forall h :: 0 <= h < i ==> GivenUp(probe, rest[h], endpoints);
          assert StandsAt(at, ports, endpoints, i + 1, n);
          assert forall h :: 0 < h < i + 1 ==> ports[h] == rest[h - 1];
        }
      }
    }
  }

  // ---- Narrowing the candidates -----------------------------------------------------------

  /** The position of the first w, or the length. */
  function First(xs: seq<string>, w: string): (i: nat)
    ensures i <= |xs| && (i < |xs| <==> w in xs) && (i < |xs| ==> xs[i] == w)
    ensures forall j :: 0 <= j < i ==> xs[j] != w
  {
    if xs == [] || xs[0] == w then 0 else 1 + First(xs[1..], w)
  }

  lemma BeforeFirst(xs: seq<string>, w: string)
    requires xs != [] && xs[0] != w
    ensures forall x :: x in xs <==> x == xs[0] || x in xs[1..]
    ensures forall x :: x in xs[..First(xs, w)] <==> x == xs[0] || x in xs[1..][..First(xs[1..], w)]
  {
    assert xs == [xs[0]] + xs[1..];
    assert xs[..First(xs, w)] == [xs[0]] + xs[1..][..First(xs[1..], w)];
  }

  /** xs is drawn from ys, still holds w, and puts nothing before w that ys does not put before w. */
  predicate Narrows(xs: seq<string>, ys: seq<string>, w: string) {
    && w in xs
    && (forall x :: x in xs ==> x in ys)
    && (forall x :: x in xs[..First(xs, w)] ==> x in ys[..First(ys, w)])
  }

  /** A port that is live but answers 404 at this endpoint. */
  predicate Skips(probe: Prober, port: string, endpoint: string) {
    var a := probe(port, endpoint);
    !a.Unreachable? && !Stops(a)
  }

  lemma {:induction false} EndpointFoundIff(probe: Prober, port: string, endpoints: seq<string>, e: string)
    ensures FirstEndpoint(probe, port, endpoints) == Some(e)
            <==> && e in endpoints && Stops(probe(port, e))
                 && forall x :: x in endpoints[..First(endpoints, e)] ==> Skips(probe, port, x)
  {
    if endpoints != [] {
      var rest := endpoints[1..];
      EndpointFoundIff(probe, port, rest, e);
      if endpoints[0] != e {
        BeforeFirst(endpoints, e);
        assert endpoints[0] in endpoints[..First(endpoints, e)];
        assert forall x :: x in rest[..First(rest, e)] ==> x in endpoints[..First(endpoints, e)];
      }
    }
  }

  lemma {:induction false} PairFoundIff(probe: Prober, ports: seq<string>, endpoints: seq<string>, p: string, e: string)
    ensures Scan(probe, ports, endpoints) == Some(Pair(p, e))
            <==> && p in ports && FirstEndpoint(probe, p, endpoints) == Some(e)
                 && forall q :: q in ports[..First(ports, p)] ==> FirstEndpoint(probe, q, endpoints) == None
  {
    if ports != [] {
      var rest := ports[1..];
      PairFoundIff(probe, rest, endpoints, p, e);
      if ports[0] != p {
        BeforeFirst(ports, p);
        assert ports[0] in ports[..First(ports, p)];
        assert forall q :: q in rest[..First(rest, p)] ==> q in ports[..First(ports, p)];
      }
    }
  }

  /** With fewer endpoints to try, a port that was given up is still given up. */
  lemma {:induction false} GivenUpStays(probe: Prober, port: string, endpoints: seq<string>, fewer: seq<string>)
    requires PortUniform(probe, [port], endpoints)
    requires FirstEndpoint(probe, port, endpoints) == None
    requires forall e :: e in fewer ==> e in endpoints
    ensures FirstEndpoint(probe, port, fewer) == None
  {
    if fewer != [] && !probe(port, fewer[0]).Unreachable? {
      assert port in [port] && fewer[0] in endpoints;
      assert forall e :: e in endpoints ==> !probe(port, e).Unreachable?;
      AllSkipped(probe, port, endpoints);
      GivenUpStays(probe, port, endpoints, fewer[1..]);
    }
  }

  lemma {:induction false} AllSkipped(probe: Prober, port: string, endpoints: seq<string>)
    requires FirstEndpoint(probe, port, endpoints) == None
    requires forall e :: e in endpoints ==> !probe(port, e).Unreachable?
    ensures forall e :: e in endpoints ==> Skips(probe, port, e)
  {
    if endpoints != [] {
      AllSkipped(probe, port, endpoints[1..]);
    }
  }

  /** Restricting the candidates keeps the winner: searching any narrower lists that still hold the pair the full
      search found, and put nothing new before it, finds the same pair. */
  lemma NarrowedScanAgrees(probe: Prober, ports: seq<string>, endpoints: seq<string>,
                           fewerPorts: seq<string>, fewerEndpoints: seq<string>)
    requires PortUniform(probe, ports, endpoints)
    requires Scan(probe, ports, endpoints).Some?
    requires var hit := Scan(probe, ports, endpoints).value;
             Narrows(fewerPorts, ports, hit.port) && Narrows(fewerEndpoints, endpoints, hit.endpoint)
    ensures Scan(probe, fewerPorts, fewerEndpoints) == Scan(probe, ports, endpoints)
  {
    var Pair(p, e) := Scan(probe, ports, endpoints).value;
    PairFoundIff(probe, ports, endpoints, p, e);
    EndpointFoundIff(probe, p, endpoints, e);
    EndpointFoundIff(probe, p, fewerEndpoints, e);
    forall q | q in fewerPorts[..First(fewerPorts, p)]
      ensures FirstEndpoint(probe, q, fewerEndpoints) == None
    {
      assert q in ports[..First(ports, p)];
      GivenUpStays(probe, q, endpoints, fewerEndpoints);
    }
    PairFoundIff(probe, fewerPorts, fewerEndpoints, p, e);
  }

  /** The two narrowings the configuration makes: all candidates, or only the winner. */
  lemma NarrowsToWinner(ys: seq<string>, w: string)
    requires w in ys
    ensures Narrows(ys, ys, w) && Narrows([w], ys, w)
  {
  }

  predicate Subsequence(xs: seq<string>, ys: seq<string>) {
    xs == [] || (ys != [] && ((xs[0] == ys[0] && Subsequence(xs[1..], ys[1..])) || Subsequence(xs, ys[1..])))
  }

  predicate NoDuplicates(ys: seq<string>) { forall i, j :: 0 <= i < j < |ys| ==> ys[i] != ys[j] }

  /** Any subsequence of duplicate-free candidates that still holds w narrows them. */
  lemma {:induction false} SubsequenceNarrows(xs: seq<string>, ys: seq<string>, w: string)
    requires Subsequence(xs, ys) && NoDuplicates(ys) && w in xs
    ensures Narrows(xs, ys, w)
  {
    SubsequenceMembers(xs, ys);
    if xs[0] == ys[0] && Subsequence(xs[1..], ys[1..]) {
      if xs[0] != w {
        SubsequenceNarrows(xs[1..], ys[1..], w);
        BeforeFirst(xs, w);
        BeforeFirst(ys, w);
      }
    } else {
      SubsequenceNarrows(xs, ys[1..], w);
      SubsequenceMembers(xs, ys[1..]);
      assert ys[0] != w;
      BeforeFirst(ys, w);
    }
  }

  lemma {:induction false} SubsequenceMembers(xs: seq<string>, ys: seq<string>)
    requires Subsequence(xs, ys)
    ensures forall x :: x in xs ==> x in ys
  {
    if xs != [] {
      assert xs == [xs[0]] + xs[1..];
      if xs[0] == ys[0] && Subsequence(xs[1..], ys[1..]) {
        SubsequenceMembers(xs[1..], ys[1..]);
      } else {
        SubsequenceMembers(xs, ys[1..]);
      }
    }
  }

  /** Why the winner's first position matters: with a candidate listed twice, a subsequence that holds the winner can
      find another pair. */
  lemma DuplicatesLoseTheWinner(probe: Prober)
    requires forall p, e :: probe(p, e) == Response(200, "", Unparsable(""), Unparsable(""))
    ensures Subsequence(["b", "a"], ["a", "b", "a"])
    ensures Scan(probe, ["a", "b", "a"], ["m"]) == Some(Pair("a", "m"))
    ensures Scan(probe, ["b", "a"], ["m"]) == Some(Pair("b", "m"))
  {
    assert ["a", "b", "a"][1..] == ["b", "a"];
  }
}
