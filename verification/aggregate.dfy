/** Folding the pods of an application into one runtime record: getInfo. */
module Aggregate {
  import opened Options
  import opened Api

  // ---- What the fold means ----------------------------------------------------------------

  function ExchangeOf(pod: Pod): Exchange {
    if pod.runtime.Some? then pod.runtime.value.exchange.GetOr(NO_EXCHANGE) else NO_EXCHANGE
  }

  function Later(a: Option<Time>, b: Option<Time>): Option<Time> {
    if a == None then b else if b.Some? && b.value > a.value then b else a
  }

  /** Componentwise sum, with the later of the two timestamps. */
  function Plus(a: Exchange, b: Exchange): Exchange {
    Exchange(a.total + b.total, a.succeeded + b.succeeded, a.failed + b.failed, a.pending + b.pending,
             Later(a.lastTimestamp, b.lastTimestamp))
  }

  function ExchangeSum(pods: seq<Pod>): Exchange {
    if pods == [] then NO_EXCHANGE else Plus(ExchangeSum(pods[..|pods| - 1]), ExchangeOf(pods[|pods| - 1]))
  }

  predicate NamesProvider(pod: Pod) { pod.runtime.Some? && pod.runtime.value.provider != "" }

  /** Of two runtimes the first speaks if it names a provider or if there is no other. */
  function Speaker(a: Option<Runtime>, b: Option<Runtime>): Option<Runtime> {
    if (a.Some? && a.value.provider != "") || b == None then a else b
  }

  /** The runtime whose provider and versions are reported. */
  function Spokesman(pods: seq<Pod>): Option<Runtime> {
    if pods == [] then None else Speaker(Spokesman(pods[..|pods| - 1]), pods[|pods| - 1].runtime)
  }

  /** The aggregate of an application, None when nothing at all was scraped. */
  function InfoOf(pods: seq<Pod>): Option<Runtime> {
    var s, e := Spokesman(pods).GetOr(NO_RUNTIME), ExchangeSum(pods);
    if s.provider == "" && e.total == 0 then None
    else Some(Runtime("", s.provider, s.version, s.camelVersion, Some(e)))
  }

  // ---- The loop ---------------------------------------------------------------------------

  /** getInfo: one pass over the pods with running sums. */
  method GetInfo(pods: seq<Pod>) returns (info: Option<Runtime>)
    ensures info == InfoOf(pods)
  {
    var provider, version, camelVersion := "", "", "";
    var e := NO_EXCHANGE;
    for i := 0 to |pods|
      invariant var s := Spokesman(pods[..i]).GetOr(NO_RUNTIME);
                provider == s.provider && version == s.version && camelVersion == s.camelVersion
      invariant e == ExchangeSum(pods[..i])
    {
      assert pods[..i + 1][..i] == pods[..i];
      var pod := pods[i];
      if provider == "" && pod.runtime.Some? {
        provider := pod.runtime.value.provider;
        version := pod.runtime.value.version;
        camelVersion := pod.runtime.value.camelVersion;
      }
      if pod.runtime.Some? && pod.runtime.value.exchange.Some? {
        var x := pod.runtime.value.exchange.value;
        e := e.(total := e.total + x.total, failed := e.failed + x.failed,
                pending := e.pending + x.pending, succeeded := e.succeeded + x.succeeded);
        if x.lastTimestamp.Some? {
          if e.lastTimestamp == None || x.lastTimestamp.value > e.lastTimestamp.value {
            e := e.(lastTimestamp := x.lastTimestamp);
          }
        }
      }
    }
    assert pods[..|pods|] == pods;
    if provider == "" && e.total == 0 {
      return None;
    }
    return Some(Runtime("", provider, version, camelVersion, Some(e)));
  }

  // ---- Homomorphism -----------------------------------------------------------------------

  lemma PlusAssociative(a: Exchange, b: Exchange, c: Exchange)
    ensures Plus(Plus(a, b), c) == Plus(a, Plus(b, c))
  {
  }

  lemma PlusCommutative(a: Exchange, b: Exchange)
    ensures Plus(a, b) == Plus(b, a)
    ensures Plus(a, NO_EXCHANGE) == a
  {
  }

  /** Aggregating two groups of pods separately and combining the parts is aggregating all of them. */
  lemma {:induction false} AggregateAppend(a: seq<Pod>, b: seq<Pod>)
    ensures ExchangeSum(a + b) == Plus(ExchangeSum(a), ExchangeSum(b))
    ensures ExchangeSum(a + b).total == ExchangeSum(a).total + ExchangeSum(b).total
    ensures ExchangeSum(a + b).failed == ExchangeSum(a).failed + ExchangeSum(b).failed
    ensures ExchangeSum(a + b).succeeded == ExchangeSum(a).succeeded + ExchangeSum(b).succeeded
    ensures ExchangeSum(a + b).pending == ExchangeSum(a).pending + ExchangeSum(b).pending
    ensures Spokesman(a + b) == Speaker(Spokesman(a), Spokesman(b))
  {
    if b == [] {
      assert a + b == a;
    } else {
      var front, last := b[..|b| - 1], b[|b| - 1];
      assert (a + b)[..|a + b| - 1] == a + front;
      AggregateAppend(a, front);
      PlusAssociative(ExchangeSum(a), ExchangeSum(front), ExchangeOf(last));
    }
  }

  /** A single pod is its own aggregate. */
  lemma AggregateOne(pod: Pod)
    ensures ExchangeSum([pod])
         == if pod.runtime.Some? && pod.runtime.value.exchange.Some? then pod.runtime.value.exchange.value
            else Exchange(0, 0, 0, 0, None)
  {
    var one, none: seq<Pod> := [pod], [];
    assert one[..0] == none;
    assert ExchangeSum(none) == NO_EXCHANGE;
    assert ExchangeSum(one) == Plus(ExchangeSum(none), ExchangeOf(pod)) by { assert |one| - 1 == 0; }
    PlusCommutative(ExchangeOf(pod), NO_EXCHANGE);
  }

  /** The timestamp of the aggregate is the latest of any pod's, and missing only when every pod's is. */
  lemma {:induction false} LatestTimestamp(pods: seq<Pod>)
    ensures match ExchangeSum(pods).lastTimestamp
            case None => forall p :: p in pods ==> ExchangeOf(p).lastTimestamp == None
            case Some(t) =>
              && (exists p :: p in pods && ExchangeOf(p).lastTimestamp == Some(t))
              && forall p :: p in pods && ExchangeOf(p).lastTimestamp.Some? ==> ExchangeOf(p).lastTimestamp.value <= t
  {
    if pods != [] {
      var front, last := pods[..|pods| - 1], pods[|pods| - 1];
      LatestTimestamp(front);
      assert pods == front + [last];
      assert last in pods && forall p :: p in front ==> p in pods;
    }
  }

  /** The order in which pods are listed does not matter for the exchange counters and the latest timestamp. */
  lemma {:induction false} SumIgnoresOrder(a: seq<Pod>, b: seq<Pod>)
    requires multiset(a) == multiset(b)
    ensures ExchangeSum(a) == ExchangeSum(b)
  {
    if a == [] {
      assert |multiset(b)| == |b|;
    } else {
      var i := FindLast(a, b);
      SumIgnoresOrder(a[..|a| - 1], b[..i] + b[i + 1..]);
      PullOut(b[..i], b[i], b[i + 1..]);
      assert b == b[..i] + [b[i]] + b[i + 1..];
    }
  }

  /** The last pod of one list, found in the other; what remains are still the same pods. */
  lemma FindLast(a: seq<Pod>, b: seq<Pod>) returns (i: nat)
    requires a != [] && multiset(a) == multiset(b)
    ensures i < |b| && b[i] == a[|a| - 1]
    ensures multiset(a[..|a| - 1]) == multiset(b[..i] + b[i + 1..])
  {
    var front, last := a[..|a| - 1], a[|a| - 1];
    assert a == front + [last];
    assert last in multiset(a) && last in b;
    i :| 0 <= i < |b| && b[i] == last;
    var before, after := b[..i], b[i + 1..];
    assert b == before + [last] + after;
    assert multiset(a) == multiset(front) + multiset{last};
    assert multiset(b) == multiset(before) + multiset{last} + multiset(after);
    assert multiset(front) == multiset(a) - multiset{last};
    assert multiset(before + after) == multiset(b) - multiset{last};
  }

  /** One pod can be moved to the end of the sum. */
  lemma PullOut(before: seq<Pod>, pod: Pod, after: seq<Pod>)
    ensures ExchangeSum(before + [pod] + after) == Plus(ExchangeSum(before + after), ExchangeOf(pod))
  {
    AggregateAppend(before + [pod], after);
    AggregateAppend(before, after);
    assert (before + [pod])[..|before|] == before;
    PlusAssociative(ExchangeSum(before), ExchangeOf(pod), ExchangeSum(after));
    PlusCommutative(ExchangeOf(pod), ExchangeSum(after));
    PlusAssociative(ExchangeSum(before), ExchangeSum(after), ExchangeOf(pod));
  }

  /** When no pod names a provider, none is reported, and the last pod with a runtime speaks. */
  lemma {:induction false} NobodyNames(pods: seq<Pod>)
    requires forall i :: 0 <= i < |pods| ==> !NamesProvider(pods[i])
    ensures Spokesman(pods).GetOr(NO_RUNTIME).provider == ""
  {
    if pods != [] {
      NobodyNames(pods[..|pods| - 1]);
    }
  }

  /** The first pod that names a provider gives all three texts. */
  lemma {:induction false} FirstNamingSpeaks(pods: seq<Pod>, i: nat)
    requires i < |pods| && NamesProvider(pods[i]) && forall j :: 0 <= j < i ==> !NamesProvider(pods[j])
    ensures Spokesman(pods) == pods[i].runtime
    ensures InfoOf(pods).Some?
    ensures var r := pods[i].runtime.value;
            && InfoOf(pods).value.provider == r.provider && InfoOf(pods).value.version == r.version
            && InfoOf(pods).value.camelVersion == r.camelVersion
  {
    var front := pods[..|pods| - 1];
    if i < |front| {
      FirstNamingSpeaks(front, i);
    } else {
      NobodyNames(front);
    }
  }

  /** When nobody names a provider, the last pod with a runtime gives the versions. */
  lemma {:induction false} LastRunningSpeaks(pods: seq<Pod>, i: nat)
    requires i < |pods| && pods[i].runtime.Some? && forall j :: i < j < |pods| ==> pods[j].runtime == None
    requires forall j :: 0 <= j < |pods| ==> !NamesProvider(pods[j])
    ensures Spokesman(pods) == pods[i].runtime
    ensures InfoOf(pods).Some? ==>
              && InfoOf(pods).value.provider == "" && InfoOf(pods).value.version == pods[i].runtime.value.version
              && InfoOf(pods).value.camelVersion == pods[i].runtime.value.camelVersion
  {
    var front := pods[..|pods| - 1];
    if i < |front| {
      LastRunningSpeaks(front, i);
    } else {
      NobodyNames(front);
    }
  }

  lemma FirstNamingExists(pods: seq<Pod>, i: nat) returns (m: nat)
    requires i < |pods| && NamesProvider(pods[i])
    ensures m <= i && NamesProvider(pods[m]) && forall j :: 0 <= j < m ==> !NamesProvider(pods[j])
  {
    m := i;
    if j :| 0 <= j < i && NamesProvider(pods[j]) {
      m := FirstNamingExists(pods, j);
    }
  }

  /** There is no aggregate exactly when no pod names a provider and no exchange was counted. */
  lemma InfoNoneIff(pods: seq<Pod>)
    ensures InfoOf(pods) == None
            <==> (forall i :: 0 <= i < |pods| ==> !NamesProvider(pods[i])) && ExchangeSum(pods).total == 0
    ensures InfoOf(pods).Some? ==> InfoOf(pods).value.exchange == Some(ExchangeSum(pods))
  {
    if i :| 0 <= i < |pods| && NamesProvider(pods[i]) {
      var m := FirstNamingExists(pods, i);
      FirstNamingSpeaks(pods, m);
    } else {
      NobodyNames(pods);
    }
  }
}
