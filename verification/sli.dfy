/** The exchange success rate over one polling interval: getSLIExchangeSuccessRate. */
module Sli {
  import opened Options
  import opened Decimal
  import opened Api
  import opened Aggregate

  /** Aggregates always carry an exchange record. */
  type Info = r: Runtime | r.exchange.Some? witness NO_RUNTIME.(exchange := Some(NO_EXCHANGE))

  function TotalGrowth(before: Info, now: Info): int { now.exchange.value.total - before.exchange.value.total }

  function FailedGrowth(before: Info, now: Info): int { now.exchange.value.failed - before.exchange.value.failed }

  /** Percentage of failures in the interval; zero when nothing was exchanged or the counters were reset. */
  function FailureRate(total: int, failed: int): real {
    if total > 0 then failed as real / total as real * 100.0 else 0.0
  }

  /** The classification; the threshold called "warning" is the one that marks an error, as in the operator. */
  function Classify(rate: real, total: int, errPerc: int, warnPerc: int): SliStatus {
    if rate > warnPerc as real then Error
    else if rate > errPerc as real then Warning
    else if total > 0 then Success
    else Unset
  }

  function SliOf(before: Info, now: Info, interval: int, errPerc: int, warnPerc: int): SuccessRate {
    var total, failed := TotalGrowth(before, now), FailedGrowth(before, now);
    var rate := FailureRate(total, failed);
    SuccessRate(
      if total > 0 then FormatFixed(100.0 - rate, 2) else "",
      interval,
      if total >= 0 then total else 0,
      if failed >= 0 then failed else 0,
      now.exchange.value.lastTimestamp,
      Classify(rate, total, errPerc, warnPerc))
  }

  /** getSLIExchangeSuccessRate: a record filled field by field. */
  method GetSliExchangeSuccessRate(before: Info, now: Info, interval: int, errPerc: int, warnPerc: int)
    returns (s: SuccessRate)
    ensures s == SliOf(before, now, interval, errPerc, warnPerc)
  {
    hide FormatFixed;
    var failureRate := 0.0;
    s := SuccessRate("", interval, 0, 0, None, Unset);
    var total := now.exchange.value.total - before.exchange.value.total;
    var failed := now.exchange.value.failed - before.exchange.value.failed;
    if total > 0 {
      failureRate := failed as real / total as real * 100.0;
      var successRate := 100.0 - failureRate;
      s := s.(percentage := FormatFixed(successRate, 2));
    }
    if total >= 0 {
      s := s.(total := total);
    }
    if failed >= 0 {
      s := s.(failed := failed);
    }
    if failureRate > warnPerc as real {
      s := s.(status := Error);
    } else if failureRate > errPerc as real {
      s := s.(status := Warning);
    } else if total > 0 {
      s := s.(status := Success);
    }
    if now.exchange.value.lastTimestamp != None {
      s := s.(lastTimestamp := now.exchange.value.lastTimestamp);
    }
  }

  // ---- Bounds -----------------------------------------------------------------------------

  /** The rate stays between 0 and 100 exactly when failures grew by no more than the total did. */
  lemma RateInRangeIff(total: int, failed: int)
    requires total > 0
    ensures 0.0 <= FailureRate(total, failed) <= 100.0 <==> 0 <= failed <= total
  {
    ScaledRate(failed as real / total as real, failed as real, total as real);
  }

  lemma ScaledRate(q: real, failed: real, total: real)
    requires total > 0.0 && q * total == failed
    ensures q >= 0.0 <==> failed >= 0.0
    ensures q <= 1.0 <==> failed <= total
  {
    assert q >= 0.0 ==> q * total >= 0.0;
    assert q < 0.0 ==> q * total < 0.0;
    assert (1.0 - q) * total == total - failed;
    assert q <= 1.0 ==> (1.0 - q) * total >= 0.0;
    assert q > 1.0 ==> (1.0 - q) * total < 0.0;
  }

  /** The same pods, listed in some other order before, each with failures growing by at most its total. */
  ghost predicate GrewSanely(before: seq<Pod>, now: seq<Pod>, aligned: seq<Pod>) {
    && multiset(before) == multiset(aligned)
    && |aligned| == |now|
    && forall i :: 0 <= i < |now| ==>
         && aligned[i].identity.name == now[i].identity.name
         && 0 <= ExchangeOf(now[i]).failed - ExchangeOf(aligned[i]).failed
              <= ExchangeOf(now[i]).total - ExchangeOf(aligned[i]).total
  }

  lemma {:induction false} SumsGrowSanely(before: seq<Pod>, now: seq<Pod>)
    requires |before| == |now|
    requires forall i :: 0 <= i < |now| ==>
               0 <= ExchangeOf(now[i]).failed - ExchangeOf(before[i]).failed
                 <= ExchangeOf(now[i]).total - ExchangeOf(before[i]).total
    ensures 0 <= ExchangeSum(now).failed - ExchangeSum(before).failed
              <= ExchangeSum(now).total - ExchangeSum(before).total
  {
    if now != [] {
      SumsGrowSanely(before[..|before| - 1], now[..|now| - 1]);
    }
  }

  /** The record reports these growths, and its printed percentage is a number between 0 and 100 within half a
      hundredth of the exact success rate. */
  predicate ReportsRate(s: SuccessRate, total: int, failed: int) {
    && 0 <= failed <= total && s.total == total && s.failed == failed
    && (total == 0 ==> s.percentage == "")
    && (total > 0 ==>
          && 0.0 <= 100.0 - FailureRate(total, failed) <= 100.0
          && ParseFixed(s.percentage).Some?
          && 0.0 <= ParseFixed(s.percentage).value <= 100.0
          && -0.005 <= ParseFixed(s.percentage).value - (100.0 - FailureRate(total, failed)) <= 0.005)
  }

  lemma RateReported(before: Info, now: Info, interval: int, errPerc: int, warnPerc: int)
    requires 0 <= FailedGrowth(before, now) <= TotalGrowth(before, now)
    ensures ReportsRate(SliOf(before, now, interval, errPerc, warnPerc), TotalGrowth(before, now),
                        FailedGrowth(before, now))
  {
    var total, failed := TotalGrowth(before, now), FailedGrowth(before, now);
    if total > 0 {
      RateInRangeIff(total, failed);
      PrintedPercentage(100.0 - FailureRate(total, failed));
    }
  }

  lemma GrowthFromPods(before: seq<Pod>, now: seq<Pod>, aligned: seq<Pod>)
    requires GrewSanely(before, now, aligned)
    ensures 0 <= ExchangeSum(now).failed - ExchangeSum(before).failed
              <= ExchangeSum(now).total - ExchangeSum(before).total
  {
    SumIgnoresOrder(before, aligned);
    SumsGrowSanely(aligned, now);
  }

  /** From what each pod does to what is reported. */
  lemma SuccessRateFromPods(before: seq<Pod>, now: seq<Pod>, aligned: seq<Pod>, interval: int, errPerc: int,
                            warnPerc: int)
    requires InfoOf(before).Some? && InfoOf(now).Some?
    requires GrewSanely(before, now, aligned)
    ensures ReportsRate(SliOf(InfoOf(before).value, InfoOf(now).value, interval, errPerc, warnPerc),
                        ExchangeSum(now).total - ExchangeSum(before).total,
                        ExchangeSum(now).failed - ExchangeSum(before).failed)
  {
    hide SliOf, ReportsRate, ExchangeSum;
    InfoNoneIff(before);
    InfoNoneIff(now);
    GrowthFromPods(before, now, aligned);
    RateReported(InfoOf(before).value, InfoOf(now).value, interval, errPerc, warnPerc);
  }

  lemma PrintedPercentage(x: real)
    requires 0.0 <= x <= 100.0
    ensures ParseFixed(FormatFixed(x, 2)).Some?
    ensures 0.0 <= ParseFixed(FormatFixed(x, 2)).value <= 100.0
    ensures -0.005 <= ParseFixed(FormatFixed(x, 2)).value - x <= 0.005
  {
    FormatParse(x, 2);
    assert Pow10(2) == 100 by { assert Pow10(1) == 10 && Pow10(0) == 1; }
    RoundedInRange(x, 100, 100);
    RoundedError(x, 100);
  }

  // ---- Classification ---------------------------------------------------------------------

  function Severity(s: SliStatus): nat {
    match s
    case Unset => 0
    case Success => 1
    case Warning => 2
    case Error => 3
  }

  /** For the same number of exchanges, more failures never look better, whatever the thresholds are. */
  lemma SeverityMonotone(before: Info, now: Info, worse: Info, interval: int, errPerc: int, warnPerc: int)
    requires now.exchange.value.total == worse.exchange.value.total
    requires now.exchange.value.failed <= worse.exchange.value.failed
    ensures Severity(SliOf(before, now, interval, errPerc, warnPerc).status)
         <= Severity(SliOf(before, worse, interval, errPerc, warnPerc).status)
  {
    var total := TotalGrowth(before, now);
    if total > 0 {
      RateMonotone(FailedGrowth(before, now), FailedGrowth(before, worse), total);
    }
  }

  lemma RateMonotone(a: int, b: int, total: int)
    requires total > 0 && a <= b
    ensures FailureRate(total, a) <= FailureRate(total, b)
  {
    var d := b as real / total as real - a as real / total as real;
    assert d * total as real == (b - a) as real;
    assert d < 0.0 ==> d * total as real < 0.0;
  }

  /** Over the reals the tests are integer comparisons (in floating point the rate is rounded first, so that seven
      failures of a hundred can come out above seven percent): the status is Error, Warning or Success by how a
      hundred times the failures compare with the thresholds times the total; without new exchanges the rate counts as
      zero. */
  lemma StatusByIntegers(before: Info, now: Info, interval: int, errPerc: int, warnPerc: int)
    ensures var total, failed := TotalGrowth(before, now), FailedGrowth(before, now);
            SliOf(before, now, interval, errPerc, warnPerc).status
            == if total > 0 then
                 if 100 * failed > warnPerc * total then Error
                 else if 100 * failed > errPerc * total then Warning
                 else Success
               else if warnPerc < 0 then Error
               else if errPerc < 0 then Warning
               else Unset
  {
    var total, failed := TotalGrowth(before, now), FailedGrowth(before, now);
    if total > 0 {
      ExceedsIff(total, failed, warnPerc);
      ExceedsIff(total, failed, errPerc);
    }
  }

  lemma ExceedsIff(total: int, failed: int, threshold: int)
    requires total > 0
    ensures FailureRate(total, failed) > threshold as real <==> 100 * failed > threshold * total
  {
    var r := FailureRate(total, failed);
    var t := total as real;
    assert r * t == failed as real * 100.0 by {
      assert (failed as real / t) * t == failed as real;
    }
    var d := r - threshold as real;
    assert d * t == (100 * failed - threshold * total) as real by {
      assert threshold as real * t == (threshold * total) as real;
    }
    assert d > 0.0 ==> d * t > 0.0;
    assert d <= 0.0 ==> d * t <= 0.0;
  }
}
