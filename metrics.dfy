/**
 * `PerformanceMetrics`: a sliding window of the last hundred request
 * durations and two counters, one for successes and one for errors.
 */
module Metrics {

  /** Durations kept in the window. */
  const MaxTimes := 100

  /** What `get_metrics` reports; the two averages are left unrounded. */
  datatype MetricsReport =
      /** no request recorded yet: average 0 and success rate 1.0 */
    | Idle
    | Report(averageResponseTime: real, successRate: real, totalRequests: nat, errorCount: nat)

  /** Append a duration, then drop the oldest when the window overflows (one `pop(0)`). */
  function Window(times: seq<real>, duration: real): (r: seq<real>)
    requires |times| <= MaxTimes
    ensures |r| == if |times| < MaxTimes then |times| + 1 else MaxTimes
    ensures r[|r| - 1] == duration
    ensures r[..|r| - 1] == if |times| < MaxTimes then times else times[1..]
  {
    var appended := times + [duration];
    assert appended[..|times|] == times;
    if |appended| > MaxTimes then
      assert appended[1..][..|times| - 1] == times[1..];
      appended[1..]
    else appended
  }

  /** The window after recording `durations` one by one, starting empty. */
  function WindowAfter(durations: seq<real>): (r: seq<real>)
    ensures |r| <= MaxTimes
  {
    if durations == [] then []
    else Window(WindowAfter(durations[..|durations| - 1]), durations[|durations| - 1])
  }

  /** The window always holds the most recent durations: the last hundred, or all of them. */
  lemma {:induction false} WindowKeepsMostRecent(durations: seq<real>)
    ensures |WindowAfter(durations)| == if |durations| < MaxTimes then |durations| else MaxTimes
    ensures WindowAfter(durations) == durations[|durations| - |WindowAfter(durations)|..]
  {
    if durations != [] {
      var init, last := durations[..|durations| - 1], durations[|durations| - 1];
      WindowKeepsMostRecent(init);
      var w := WindowAfter(init);
      var r := Window(w, last);
      assert r == WindowAfter(durations);
      var kept := r[..|r| - 1];
      assert kept == init[|init| - |kept|..] by {
        if |w| == MaxTimes {
          assert w[1..] == init[|init| - |w| + 1..];
        }
      }
      assert r == kept + [last];
      assert durations[|durations| - |r|..] == init[|init| - |kept|..] + [last];
    }
  }

  function Sum(times: seq<real>): real {
    if times == [] then 0.0 else Sum(times[..|times| - 1]) + times[|times| - 1]
  }

  /** `get_metrics` over the counters and the window. */
  function MetricsOf(times: seq<real>, successCount: nat, errorCount: nat): (m: MetricsReport)
    ensures m.Idle? <==> times == []
    ensures m.Report? ==> m.totalRequests == successCount + errorCount && m.errorCount == errorCount
  {
    if times == [] then Idle
    else
      var total := successCount + errorCount;
      Report(Sum(times) / |times| as real,
             if total > 0 then successCount as real / total as real else 1.0,
             total, errorCount)
  }

  /**
   * The report is idle exactly when nothing is in the window; otherwise the
   * total is the sum of the counters, and the success rate lies between 0
   * and 1 and is 1 exactly when there were no errors.
   */
  lemma MetricsSpec(times: seq<real>, successCount: nat, errorCount: nat)
    requires |times| <= successCount + errorCount
    ensures MetricsOf(times, successCount, errorCount).Idle? <==> times == []
    ensures MetricsOf(times, successCount, errorCount).Report? ==>
      var m := MetricsOf(times, successCount, errorCount);
      && m.totalRequests == successCount + errorCount
      && m.errorCount == errorCount
      && 0.0 <= m.successRate <= 1.0
      && (m.successRate == 1.0 <==> errorCount == 0)
  {
    if times != [] {
      RateBounds(successCount, errorCount);
    }
  }

  /** The success rate of a non-empty count lies in [0, 1] and is 1 exactly when nothing failed. */
  lemma RateBounds(successCount: nat, errorCount: nat)
    requires successCount + errorCount > 0
    ensures var rate := successCount as real / (successCount + errorCount) as real;
      0.0 <= rate <= 1.0 && (rate == 1.0 <==> errorCount == 0)
  {
    var total := (successCount + errorCount) as real;
    var rate := successCount as real / total;
    assert rate * total == successCount as real;
    assert (1.0 - rate) * total == errorCount as real;
  }

  class PerformanceMetrics {
    var requestTimes: seq<real>
    var errorCount: nat
    var successCount: nat

    /** At most a hundred durations, and no more than the requests counted. */
    ghost predicate Valid()
      reads this
    {
      |requestTimes| <= MaxTimes && |requestTimes| <= successCount + errorCount
    }

    constructor()
      ensures Valid()
      ensures requestTimes == [] && errorCount == 0 && successCount == 0
    {
      requestTimes := [];
      errorCount := 0;
      successCount := 0;
    }

    /** `record_request`: exactly one counter goes up, and the window slides. */
    method RecordRequest(duration: real, success: bool)
      requires Valid()
      modifies this
      ensures Valid()
      ensures requestTimes == Window(old(requestTimes), duration)
      ensures successCount == old(successCount) + (if success then 1 else 0)
      ensures errorCount == old(errorCount) + (if success then 0 else 1)
    {
      requestTimes := requestTimes + [duration];
      if success {
        successCount := successCount + 1;
      } else {
        errorCount := errorCount + 1;
      }
      if |requestTimes| > MaxTimes {
        requestTimes := requestTimes[1..];
      }
    }

    /** `get_metrics`. */
    method GetMetrics() returns (m: MetricsReport)
      ensures m == MetricsOf(requestTimes, successCount, errorCount)
    {
      if requestTimes == [] {
        return Idle;
      }
      var sum := 0.0;
      var i := 0;
      while i < |requestTimes|
        invariant 0 <= i <= |requestTimes|
        invariant sum == Sum(requestTimes[..i])
      {
        assert requestTimes[..i + 1][..i] == requestTimes[..i];
        sum := sum + requestTimes[i];
        i := i + 1;
      }
      assert requestTimes[..i] == requestTimes;
      var total := successCount + errorCount;
      var rate := if total > 0 then successCount as real / total as real else 1.0;
      m := Report(sum / |requestTimes| as real, rate, total, errorCount);
    }
  }
}
