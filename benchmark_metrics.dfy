/**
 * Benchmark metrics: counts and rates over collected task results, duration and token
 * aggregates, error classes, baseline-versus-tools comparisons, grouping by task or model, and
 * the collector whose result list, retry counters and concurrency counters change in place.
 */
module BenchmarkMetrics {
  import opened Common
  import opened Dicts
  import T = BenchmarkTasks

  // ---------------------------------------------------------------- statistics as given

  /**
   * The floating-point routines of Python's `statistics` module and `** 0.5`, which this model
   * takes as given: `quantile(xs, n, k)` is `statistics.quantiles(xs, n=n)[k]`.
   */
  datatype Statistics = Statistics(
    stdev: seq<real> -> real,
    median: seq<real> -> real,
    quantile: (seq<real>, int, int) -> real,
    sqrt: real -> real)

  /** The percentile dict for two or more durations. */
  function Percentiles(d: seq<real>, st: Statistics): seq<(string, real)>
  {
    [("p25", st.quantile(d, 4, 0)), ("p50", st.median(d)), ("p75", st.quantile(d, 4, 2)),
     ("p90", st.quantile(d, 10, 8)), ("p95", st.quantile(d, 20, 18)), ("p99", st.quantile(d, 100, 98))]
  }

  // ---------------------------------------------------------------- per-result tests

  function IsStatus(s: T.TaskStatus): T.TaskRecord -> bool
  {
    (r: T.TaskRecord) => r.status == s
  }

  function CountStatus(rs: seq<T.TaskRecord>, s: T.TaskStatus): nat
  {
    CountWhere(rs, IsStatus(s))
  }

  /** A result has at most one status, so the three outcome counts fit in the total. */
  lemma {:induction false} OutcomesBound(rs: seq<T.TaskRecord>)
    ensures CountStatus(rs, T.Completed) + CountStatus(rs, T.Failed) + CountStatus(rs, T.Timeout) <= |rs|
  {
    if rs != [] {
      OutcomesBound(rs[..|rs| - 1]);
    }
  }

  /** `sum(f(r) for r in rs)`. */
  function SumOver(rs: seq<T.TaskRecord>, f: T.TaskRecord -> int): int
  {
    if rs == [] then 0 else SumOver(rs[..|rs| - 1], f) + f(rs[|rs| - 1])
  }

  function TotalTokensOf(r: T.TaskRecord): int
  {
    r.totalTokens
  }

  function InputTokensOf(r: T.TaskRecord): int
  {
    r.inputTokens
  }

  function OutputTokensOf(r: T.TaskRecord): int
  {
    r.outputTokens
  }

  function HasDuration(r: T.TaskRecord): bool
  {
    r.duration.Some?
  }

  function DurationOf(r: T.TaskRecord): real
  {
    if r.duration.Some? then r.duration.value else 0.0
  }

  /** `[r.duration for r in rs if r.duration is not None]`. */
  function Durations(rs: seq<T.TaskRecord>): seq<real>
  {
    Collect(rs, HasDuration, DurationOf)
  }

  // ---------------------------------------------------------------- error classes

  const ErrorClasses: seq<string> := ["timeout", "connection", "http", "json", "model", "unknown"]

  /** `_classify_error`: the first keyword the lower-cased message contains decides. */
  function ClassifyError(error: string): (r: string)
    ensures r in ErrorClasses
  {
    var low := Lower(error);
    if Contains(low, "timeout") then "timeout"
    else if Contains(low, "connection") then "connection"
    else if Contains(low, "http") then "http"
    else if Contains(low, "json") then "json"
    else if Contains(low, "model") then "model"
    else "unknown"
  }

  /** Each class is chosen exactly when its keyword occurs and no earlier keyword does. */
  lemma ClassifyErrorSpec(error: string)
    ensures var low := Lower(error);
      && (ClassifyError(error) == "timeout" <==> Contains(low, "timeout"))
      && (ClassifyError(error) == "connection" <==> !Contains(low, "timeout") && Contains(low, "connection"))
      && (ClassifyError(error) == "http" <==>
            !Contains(low, "timeout") && !Contains(low, "connection") && Contains(low, "http"))
      && (ClassifyError(error) == "unknown" <==>
            !Contains(low, "timeout") && !Contains(low, "connection") && !Contains(low, "http")
            && !Contains(low, "json") && !Contains(low, "model"))
  {
  }

  /** `if result.error:` — a message that is neither None nor empty. */
  function HasError(r: T.TaskRecord): bool
  {
    r.error.Some? && r.error.value != ""
  }

  /** The `error_types` counter: one count per failing result, under its class. */
  function ErrorTypes(rs: seq<T.TaskRecord>): Dict<string, int>
  {
    if rs == [] then []
    else
      var n := |rs| - 1;
      var prev := ErrorTypes(rs[..n]);
      if HasError(rs[n]) then Increment(prev, ClassifyError(rs[n].error.value)) else prev
  }

  /** The error counts add up to the number of results with an error. */
  lemma {:induction false} ErrorTypesSum(rs: seq<T.TaskRecord>)
    ensures Sum(ErrorTypes(rs)) == CountWhere(rs, HasError)
  {
    if rs != [] {
      var n := |rs| - 1;
      ErrorTypesSum(rs[..n]);
      if HasError(rs[n]) {
        IncrementSpec(ErrorTypes(rs[..n]), ClassifyError(rs[n].error.value));
      }
    }
  }

  /** Errors are counted under the fixed classes only. */
  lemma {:induction false} ErrorTypesKeys(rs: seq<T.TaskRecord>)
    ensures forall k :: k in Keys(ErrorTypes(rs)) ==> k in ErrorClasses
  {
    if rs != [] {
      var n := |rs| - 1;
      var prev := ErrorTypes(rs[..n]);
      ErrorTypesKeys(rs[..n]);
      if HasError(rs[n]) {
        var c := ClassifyError(rs[n].error.value);
        SetKeysWithin(prev, c, GetOr(prev, c, 0) + 1, ErrorClasses);
      }
    }
  }

  // ---------------------------------------------------------------- efficiency

  /** Python's `max(0.0, x)`. */
  function AtLeastZero(x: real): real
  {
    if 0.0 >= x then 0.0 else x
  }

  /** `_calculate_efficiency_score`: weighted, normalised success, throughput, token rate and speed. */
  function EfficiencyScore(successRate: real, throughput: real, tokensPerSecond: real, avgDuration: real): real
  {
    if avgDuration == 0.0 then 0.0
    else
      var normalizedThroughput := CapOne(throughput / 10.0);
      var normalizedTokens := CapOne(tokensPerSecond / 1000.0);
      var speed := AtLeastZero(1.0 - avgDuration / 60.0);
      successRate * 0.4 + normalizedThroughput * 0.3 + normalizedTokens * 0.2 + speed * 0.1
  }

  /** With a rate in [0,1] and non-negative inputs the score lies in [0,1]. */
  lemma EfficiencyBounds(successRate: real, throughput: real, tokensPerSecond: real, avgDuration: real)
    requires 0.0 <= successRate <= 1.0 && throughput >= 0.0 && tokensPerSecond >= 0.0 && avgDuration >= 0.0
    ensures 0.0 <= EfficiencyScore(successRate, throughput, tokensPerSecond, avgDuration) <= 1.0
  {
  }

  // ---------------------------------------------------------------- calculate_metrics

  datatype BenchmarkMetrics = BenchmarkMetrics(
    totalTasks: int,
    completedTasks: int,
    failedTasks: int,
    successRate: real,
    totalDuration: real,
    averageTaskDuration: real,
    minDuration: real,
    maxDuration: real,
    durationStd: real,
    totalTokens: int,
    totalInputTokens: int,
    totalOutputTokens: int,
    averageTokensPerTask: real,
    tokensPerSecond: real,
    throughput: real,
    efficiencyScore: real,
    timeoutCount: int,
    retryCount: int,
    errorRate: real,
    concurrentPeak: int,
    resourceUtilization: real,
    percentiles: seq<(string, real)>,
    errorTypes: Dict<string, int>)

  /** `BenchmarkMetrics()`: every field at its zero default. */
  const ZeroMetrics := BenchmarkMetrics(0, 0, 0, 0.0, 0.0, 0.0, 0.0, 0.0, 0.0, 0, 0, 0, 0.0, 0.0, 0.0,
                                        0.0, 0, 0, 0.0, 0, 0.0, [], [])

  /** The duration block of `calculate_metrics`. */
  datatype DurationStats = DurationStats(
    total: real, average: real, min: real, max: real, std: real, percentiles: seq<(string, real)>)

  function DurationStatsOf(d: seq<real>, st: Statistics): DurationStats
  {
    if d == [] then DurationStats(0.0, 0.0, 0.0, 0.0, 0.0, [])
    else
      DurationStats(SumReal(d), Mean(d), MinOf(d), MaxOf(d),
                    if |d| > 1 then st.stdev(d) else 0.0,
                    if |d| >= 2 then Percentiles(d, st) else [])
  }

  /** The smallest, mean and largest duration are ordered, and the extremes are durations. */
  lemma DurationStatsOrder(d: seq<real>, st: Statistics)
    ensures DurationStatsOf(d, st).min <= DurationStatsOf(d, st).average <= DurationStatsOf(d, st).max
    ensures d != [] ==> DurationStatsOf(d, st).min in d && DurationStatsOf(d, st).max in d
    ensures DurationStatsOf(d, st).total == SumReal(d)
  {
    if d != [] {
      MeanBetween(d);
    }
  }

  /** Fewer than two durations give no spread and no percentiles; two or more give all six. */
  lemma DurationStatsGuards(d: seq<real>, st: Statistics)
    ensures |d| < 2 ==> DurationStatsOf(d, st).std == 0.0 && DurationStatsOf(d, st).percentiles == []
    ensures |d| >= 2 ==> Keys(DurationStatsOf(d, st).percentiles) == ["p25", "p50", "p75", "p90", "p95", "p99"]
  {
  }

  /** Python's `x or now` for an optional time stamp: None and 0.0 are both falsy. */
  function OrNow(x: Option<real>, now: real): real
  {
    if x.Some? && x.value != 0.0 then x.value else now
  }

  /** `a / b if b > 0 else 0.0`. */
  function RateOver(a: real, b: real): real
  {
    if b > 0.0 then a / b else 0.0
  }

  /**
   * `calculate_metrics` over already filtered results, with the collector's time stamps,
   * concurrency peak and retry total; `now` stands for `time.time()`.
   */
  function MetricsOf(rs: seq<T.TaskRecord>, startTime: Option<real>, endTime: Option<real>,
                     maxConcurrent: int, retryTotal: int, now: real, st: Statistics): (m: BenchmarkMetrics)
    ensures rs == [] ==> m == ZeroMetrics
    ensures rs != [] ==> m.totalTasks == |rs|
  {
    if rs == [] then ZeroMetrics
    else
      var total := |rs|;
      var completed := CountStatus(rs, T.Completed);
      var failed := CountStatus(rs, T.Failed);
      var successRate := completed as real / total as real;
      var errorRate := failed as real / total as real;
      var ds := DurationStatsOf(Durations(rs), st);
      var tokens := SumOver(rs, TotalTokensOf);
      var averageTokens := if completed > 0 then tokens as real / completed as real else 0.0;
      var overall := OrNow(endTime, now) - OrNow(startTime, now);
      var throughput := RateOver(completed as real, overall);
      var tokensPerSecond := RateOver(tokens as real, overall);
      BenchmarkMetrics(
        total, completed, failed, successRate,
        ds.total, ds.average, ds.min, ds.max, ds.std,
        tokens, SumOver(rs, InputTokensOf), SumOver(rs, OutputTokensOf), averageTokens,
        tokensPerSecond, throughput,
        EfficiencyScore(successRate, throughput, tokensPerSecond, ds.average),
        CountStatus(rs, T.Timeout), retryTotal, errorRate,
        maxConcurrent, maxConcurrent as real / 10.0,
        ds.percentiles, ErrorTypes(rs))
  }

  /** The outcome counts fit in the total, and both rates are shares of it in [0,1]. */
  lemma MetricsRates(rs: seq<T.TaskRecord>, startTime: Option<real>, endTime: Option<real>,
                     maxConcurrent: int, retryTotal: int, now: real, st: Statistics)
    requires rs != []
    ensures var m := MetricsOf(rs, startTime, endTime, maxConcurrent, retryTotal, now, st);
      && m.completedTasks + m.failedTasks + m.timeoutCount <= m.totalTasks
      && m.successRate == m.completedTasks as real / m.totalTasks as real
      && m.errorRate == m.failedTasks as real / m.totalTasks as real
      && 0.0 <= m.successRate <= 1.0 && 0.0 <= m.errorRate <= 1.0
  {
    OutcomesBound(rs);
    ShareBounds(CountStatus(rs, T.Completed), |rs|);
    ShareBounds(CountStatus(rs, T.Failed), |rs|);
  }

  /** Token totals are taken over every result, failed ones included; the average is per completed task. */
  lemma MetricsTokens(rs: seq<T.TaskRecord>, startTime: Option<real>, endTime: Option<real>,
                      maxConcurrent: int, retryTotal: int, now: real, st: Statistics)
    requires rs != []
    ensures var m := MetricsOf(rs, startTime, endTime, maxConcurrent, retryTotal, now, st);
      && m.totalTokens == SumOver(rs, TotalTokensOf)
      && m.totalInputTokens == SumOver(rs, InputTokensOf)
      && m.totalOutputTokens == SumOver(rs, OutputTokensOf)
      && (m.completedTasks == 0 ==> m.averageTokensPerTask == 0.0)
      && (m.completedTasks > 0 ==> m.averageTokensPerTask == m.totalTokens as real / m.completedTasks as real)
  {
  }

  /** The error counts sum to the failing results; the peak and retry total are the collector's. */
  lemma MetricsErrors(rs: seq<T.TaskRecord>, startTime: Option<real>, endTime: Option<real>,
                      maxConcurrent: int, retryTotal: int, now: real, st: Statistics)
    requires rs != []
    ensures var m := MetricsOf(rs, startTime, endTime, maxConcurrent, retryTotal, now, st);
      && Sum(m.errorTypes) == CountWhere(rs, HasError)
      && (forall k :: k in Keys(m.errorTypes) ==> k in ErrorClasses)
      && m.retryCount == retryTotal && m.concurrentPeak == maxConcurrent
  {
    ErrorTypesSum(rs);
    ErrorTypesKeys(rs);
  }

  // ---------------------------------------------------------------- comparison

  /** `_calculate_reduction_percent`. */
  function ReductionPercent(baseline: real, tools: real): (r: real)
    ensures baseline == 0.0 ==> r == 0.0
    ensures baseline > 0.0 ==> (r > 0.0 <==> tools < baseline)
  {
    if baseline == 0.0 then 0.0 else ((baseline - tools) / baseline) * 100.0
  }

  /** `_calculate_improvement_percent`. */
  function ImprovementPercent(baseline: real, tools: real): (r: real)
    ensures baseline == 0.0 ==> r == 0.0
    ensures baseline > 0.0 ==> (r > 0.0 <==> tools > baseline)
  {
    if baseline == 0.0 then 0.0 else ((tools - baseline) / baseline) * 100.0
  }

  /** Improvement is reduction with the sign turned round. */
  lemma ImprovementIsNegatedReduction(baseline: real, tools: real)
    ensures ImprovementPercent(baseline, tools) == -ReductionPercent(baseline, tools)
  {
    if baseline != 0.0 {
      assert (tools - baseline) / baseline == -((baseline - tools) / baseline);
    }
  }

  /** `_calculate_statistical_significance`. */
  function Significance(b: seq<real>, t: seq<real>, st: Statistics): (r: real)
    ensures r >= 0.0
    ensures (|b| < 2 || |t| < 2) ==> r == 0.0
  {
    if |b| < 2 || |t| < 2 then 0.0
    else
      var sb := st.stdev(b);
      var stt := st.stdev(t);
      var pooled := st.sqrt(sb * sb + stt * stt);
      if pooled == 0.0 then 0.0
      else
        var diff := Mean(b) - Mean(t);
        var tStat := (if diff < 0.0 then -diff else diff) / pooled;
        AtLeastZero(1.0 - tStat / 5.0)
  }

  /** `_calculate_confidence_intervals`. */
  function ConfidenceInterval(b: seq<real>, t: seq<real>, st: Statistics): (r: seq<(string, real)>)
    ensures (|b| < 2 || |t| < 2) <==> r == []
  {
    if |b| < 2 || |t| < 2 then []
    else
      var sb := st.stdev(b);
      var stt := st.stdev(t);
      var margin := 1.96 * st.sqrt(sb * sb / |b| as real + stt * stt / |t| as real);
      var difference := Mean(b) - Mean(t);
      [("lower_bound", difference - margin), ("upper_bound", difference + margin), ("difference", difference)]
  }

  /** The interval is centred on the difference of the means. */
  lemma ConfidenceIntervalCentred(b: seq<real>, t: seq<real>, st: Statistics)
    requires |b| >= 2 && |t| >= 2
    ensures var ci := ConfidenceInterval(b, t, st);
      && Keys(ci) == ["lower_bound", "upper_bound", "difference"]
      && ci[2].1 == Mean(b) - Mean(t)
      && ci[0].1 + ci[1].1 == 2.0 * ci[2].1
  {
  }

  datatype ComparisonMetrics = ComparisonMetrics(
    tokenReductionPercent: real,
    timeReductionPercent: real,
    efficiencyImprovementPercent: real,
    baselineMetrics: BenchmarkMetrics,
    toolsMetrics: BenchmarkMetrics,
    statisticalSignificance: real,
    confidenceInterval: seq<(string, real)>,
    sampleSize: int)

  function OfApproach(a: T.TaskApproach): T.TaskRecord -> bool
  {
    (r: T.TaskRecord) => r.approach == a
  }

  function TimedWith(a: T.TaskApproach): T.TaskRecord -> bool
  {
    (r: T.TaskRecord) => r.approach == a && r.duration.Some?
  }

  // ---------------------------------------------------------------- grouping

  type Groups = Dict<string, seq<T.TaskRecord>>

  /** `groups[key(r)].append(r)` on a `defaultdict(list)`. */
  function AddToGroup(g: Groups, k: string, r: T.TaskRecord): Groups
  {
    Set(g, k, GetOr(g, k, []) + [r])
  }

  function GroupBy(rs: seq<T.TaskRecord>, key: T.TaskRecord -> string): Groups
  {
    if rs == [] then []
    else
      var n := |rs| - 1;
      AddToGroup(GroupBy(rs[..n], key), key(rs[n]), rs[n])
  }

  /** The number of results held by all groups together. */
  function GroupSizes(g: Groups): nat
  {
    if g == [] then 0 else |g[0].1| + GroupSizes(g[1..])
  }

  lemma {:induction false} GroupSizesSet(g: Groups, k: string, v: seq<T.TaskRecord>)
    ensures GroupSizes(Set(g, k, v)) == GroupSizes(g) - |GetOr(g, k, [])| + |v|
  {
    if g != [] && g[0].0 != k {
      GroupSizesSet(g[1..], k, v);
    }
  }

  /** A group holds its key's results. */
  predicate GroupsKeyed(g: Groups, key: T.TaskRecord -> string)
  {
    forall x :: x in g ==> x.1 != [] && forall r :: r in x.1 ==> key(r) == x.0
  }

  /** Grouping keeps one group per key. */
  lemma {:induction false} GroupByUnique(rs: seq<T.TaskRecord>, key: T.TaskRecord -> string)
    ensures UniqueKeys(GroupBy(rs, key))
  {
    if rs != [] {
      var n := |rs| - 1;
      var g := GroupBy(rs[..n], key);
      GroupByUnique(rs[..n], key);
      SetUnique(g, key(rs[n]), GetOr(g, key(rs[n]), []) + [rs[n]]);
    }
  }

  /** Each group is non-empty and holds only its key's results. */
  lemma {:induction false} GroupByKeyed(rs: seq<T.TaskRecord>, key: T.TaskRecord -> string)
    ensures GroupsKeyed(GroupBy(rs, key), key)
  {
    if rs != [] {
      var n := |rs| - 1;
      var g := GroupBy(rs[..n], key);
      var k := key(rs[n]);
      GroupByKeyed(rs[..n], key);
      SetItems(g, k, GetOr(g, k, []) + [rs[n]]);
      GetSpec(g, k);
    }
  }

  /** Every result's key names a group. */
  lemma {:induction false} GroupByCovers(rs: seq<T.TaskRecord>, key: T.TaskRecord -> string)
    ensures forall i :: 0 <= i < |rs| ==> key(rs[i]) in Keys(GroupBy(rs, key))
  {
    if rs != [] {
      var n := |rs| - 1;
      var g := GroupBy(rs[..n], key);
      GroupByCovers(rs[..n], key);
      SetKeys(g, key(rs[n]), GetOr(g, key(rs[n]), []) + [rs[n]]);
      assert forall i :: 0 <= i < n ==> rs[..n][i] == rs[i];
    }
  }

  /** The group sizes add up to the number of results. */
  lemma {:induction false} GroupBySizes(rs: seq<T.TaskRecord>, key: T.TaskRecord -> string)
    ensures GroupSizes(GroupBy(rs, key)) == |rs|
  {
    if rs != [] {
      var n := |rs| - 1;
      var g := GroupBy(rs[..n], key);
      GroupBySizes(rs[..n], key);
      GroupSizesSet(g, key(rs[n]), GetOr(g, key(rs[n]), []) + [rs[n]]);
    }
  }

  /**
   * Grouping partitions the results: the keys are distinct, each group is non-empty and holds
   * only its key's results, every result's key is a group, and the group sizes add up.
   */
  lemma GroupBySpec(rs: seq<T.TaskRecord>, key: T.TaskRecord -> string)
    ensures UniqueKeys(GroupBy(rs, key))
    ensures GroupsKeyed(GroupBy(rs, key), key)
    ensures forall i :: 0 <= i < |rs| ==> key(rs[i]) in Keys(GroupBy(rs, key))
    ensures GroupSizes(GroupBy(rs, key)) == |rs|
  {
    GroupByUnique(rs, key);
    GroupByKeyed(rs, key);
    GroupByCovers(rs, key);
    GroupBySizes(rs, key);
  }

  /** `temp_collector.calculate_metrics()` for one group, after `min`/`max` of its time stamps. */
  function GroupMetrics(group: (string, seq<T.TaskRecord>), now: real, st: Statistics): Result<(string, BenchmarkMetrics)>
  {
    var rs := group.1;
    var ends := Collect(rs, (r: T.TaskRecord) => r.endTime.Some?,
                        (r: T.TaskRecord) => if r.endTime.Some? then r.endTime.value else 0.0);
    if rs == [] then Err("min() iterable argument is empty")
    else if ends == [] then Err("max() iterable argument is empty")
    else
      var starts := seq(|rs|, i requires 0 <= i < |rs| => rs[i].startTime);
      Ok((group.0, MetricsOf(rs, Some(MinOf(starts)), Some(MaxOf(ends)), 0, 0, now, st)))
  }

  function GroupStep(now: real, st: Statistics): ((string, seq<T.TaskRecord>)) -> Result<(string, BenchmarkMetrics)>
  {
    g => GroupMetrics(g, now, st)
  }

  /** `get_metrics_by_task` / `get_metrics_by_model` under the grouping key `key`. */
  function MetricsByKey(rs: seq<T.TaskRecord>, key: T.TaskRecord -> string, now: real, st: Statistics)
    : Result<Dict<string, BenchmarkMetrics>>
  {
    MapAll(GroupBy(rs, key), GroupStep(now, st))
  }

  /** The per-group task totals. */
  function TotalOf(ms: Dict<string, BenchmarkMetrics>): int
  {
    if ms == [] then 0 else ms[0].1.totalTasks + TotalOf(ms[1..])
  }

  lemma {:induction false} TotalsMatch(ms: Dict<string, BenchmarkMetrics>, gs: Groups)
    requires |ms| == |gs| && forall i :: 0 <= i < |ms| ==> ms[i].1.totalTasks == |gs[i].1|
    ensures TotalOf(ms) == GroupSizes(gs)
  {
    if ms != [] {
      TotalsMatch(ms[1..], gs[1..]);
    }
  }

  /**
   * The breakdown covers every result exactly once: the group keys are the keys of the results
   * and the per-group totals add up to the number of results.
   */
  lemma MetricsByKeyPartition(rs: seq<T.TaskRecord>, key: T.TaskRecord -> string, now: real, st: Statistics)
    requires MetricsByKey(rs, key, now, st).Ok?
    ensures var ms := MetricsByKey(rs, key, now, st).value;
      && Keys(ms) == Keys(GroupBy(rs, key))
      && TotalOf(ms) == |rs|
  {
    var gs := GroupBy(rs, key);
    var ms := MetricsByKey(rs, key, now, st).value;
    GroupBySpec(rs, key);
    MapAllSpec(gs, GroupStep(now, st));
    forall i | 0 <= i < |ms| ensures ms[i].1.totalTasks == |gs[i].1| && ms[i].0 == gs[i].0 {
      assert gs[i] in gs;
    }
    TotalsMatch(ms, gs);
  }

  /** A group none of whose results has an end time makes `max()` raise. */
  lemma MetricsByKeyNoEnd(rs: seq<T.TaskRecord>, key: T.TaskRecord -> string, now: real, st: Statistics, i: int)
    requires 0 <= i < |rs| && forall j :: 0 <= j < |rs| && key(rs[j]) == key(rs[i]) ==> rs[j].endTime.None?
    ensures MetricsByKey(rs, key, now, st).Err?
  {
    var gs := GroupBy(rs, key);
    GroupBySpec(rs, key);
    var k := key(rs[i]);
    var g :| 0 <= g < |gs| && gs[g].0 == k;
    assert gs[g] in gs;
    var ends := Collect(gs[g].1, (r: T.TaskRecord) => r.endTime.Some?,
                        (r: T.TaskRecord) => if r.endTime.Some? then r.endTime.value else 0.0);
    forall j | 0 <= j < |gs[g].1| ensures !gs[g].1[j].endTime.Some? {
      assert gs[g].1[j] in gs[g].1;
      assert gs[g].1[j] in rs by {
        GroupMembers(rs, key, gs[g].1[j]);
      }
    }
    CollectEmpty(gs[g].1, (r: T.TaskRecord) => r.endTime.Some?,
                 (r: T.TaskRecord) => if r.endTime.Some? then r.endTime.value else 0.0);
    MapAllSpec(gs, GroupStep(now, st));
  }

  /** Everything grouped came from the results. */
  lemma {:induction false} GroupMembers(rs: seq<T.TaskRecord>, key: T.TaskRecord -> string, r: T.TaskRecord)
    requires exists x :: x in GroupBy(rs, key) && r in x.1
    ensures r in rs
  {
    if rs != [] {
      var n := |rs| - 1;
      var g := GroupBy(rs[..n], key);
      var k := key(rs[n]);
      SetItems(g, k, GetOr(g, k, []) + [rs[n]]);
      var x :| x in GroupBy(rs, key) && r in x.1;
      if r != rs[n] {
        if x == (k, GetOr(g, k, []) + [rs[n]]) {
          assert r in GetOr(g, k, []);
          GetSpec(g, k);
          assert Get(g, k).Some?;
          assert (k, Get(g, k).value) in g;
        }
        GroupMembers(rs[..n], key, r);
      }
    }
  }

  // ---------------------------------------------------------------- the collector

  /** What `get_summary` returns. */
  datatype Summary = Summary(
    totalResults: int, collectionActive: bool, concurrentTasks: int, maxConcurrent: int,
    totalRetries: int, collectionDuration: real)

  /**
   * The metrics collector. Task results are held as snapshots; the asyncio lock only serialises
   * the updates and is not modelled.
   */
  class MetricsCollector {
    var taskResults: seq<T.TaskRecord>
    var startTime: Option<real>
    var endTime: Option<real>
    var concurrentTasks: int
    var maxConcurrent: int
    var retryCounts: Dict<string, int>

    /** The peak is never below the current count, and each task has one retry counter. */
    predicate Valid()
      reads this
    {
      concurrentTasks <= maxConcurrent && UniqueKeys(retryCounts)
    }

    constructor()
      ensures Valid()
      ensures taskResults == [] && startTime == None && endTime == None
      ensures concurrentTasks == 0 && maxConcurrent == 0 && retryCounts == []
    {
      taskResults := [];
      startTime := None;
      endTime := None;
      concurrentTasks := 0;
      maxConcurrent := 0;
      retryCounts := [];
    }

    /** `start_collection`: clears results and counters and stamps the start; the end stamp stays. */
    method StartCollection(now: real)
      modifies this
      ensures Valid()
      ensures startTime == Some(now) && endTime == old(endTime)
      ensures taskResults == [] && concurrentTasks == 0 && maxConcurrent == 0 && retryCounts == []
    {
      startTime := Some(now);
      taskResults := [];
      concurrentTasks := 0;
      maxConcurrent := 0;
      retryCounts := [];
    }

    /** `stop_collection`. */
    method StopCollection(now: real)
      modifies this
      ensures endTime == Some(now)
      ensures taskResults == old(taskResults) && startTime == old(startTime)
      ensures concurrentTasks == old(concurrentTasks) && maxConcurrent == old(maxConcurrent)
      ensures retryCounts == old(retryCounts)
    {
      endTime := Some(now);
    }

    /** Entering `track_concurrent_task`. */
    method EnterConcurrentTask()
      requires Valid()
      modifies this
      ensures Valid()
      ensures concurrentTasks == old(concurrentTasks) + 1
      ensures maxConcurrent == Max(old(maxConcurrent), concurrentTasks) && maxConcurrent >= old(maxConcurrent)
      ensures taskResults == old(taskResults) && retryCounts == old(retryCounts)
      ensures startTime == old(startTime) && endTime == old(endTime)
    {
      concurrentTasks := concurrentTasks + 1;
      maxConcurrent := Max(maxConcurrent, concurrentTasks);
    }

    /** Leaving `track_concurrent_task` (its `finally` clause). */
    method ExitConcurrentTask()
      requires Valid()
      modifies this
      ensures Valid()
      ensures concurrentTasks == old(concurrentTasks) - 1 && maxConcurrent == old(maxConcurrent)
      ensures taskResults == old(taskResults) && retryCounts == old(retryCounts)
      ensures startTime == old(startTime) && endTime == old(endTime)
    {
      concurrentTasks := concurrentTasks - 1;
    }

    /** One tracked task from entry to exit: the count is restored and the peak covers it. */
    method TrackConcurrentTask()
      requires Valid()
      modifies this
      ensures Valid()
      ensures concurrentTasks == old(concurrentTasks)
      ensures maxConcurrent == Max(old(maxConcurrent), old(concurrentTasks) + 1)
      ensures maxConcurrent > concurrentTasks
    {
      EnterConcurrentTask();
      ExitConcurrentTask();
    }

    /** `add_task_result`. */
    method AddTaskResult(result: T.TaskRecord)
      modifies this
      ensures taskResults == old(taskResults) + [result]
      ensures startTime == old(startTime) && endTime == old(endTime)
      ensures concurrentTasks == old(concurrentTasks) && maxConcurrent == old(maxConcurrent)
      ensures retryCounts == old(retryCounts)
    {
      taskResults := taskResults + [result];
    }

    /** `sum(self.retry_counts.values())`. */
    function RetryTotal(): int
      reads this
    {
      Sum(retryCounts)
    }

    /** `record_retry`: only the named task's counter goes up, and with it the total. */
    method RecordRetry(taskId: string)
      requires Valid()
      modifies this
      ensures Valid()
      ensures GetOr(retryCounts, taskId, 0) == GetOr(old(retryCounts), taskId, 0) + 1
      ensures forall q :: q != taskId ==> Get(retryCounts, q) == Get(old(retryCounts), q)
      ensures RetryTotal() == old(RetryTotal()) + 1
      ensures taskResults == old(taskResults) && startTime == old(startTime) && endTime == old(endTime)
      ensures concurrentTasks == old(concurrentTasks) && maxConcurrent == old(maxConcurrent)
    {
      IncrementSpec(retryCounts, taskId);
      SetUnique(retryCounts, taskId, GetOr(retryCounts, taskId, 0) + 1);
      retryCounts := Increment(retryCounts, taskId);
    }

    /** `reset`. */
    method Reset()
      modifies this
      ensures Valid()
      ensures taskResults == [] && startTime == None && endTime == None
      ensures concurrentTasks == 0 && maxConcurrent == 0 && retryCounts == [] && RetryTotal() == 0
    {
      taskResults := [];
      startTime := None;
      endTime := None;
      concurrentTasks := 0;
      maxConcurrent := 0;
      retryCounts := [];
    }

    /** The results `calculate_metrics` looks at: all of them, or those of one approach. */
    function Filtered(filter: Option<T.TaskApproach>): (rs: seq<T.TaskRecord>)
      reads this
      ensures filter.Some? ==> forall r :: r in rs <==> r in taskResults && r.approach == filter.value
      ensures filter.None? ==> rs == taskResults
    {
      match filter
      case None => taskResults
      case Some(a) =>
        FilterSpec(taskResults, OfApproach(a));
        Filter(taskResults, OfApproach(a))
    }

    /** `calculate_metrics(filter_approach)`. */
    function CalculateMetrics(filter: Option<T.TaskApproach>, now: real, st: Statistics): (m: BenchmarkMetrics)
      reads this
      ensures Filtered(filter) == [] ==> m == ZeroMetrics
      ensures Filtered(filter) != [] ==> m.totalTasks == |Filtered(filter)|
      ensures m.retryCount == (if Filtered(filter) == [] then 0 else RetryTotal())
    {
      MetricsOf(Filtered(filter), startTime, endTime, maxConcurrent, RetryTotal(), now, st)
    }

    /** `calculate_comparison_metrics`. */
    function CalculateComparisonMetrics(now: real, st: Statistics): (c: ComparisonMetrics)
      reads this
      ensures var bd := Collect(taskResults, TimedWith(T.Baseline), DurationOf);
              var td := Collect(taskResults, TimedWith(T.Tools), DurationOf);
        && c.sampleSize == Min(|bd|, |td|)
        && ((|bd| < 2 || |td| < 2) ==> c.statisticalSignificance == 0.0 && c.confidenceInterval == [])
      ensures c.baselineMetrics == CalculateMetrics(Some(T.Baseline), now, st)
      ensures c.toolsMetrics == CalculateMetrics(Some(T.Tools), now, st)
      ensures c.baselineMetrics.totalTokens == 0 ==> c.tokenReductionPercent == 0.0
      ensures c.baselineMetrics.totalDuration == 0.0 ==> c.timeReductionPercent == 0.0
      ensures c.baselineMetrics.efficiencyScore == 0.0 ==> c.efficiencyImprovementPercent == 0.0
    {
      var baseline := CalculateMetrics(Some(T.Baseline), now, st);
      var tools := CalculateMetrics(Some(T.Tools), now, st);
      var bd := Collect(taskResults, TimedWith(T.Baseline), DurationOf);
      var td := Collect(taskResults, TimedWith(T.Tools), DurationOf);
      ComparisonMetrics(
        ReductionPercent(baseline.totalTokens as real, tools.totalTokens as real),
        ReductionPercent(baseline.totalDuration, tools.totalDuration),
        ImprovementPercent(baseline.efficiencyScore, tools.efficiencyScore),
        baseline, tools,
        Significance(bd, td, st), ConfidenceInterval(bd, td, st),
        Min(|bd|, |td|))
    }

    /** `get_metrics_by_task`. */
    method GetMetricsByTask(now: real, st: Statistics) returns (r: Result<Dict<string, BenchmarkMetrics>>)
      ensures r == MetricsByKey(taskResults, (x: T.TaskRecord) => x.taskId, now, st)
    {
      r := MetricsBy(taskResults, (x: T.TaskRecord) => x.taskId, now, st);
    }

    /** `get_metrics_by_model`. */
    method GetMetricsByModel(now: real, st: Statistics) returns (r: Result<Dict<string, BenchmarkMetrics>>)
      ensures r == MetricsByKey(taskResults, (x: T.TaskRecord) => x.modelInstance, now, st)
    {
      r := MetricsBy(taskResults, (x: T.TaskRecord) => x.modelInstance, now, st);
    }

    /** `get_summary`. */
    function GetSummary(now: real): (s: Summary)
      reads this
      ensures s.totalResults == |taskResults| && s.totalRetries == RetryTotal()
      ensures s.collectionActive <==> startTime.Some? && endTime.None?
      ensures startTime.None? ==> s.collectionDuration == 0.0
    {
      Summary(|taskResults|, startTime.Some? && endTime.None?, concurrentTasks, maxConcurrent, RetryTotal(),
              if startTime.Some? && startTime.value != 0.0 then OrNow(endTime, now) - OrNow(startTime, now) else 0.0)
    }
  }

  /** The grouping loop of the two breakdowns. */
  method GroupAll(rs: seq<T.TaskRecord>, key: T.TaskRecord -> string) returns (groups: Groups)
    ensures groups == GroupBy(rs, key)
  {
    groups := [];
    for i := 0 to |rs|
      invariant groups == GroupBy(rs[..i], key)
    {
      assert rs[..i + 1][..i] == rs[..i];
      groups := AddToGroup(groups, key(rs[i]), rs[i]);
    }
    assert rs[..|rs|] == rs;
  }

  /** Every group's metrics are filed under the group's own key. */
  lemma GroupStepKey(now: real, st: Statistics)
    ensures forall g :: GroupStep(now, st)(g).Ok? ==> GroupStep(now, st)(g).value.0 == g.0
  {
  }

  /**
   * The per-group loop, `out[k] = f(k, v)` for each group in order: the first group for which
   * `f` raises ends it.
   */
  method MapGroups<V, U>(groups: Dict<string, V>, f: ((string, V)) -> Result<(string, U)>)
    returns (r: Result<Dict<string, U>>)
    requires UniqueKeys(groups)
    requires forall g :: f(g).Ok? ==> f(g).value.0 == g.0
    ensures r == MapAll(groups, f)
  {
    var ms: Dict<string, U> := [];
    for j := 0 to |groups|
      invariant MapAll(groups[..j], f) == Ok(ms)
      invariant Keys(ms) == Keys(groups)[..j]
    {
      assert groups[..j + 1][..j] == groups[..j];
      var g := f(groups[j]);
      if g.Err? {
        MapAllErr(groups, f, j + 1);
        return Err(g.msg);
      }
      assert groups[j].0 !in Keys(ms) by {
        assert Keys(groups)[j] == groups[j].0;
      }
      SetFresh(ms, g.value.0, g.value.1);
      ms := Set(ms, g.value.0, g.value.1);
      assert Keys(groups)[..j + 1] == Keys(groups)[..j] + [groups[j].0];
    }
    assert groups[..|groups|] == groups;
    r := Ok(ms);
  }

  /** `get_metrics_by_task` and `get_metrics_by_model` under the grouping key `key`. */
  method MetricsBy(rs: seq<T.TaskRecord>, key: T.TaskRecord -> string, now: real, st: Statistics)
    returns (r: Result<Dict<string, BenchmarkMetrics>>)
    ensures r == MetricsByKey(rs, key, now, st)
  {
    var groups := GroupAll(rs, key);
    GroupByUnique(rs, key);
    GroupStepKey(now, st);
    r := MapGroups(groups, GroupStep(now, st));
  }
}
