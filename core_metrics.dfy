/**
 * The workflow metrics collector of the core tools: single metric points, one record per
 * measured workflow with its token and file counters, the summary over the recorded workflows
 * (all of them or one workflow type), and the comparison of two workflow types. Clock and
 * process-memory readings are parameters.
 */
module CoreMetrics {
  import opened Common
  import J = JsonText

  datatype WorkflowType =
    | BaselineManual | PatternAnalysis | SafetyCheck | ContextAnalysis
    | SystematicFix | ProjectAnalysis | ChangePlanning | UnifiedWorkflow

  function WorkflowValue(t: WorkflowType): string
  {
    match t
    case BaselineManual => "baseline_manual"
    case PatternAnalysis => "pattern_analysis"
    case SafetyCheck => "safety_check"
    case ContextAnalysis => "context_analysis"
    case SystematicFix => "systematic_fix"
    case ProjectAnalysis => "project_analysis"
    case ChangePlanning => "change_planning"
    case UnifiedWorkflow => "unified_workflow"
  }

  datatype MetricType = TokenInput | TokenOutput | ExecutionTime | MemoryPeak | FilesProcessed | SuccessRate

  /** One metric measurement; the timestamp is the clock reading in seconds. */
  datatype MetricPoint = MetricPoint(timestamp: real, workflowType: WorkflowType, metricType: MetricType,
                                     value: real, metadata: seq<J.Entry>)

  /** The record of one measured workflow. */
  datatype WorkflowMetrics = WorkflowMetrics(
    workflowType: WorkflowType,
    startTime: real,
    endTime: real,
    executionTime: real,
    tokenInput: int,
    tokenOutput: int,
    memoryPeak: real,
    filesProcessed: int,
    success: bool,
    metadata: seq<J.Entry>)

  /** The `total_tokens` property. */
  function TotalTokens(w: WorkflowMetrics): int
  {
    w.tokenInput + w.tokenOutput
  }

  /** The `tokens_per_second` property: the token rate, or 0 for a workflow that took no time. */
  function TokensPerSecond(w: WorkflowMetrics): (r: real)
    ensures w.executionTime <= 0.0 ==> r == 0.0
    ensures w.executionTime > 0.0 ==> r * w.executionTime == TotalTokens(w) as real
    ensures w.executionTime > 0.0 && TotalTokens(w) >= 0 ==> r >= 0.0
  {
    if w.executionTime > 0.0 then TotalTokens(w) as real / w.executionTime else 0.0
  }

  /** `files_processed / execution_time` for a workflow that took time; the others add nothing. */
  function FileRate(w: WorkflowMetrics): (r: real)
    ensures w.executionTime <= 0.0 ==> r == 0.0
    ensures w.executionTime > 0.0 ==> r * w.executionTime == w.filesProcessed as real
  {
    if w.executionTime > 0.0 then w.filesProcessed as real / w.executionTime else 0.0
  }

  /** `metadata or {}`. */
  function OrEmpty(metadata: Option<seq<J.Entry>>): seq<J.Entry>
  {
    if metadata.Some? then metadata.value else []
  }

  // ---------------------------------------------------------------- WorkflowContext

  /** What the body of a measured workflow records through its context, one call at a time. */
  datatype ContextCall =
    | RecordTokens(inputTokens: int, outputTokens: int)
    | RecordFiles(count: int)
    | AddMetadata(key: string, value: J.Json)

  /** The running totals of a context. */
  datatype Counters = Counters(tokenInput: int, tokenOutput: int, filesProcessed: int, metadata: seq<J.Entry>)

  /** The totals after the calls, from a fresh context with the given metadata. */
  function Replay(calls: seq<ContextCall>, metadata: seq<J.Entry>): Counters
  {
    if calls == [] then Counters(0, 0, 0, metadata)
    else
      var c := Replay(calls[..|calls| - 1], metadata);
      match calls[|calls| - 1]
      case RecordTokens(i, o) => c.(tokenInput := c.tokenInput + i, tokenOutput := c.tokenOutput + o)
      case RecordFiles(n) => c.(filesProcessed := c.filesProcessed + n)
      case AddMetadata(k, v) => c.(metadata := J.Put(c.metadata, k, v))
  }

  function TokenInputs(calls: seq<ContextCall>): int
  {
    if calls == [] then 0
    else TokenInputs(calls[..|calls| - 1]) + (if calls[|calls| - 1].RecordTokens? then calls[|calls| - 1].inputTokens else 0)
  }

  function TokenOutputs(calls: seq<ContextCall>): int
  {
    if calls == [] then 0
    else TokenOutputs(calls[..|calls| - 1]) + (if calls[|calls| - 1].RecordTokens? then calls[|calls| - 1].outputTokens else 0)
  }

  function FileCounts(calls: seq<ContextCall>): int
  {
    if calls == [] then 0
    else FileCounts(calls[..|calls| - 1]) + (if calls[|calls| - 1].RecordFiles? then calls[|calls| - 1].count else 0)
  }

  /** The counters are the sums of what was recorded into them. */
  lemma {:induction false} ReplaySums(calls: seq<ContextCall>, metadata: seq<J.Entry>)
    ensures Replay(calls, metadata).tokenInput == TokenInputs(calls)
    ensures Replay(calls, metadata).tokenOutput == TokenOutputs(calls)
    ensures Replay(calls, metadata).filesProcessed == FileCounts(calls)
  {
    if calls != [] {
      ReplaySums(calls[..|calls| - 1], metadata);
    }
  }

  /** The context a measured workflow yields to its body. */
  class WorkflowContext {
    var workflowType: WorkflowType
    var metadata: seq<J.Entry>
    var tokenInput: int
    var tokenOutput: int
    var filesProcessed: int

    function State(): Counters
      reads this
    {
      Counters(tokenInput, tokenOutput, filesProcessed, metadata)
    }

    constructor(workflowType: WorkflowType, metadata: seq<J.Entry>)
      ensures this.workflowType == workflowType
      ensures State() == Counters(0, 0, 0, metadata)
    {
      this.workflowType := workflowType;
      this.metadata := metadata;
      tokenInput := 0;
      tokenOutput := 0;
      filesProcessed := 0;
    }

    /** `record_tokens`: both running totals grow by the amounts given. */
    method RecordTokens(inputTokens: int, outputTokens: int)
      modifies this
      ensures tokenInput == old(tokenInput) + inputTokens
      ensures tokenOutput == old(tokenOutput) + outputTokens
      ensures filesProcessed == old(filesProcessed) && metadata == old(metadata) && workflowType == old(workflowType)
    {
      tokenInput := tokenInput + inputTokens;
      tokenOutput := tokenOutput + outputTokens;
    }

    /** `record_files_processed`: the file total grows by the count given. */
    method RecordFilesProcessed(count: int)
      modifies this
      ensures filesProcessed == old(filesProcessed) + count
      ensures tokenInput == old(tokenInput) && tokenOutput == old(tokenOutput)
      ensures metadata == old(metadata) && workflowType == old(workflowType)
    {
      filesProcessed := filesProcessed + count;
    }

    /** `add_metadata`: the key now maps to the value and every other key keeps its value. */
    method AddMetadata(key: string, value: J.Json)
      modifies this
      ensures metadata == J.Put(old(metadata), key, value)
      ensures J.Lookup(metadata, key) == Some(value)
      ensures forall q :: q != key ==> J.Lookup(metadata, q) == J.Lookup(old(metadata), q)
      ensures tokenInput == old(tokenInput) && tokenOutput == old(tokenOutput)
      ensures filesProcessed == old(filesProcessed) && workflowType == old(workflowType)
    {
      forall q ensures J.Lookup(J.Put(metadata, key, value), q) == if q == key then Some(value) else J.Lookup(metadata, q) {
        J.LookupPut(metadata, key, value, q);
      }
      metadata := J.Put(metadata, key, value);
    }
  }

  // ---------------------------------------------------------------- summaries

  const ZeroDivision := "ZeroDivisionError: float division by zero"

  /** `get_metrics_summary`: `{"error": "No metrics collected"}` when nothing matches, else the figures. */
  datatype MetricsSummary =
    | NoMetrics
    | MetricsSummary(
        workflowType: string,
        totalWorkflows: nat,
        successfulWorkflows: nat,
        successRate: real,
        timeMin: real,
        timeMax: real,
        timeAvg: real,
        timeTotal: real,
        inputAvg: real,
        outputAvg: real,
        totalAvg: real,
        totalConsumed: int,
        tokensPerSecond: real,
        filesPerSecond: real)

  /** The workflows of one type, or all of them. */
  function Selected(ws: seq<WorkflowMetrics>, filter: Option<WorkflowType>): seq<WorkflowMetrics>
  {
    match filter
    case None => ws
    case Some(t) => Filter(ws, (w: WorkflowMetrics) => w.workflowType == t)
  }

  function Succeeded(w: WorkflowMetrics): bool
  {
    w.success
  }

  function ExecutionTimes(ws: seq<WorkflowMetrics>): (r: seq<real>)
    ensures |r| == |ws| && forall i :: 0 <= i < |ws| ==> r[i] == ws[i].executionTime
  {
    seq(|ws|, i requires 0 <= i < |ws| => ws[i].executionTime)
  }

  function SumInts(ws: seq<WorkflowMetrics>, f: WorkflowMetrics -> int): int
  {
    if ws == [] then 0 else SumInts(ws[..|ws| - 1], f) + f(ws[|ws| - 1])
  }

  function SumReals(ws: seq<WorkflowMetrics>, f: WorkflowMetrics -> real): real
  {
    if ws == [] then 0.0 else SumReals(ws[..|ws| - 1], f) + f(ws[|ws| - 1])
  }

  function InputOf(w: WorkflowMetrics): int { w.tokenInput }

  function OutputOf(w: WorkflowMetrics): int { w.tokenOutput }

  /** `(k / n) * 100` for `k` of `n` items: between 0 and 100, and times `n` gives back 100 k. */
  function Percentage(k: nat, n: nat): (r: real)
    requires 0 < n && k <= n
    ensures 0.0 <= r <= 100.0
    ensures r * n as real == 100.0 * k as real
  {
    ShareBounds(k, n);
    k as real / n as real * 100.0
  }

  const AllLabel := "all"

  /** The `workflow_type` entry of a summary: the type's value, or "all". */
  function Label(filter: Option<WorkflowType>): string
  {
    if filter.Some? then WorkflowValue(filter.value) else AllLabel
  }

  /** The figures over a non-empty list of workflows. */
  function Summarise(kind: string, sel: seq<WorkflowMetrics>): MetricsSummary
    requires sel != []
  {
    var n := |sel| as real;
    var successful := CountWhere(sel, Succeeded);
    var times := ExecutionTimes(sel);
    MetricsSummary(
      kind,
      |sel|,
      successful,
      Percentage(successful, |sel|),
      MinOf(times),
      MaxOf(times),
      SumReal(times) / n,
      SumReal(times),
      SumInts(sel, InputOf) as real / n,
      SumInts(sel, OutputOf) as real / n,
      SumInts(sel, TotalTokens) as real / n,
      SumInts(sel, TotalTokens),
      SumReals(sel, TokensPerSecond) / n,
      SumReals(sel, FileRate) / n)
  }

  function SummaryOf(ws: seq<WorkflowMetrics>, filter: Option<WorkflowType>): MetricsSummary
  {
    var sel := Selected(ws, filter);
    if sel == [] then NoMetrics else Summarise(Label(filter), sel)
  }

  /** With a type given, exactly the workflows of that type are summarised. */
  lemma SelectedSpec(ws: seq<WorkflowMetrics>, t: WorkflowType)
    ensures forall w :: w in Selected(ws, Some(t)) ==> w in ws && w.workflowType == t
    ensures forall i :: 0 <= i < |ws| && ws[i].workflowType == t ==> ws[i] in Selected(ws, Some(t))
  {
    FilterSpec(ws, (w: WorkflowMetrics) => w.workflowType == t);
    var sel := Selected(ws, Some(t));
    forall w | w in sel ensures w in ws && w.workflowType == t {
      var k :| 0 <= k < |sel| && sel[k] == w;
    }
  }

  /** The error dictionary comes back exactly when no workflow matches. */
  lemma SummaryEmpty(ws: seq<WorkflowMetrics>, filter: Option<WorkflowType>)
    ensures SummaryOf(ws, None).NoMetrics? <==> ws == []
    ensures filter.Some? ==>
      (SummaryOf(ws, filter).NoMetrics? <==> forall i :: 0 <= i < |ws| ==> ws[i].workflowType != filter.value)
  {
    if filter.Some? {
      SelectedSpec(ws, filter.value);
      var sel := Selected(ws, filter);
      if sel != [] {
        assert sel[0] in sel;
      }
    }
  }

  lemma {:induction false} SumIntsAdd(ws: seq<WorkflowMetrics>)
    ensures SumInts(ws, TotalTokens) == SumInts(ws, InputOf) + SumInts(ws, OutputOf)
  {
    if ws != [] {
      SumIntsAdd(ws[..|ws| - 1]);
    }
  }

  /**
   * A summary counts the workflows and the successful ones among them, and its success rate is
   * their percentage.
   */
  lemma SummaryCounts(kind: string, sel: seq<WorkflowMetrics>)
    requires sel != []
    ensures var s := Summarise(kind, sel);
      && s.totalWorkflows == |sel|
      && s.successfulWorkflows == CountWhere(sel, Succeeded)
      && s.successfulWorkflows <= s.totalWorkflows
      && s.successRate == Percentage(s.successfulWorkflows, s.totalWorkflows)
  {
  }

  /** The tokens consumed are the sum of the workflows' totals. */
  lemma SummaryTokens(kind: string, sel: seq<WorkflowMetrics>)
    requires sel != []
    ensures Summarise(kind, sel).totalConsumed == SumInts(sel, TotalTokens)
  {
  }

  /** The total time is the sum of the execution times, and the average lies between the fastest and the slowest. */
  lemma SummaryTimes(kind: string, sel: seq<WorkflowMetrics>)
    requires sel != []
    ensures var s := Summarise(kind, sel);
      && s.timeTotal == SumReal(ExecutionTimes(sel))
      && s.timeMin <= s.timeAvg <= s.timeMax
  {
    var times := ExecutionTimes(sel);
    var s := Summarise(kind, sel);
    assert s.timeMin == MinOf(times) && s.timeMax == MaxOf(times) && s.timeAvg == Mean(times);
    MeanBetween(times);
  }

  lemma DivideSum(a: real, b: real, n: real)
    requires n != 0.0
    ensures (a + b) / n == a / n + b / n
  {
  }

  /** The average total is the average input plus the average output. */
  lemma SummaryAverages(kind: string, sel: seq<WorkflowMetrics>)
    requires sel != []
    ensures var s := Summarise(kind, sel);
      s.totalAvg == s.inputAvg + s.outputAvg
  {
    SumIntsAdd(sel);
    DivideSum(SumInts(sel, InputOf) as real, SumInts(sel, OutputOf) as real, |sel| as real);
  }

  // ---------------------------------------------------------------- compare_workflows

  datatype Improvements = Improvements(executionTimePercent: real, tokenUsagePercent: real,
                                       efficiencyPercent: real, successRateChange: real)

  datatype Verdict = Verdict(faster: bool, moreTokenEfficient: bool, moreEfficientOverall: bool)

  /** `compare_workflows`: `{"error": "Insufficient data for comparison"}`, or the comparison. */
  datatype Comparison =
    | InsufficientData
    | Comparison(baseline: MetricsSummary, comparison: MetricsSummary, improvements: Improvements, verdict: Verdict)

  /** `change / base * 100`, which raises for a zero base. */
  function Gain(change: real, base: real): Result<real>
  {
    if base == 0.0 then Err(ZeroDivision) else Ok(change / base * 100.0)
  }

  /** The comparison of a baseline summary with another; the divisions raise on a zero baseline average. */
  function Compare(b: MetricsSummary, c: MetricsSummary): Result<Comparison>
  {
    if b.NoMetrics? || c.NoMetrics? then Ok(InsufficientData)
    else
      match Gain(b.timeAvg - c.timeAvg, b.timeAvg)
      case Err(e) => Err(e)
      case Ok(time) =>
        match Gain(b.totalAvg - c.totalAvg, b.totalAvg)
        case Err(e) => Err(e)
        case Ok(tokens) =>
          match Gain(c.tokensPerSecond - b.tokensPerSecond, b.tokensPerSecond)
          case Err(e) => Err(e)
          case Ok(efficiency) =>
            Ok(Comparison(b, c, Improvements(time, tokens, efficiency, c.successRate - b.successRate),
              Verdict(time > 0.0, tokens > 0.0, efficiency > 0.0)))
  }

  function CompareOf(ws: seq<WorkflowMetrics>, baselineType: WorkflowType, comparisonType: WorkflowType): Result<Comparison>
  {
    Compare(SummaryOf(ws, Some(baselineType)), SummaryOf(ws, Some(comparisonType)))
  }

  /** Over a positive base, the percentage is positive exactly when the change is. */
  lemma GainSign(change: real, base: real)
    requires base > 0.0
    ensures Gain(change, base).Ok?
    ensures Gain(change, base).value > 0.0 <==> change > 0.0
  {
    assert change / base * base == change;
  }

  /**
   * Either side without data gives the insufficient-data dictionary; otherwise a zero baseline
   * average raises, and each verdict flag is exactly its improvement being positive.
   */
  lemma CompareSpec(b: MetricsSummary, c: MetricsSummary)
    ensures var r := Compare(b, c);
      && (r == Ok(InsufficientData) <==> b.NoMetrics? || c.NoMetrics?)
      && (r.Err? <==>
            && b.MetricsSummary? && c.MetricsSummary?
            && (b.timeAvg == 0.0 || b.totalAvg == 0.0 || b.tokensPerSecond == 0.0))
      && (r.Ok? && r.value.Comparison? ==>
        && r.value.baseline == b && r.value.comparison == c
        && (r.value.verdict.faster <==> r.value.improvements.executionTimePercent > 0.0)
        && (r.value.verdict.moreTokenEfficient <==> r.value.improvements.tokenUsagePercent > 0.0)
        && (r.value.verdict.moreEfficientOverall <==> r.value.improvements.efficiencyPercent > 0.0)
        && r.value.improvements.successRateChange == c.successRate - b.successRate)
  {
  }

  /** Against positive baseline averages, "faster" means a smaller average time, and so on for the others. */
  lemma CompareVerdicts(b: MetricsSummary, c: MetricsSummary)
    requires b.MetricsSummary? && b.timeAvg > 0.0 && b.totalAvg > 0.0 && b.tokensPerSecond > 0.0
    requires c.MetricsSummary?
    ensures var r := Compare(b, c);
      && r.Ok? && r.value.Comparison?
      && (r.value.verdict.faster <==> c.timeAvg < b.timeAvg)
      && (r.value.verdict.moreTokenEfficient <==> c.totalAvg < b.totalAvg)
      && (r.value.verdict.moreEfficientOverall <==> c.tokensPerSecond > b.tokensPerSecond)
  {
    GainSign(b.timeAvg - c.timeAvg, b.timeAvg);
    GainSign(b.totalAvg - c.totalAvg, b.totalAvg);
    GainSign(c.tokensPerSecond - b.tokensPerSecond, b.tokensPerSecond);
  }

  // ---------------------------------------------------------------- MetricsCollector

  /** A measured workflow: what its body recorded, and the exception it raised, if any. */
  datatype WorkflowRun = WorkflowRun(calls: seq<ContextCall>, raised: Option<string>)

  /** The record `measure_workflow` appends once the body is done. */
  function Recorded(t: WorkflowType, c: Counters, startTime: real, endTime: real, memoryPeak: real, success: bool): WorkflowMetrics
  {
    WorkflowMetrics(t, startTime, endTime, endTime - startTime, c.tokenInput, c.tokenOutput, memoryPeak,
      c.filesProcessed, success, c.metadata)
  }

  /** The growth of the memory reading over the baseline, never negative; the reading is 0 without monitoring. */
  function PeakGrowth(monitored: bool, baselineMemory: real, endRss: real): real
  {
    MaxReal((if monitored then endRss else 0.0) - baselineMemory, 0.0)
  }

  class MetricsCollector {
    var metrics: seq<MetricPoint>
    var workflows: seq<WorkflowMetrics>
    /** Whether the process memory can be read (psutil is importable). */
    const monitored: bool
    /** The resident memory in MB when the collector was made, or 0 without monitoring. */
    const baselineMemory: real

    /** `__init__`, given the memory reading at that moment, absent without monitoring. */
    constructor(rss: Option<real>)
      ensures metrics == [] && workflows == []
      ensures monitored == rss.Some? && baselineMemory == if rss.Some? then rss.value else 0.0
    {
      metrics := [];
      workflows := [];
      monitored := rss.Some?;
      baselineMemory := if rss.Some? then rss.value else 0.0;
    }

    /** The peak `measure_workflow` records: the growth over the baseline, never negative. */
    function MemoryPeakAt(endRss: real): (r: real)
      reads this
      ensures r >= 0.0
      ensures !monitored ==> r == MaxReal(0.0 - baselineMemory, 0.0)
      ensures monitored ==> r == MaxReal(endRss - baselineMemory, 0.0)
    {
      PeakGrowth(monitored, baselineMemory, endRss)
    }

    /** `record_metric`: exactly one point is appended. */
    method RecordMetric(workflowType: WorkflowType, metricType: MetricType, value: real,
                        metadata: Option<seq<J.Entry>>, now: real)
      modifies this
      ensures metrics == old(metrics) + [MetricPoint(now, workflowType, metricType, value, OrEmpty(metadata))]
      ensures |metrics| == |old(metrics)| + 1
      ensures workflows == old(workflows)
    {
      metrics := metrics + [MetricPoint(now, workflowType, metricType, value, OrEmpty(metadata))];
    }

    /**
     * `measure_workflow` around a body that makes the given context calls: exactly one record
     * is appended, successful exactly when the body raised nothing, and the body's exception is
     * raised again. Clock and memory readings are parameters.
     */
    method MeasureWorkflow(workflowType: WorkflowType, metadata: Option<seq<J.Entry>>, run: WorkflowRun,
                           startTime: real, endTime: real, endRss: real) returns (raised: Option<string>)
      modifies this
      ensures workflows == old(workflows) + [Recorded(workflowType, Replay(run.calls, OrEmpty(metadata)),
        startTime, endTime, MemoryPeakAt(endRss), run.raised.None?)]
      ensures |workflows| == |old(workflows)| + 1
      ensures workflows[|workflows| - 1].success <==> run.raised.None?
      ensures workflows[|workflows| - 1].memoryPeak >= 0.0
      ensures raised == run.raised
      ensures metrics == old(metrics)
    {
      var context := new WorkflowContext(workflowType, OrEmpty(metadata));
      RunBody(context, run.calls);
      var success := run.raised.None?;
      var record := WorkflowMetrics(workflowType, startTime, endTime, endTime - startTime, context.tokenInput,
        context.tokenOutput, MemoryPeakAt(endRss), context.filesProcessed, success, context.metadata);
      workflows := workflows + [record];
      raised := run.raised;
    }

    /** `get_metrics_summary`. */
    function GetMetricsSummary(filter: Option<WorkflowType>): (r: MetricsSummary)
      reads this
      ensures r.NoMetrics? <==> Selected(workflows, filter) == []
    {
      SummaryOf(workflows, filter)
    }

    /** `compare_workflows`. */
    function CompareWorkflows(baselineType: WorkflowType, comparisonType: WorkflowType): (r: Result<Comparison>)
      reads this
      ensures r == Ok(InsufficientData) <==>
        GetMetricsSummary(Some(baselineType)).NoMetrics? || GetMetricsSummary(Some(comparisonType)).NoMetrics?
    {
      CompareOf(workflows, baselineType, comparisonType)
    }

    /** `clear_metrics`: both lists are emptied. */
    method ClearMetrics()
      modifies this
      ensures metrics == [] && workflows == []
    {
      metrics := [];
      workflows := [];
    }
  }

  /** The body of the `with` block: its calls on the context, in order. */
  method RunBody(context: WorkflowContext, calls: seq<ContextCall>)
    modifies context
    requires context.State() == Counters(0, 0, 0, context.metadata)
    ensures context.State() == Replay(calls, old(context.metadata))
    ensures context.workflowType == old(context.workflowType)
  {
    for i := 0 to |calls|
      invariant context.State() == Replay(calls[..i], old(context.metadata))
      invariant context.workflowType == old(context.workflowType)
    {
      assert calls[..i + 1][..i] == calls[..i];
      match calls[i]
      case RecordTokens(inputTokens, outputTokens) =>
        context.RecordTokens(inputTokens, outputTokens);
      case RecordFiles(count) =>
        context.RecordFilesProcessed(count);
      case AddMetadata(key, value) =>
        context.AddMetadata(key, value);
    }
    assert calls[..|calls|] == calls;
  }
}
