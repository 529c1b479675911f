/**
 * Benchmark tasks: the result record of one task execution and its state transitions, the
 * definition of a task, and the registry that maps task ids to tasks.
 */
module BenchmarkTasks {
  import opened Common
  import opened Dicts
  import J = JsonText
  import C = BenchmarkConfig

  datatype TaskStatus = Pending | Running | Completed | Failed | Timeout

  function StatusValue(s: TaskStatus): string
  {
    match s
    case Pending => "pending"
    case Running => "running"
    case Completed => "completed"
    case Failed => "failed"
    case Timeout => "timeout"
  }

  /** `TaskStatus(v)`: the member whose value is `v`. */
  function ParseStatus(v: string): (r: Option<TaskStatus>)
    ensures r.Some? ==> StatusValue(r.value) == v
  {
    if v == "pending" then Some(Pending)
    else if v == "running" then Some(Running)
    else if v == "completed" then Some(Completed)
    else if v == "failed" then Some(Failed)
    else if v == "timeout" then Some(Timeout)
    else None
  }

  lemma ParseStatusValue(s: TaskStatus)
    ensures ParseStatus(StatusValue(s)) == Some(s)
  {
  }

  datatype TaskApproach = Baseline | Tools

  function ApproachValue(a: TaskApproach): string
  {
    match a
    case Baseline => "baseline"
    case Tools => "tools"
  }

  function ParseApproach(v: string): (r: Option<TaskApproach>)
    ensures r.Some? ==> ApproachValue(r.value) == v
  {
    if v == "baseline" then Some(Baseline)
    else if v == "tools" then Some(Tools)
    else None
  }

  lemma ParseApproachValue(a: TaskApproach)
    ensures ParseApproach(ApproachValue(a)) == Some(a)
  {
  }

  /** The fields of a `TaskResult` at one moment. */
  datatype TaskRecord = TaskRecord(
    taskId: string,
    approach: TaskApproach,
    modelInstance: string,
    status: TaskStatus,
    startTime: real,
    endTime: Option<real>,
    duration: Option<real>,
    response: string,
    inputTokens: int,
    outputTokens: int,
    totalTokens: int,
    error: Option<string>,
    sampleNum: int,
    metadata: seq<J.Entry>)

  /** The result of one task execution; the clock reading is passed in as `now`. */
  class TaskResult {
    var taskId: string
    var approach: TaskApproach
    var modelInstance: string
    var status: TaskStatus
    var startTime: real
    var endTime: Option<real>
    var duration: Option<real>
    var response: string
    var inputTokens: int
    var outputTokens: int
    var totalTokens: int
    var error: Option<string>
    var sampleNum: int
    var metadata: seq<J.Entry>

    /** The dataclass constructor with its defaults for the optional fields. */
    constructor(taskId: string, approach: TaskApproach, modelInstance: string, status: TaskStatus,
                startTime: real, sampleNum: int)
      ensures Record() == TaskRecord(taskId, approach, modelInstance, status, startTime,
                                     None, None, "", 0, 0, 0, None, sampleNum, [])
    {
      this.taskId := taskId;
      this.approach := approach;
      this.modelInstance := modelInstance;
      this.status := status;
      this.startTime := startTime;
      this.endTime := None;
      this.duration := None;
      this.response := "";
      this.inputTokens := 0;
      this.outputTokens := 0;
      this.totalTokens := 0;
      this.error := None;
      this.sampleNum := sampleNum;
      this.metadata := [];
    }

    function Record(): TaskRecord
      reads this
    {
      TaskRecord(taskId, approach, modelInstance, status, startTime, endTime, duration, response,
                 inputTokens, outputTokens, totalTokens, error, sampleNum, metadata)
    }

    /** A finished result: it has an end time and its duration is the elapsed time. */
    predicate Timed()
      reads this
    {
      endTime.Some? && duration == Some(endTime.value - startTime)
    }

    /** `mark_completed`: COMPLETED at `now`, with the response and the token counts. */
    method MarkCompleted(now: real, response: string, tokensIn: int, tokensOut: int)
      modifies this
      ensures Timed() && endTime == Some(now)
      ensures status == Completed && totalTokens == tokensIn + tokensOut
      ensures this.response == response && inputTokens == tokensIn && outputTokens == tokensOut
      ensures taskId == old(taskId) && approach == old(approach) && modelInstance == old(modelInstance)
      ensures startTime == old(startTime) && error == old(error) && sampleNum == old(sampleNum)
      ensures metadata == old(metadata)
    {
      endTime := Some(now);
      duration := Some(now - startTime);
      status := Completed;
      this.response := response;
      inputTokens := tokensIn;
      outputTokens := tokensOut;
      totalTokens := tokensIn + tokensOut;
    }

    /** `mark_failed`: FAILED at `now` with the error; the token counts stay as they were. */
    method MarkFailed(now: real, error: string)
      modifies this
      ensures Timed() && endTime == Some(now)
      ensures status == Failed && this.error == Some(error)
      ensures inputTokens == old(inputTokens) && outputTokens == old(outputTokens)
      ensures totalTokens == old(totalTokens) && response == old(response)
      ensures taskId == old(taskId) && approach == old(approach) && modelInstance == old(modelInstance)
      ensures startTime == old(startTime) && sampleNum == old(sampleNum) && metadata == old(metadata)
    {
      endTime := Some(now);
      duration := Some(now - startTime);
      status := Failed;
      this.error := Some(error);
    }
  }

  // ---------------------------------------------------------------- to_dict

  function OptReal(x: Option<real>): J.Json
  {
    match x
    case None => J.Null
    case Some(v) => J.Float(v)
  }

  function OptStr(x: Option<string>): J.Json
  {
    match x
    case None => J.Null
    case Some(v) => J.Str(v)
  }

  /** `TaskResult.to_dict`: the fields under their names, enums as their values. */
  function ToDict(r: TaskRecord): J.Json
  {
    J.Dict([
      J.Entry("task_id", J.Str(r.taskId)),
      J.Entry("approach", J.Str(ApproachValue(r.approach))),
      J.Entry("model_instance", J.Str(r.modelInstance)),
      J.Entry("status", J.Str(StatusValue(r.status))),
      J.Entry("start_time", J.Float(r.startTime)),
      J.Entry("end_time", OptReal(r.endTime)),
      J.Entry("duration", OptReal(r.duration)),
      J.Entry("response", J.Str(r.response)),
      J.Entry("input_tokens", J.Int(r.inputTokens)),
      J.Entry("output_tokens", J.Int(r.outputTokens)),
      J.Entry("total_tokens", J.Int(r.totalTokens)),
      J.Entry("error", OptStr(r.error)),
      J.Entry("sample_num", J.Int(r.sampleNum)),
      J.Entry("metadata", J.Dict(r.metadata))])
  }

  function StrAt(es: seq<J.Entry>, i: nat, k: string): Option<string>
  {
    if i < |es| && es[i].key == k && es[i].value.Str? then Some(es[i].value.s) else None
  }

  function IntAt(es: seq<J.Entry>, i: nat, k: string): Option<int>
  {
    if i < |es| && es[i].key == k && es[i].value.Int? then Some(es[i].value.n) else None
  }

  function OptRealAt(es: seq<J.Entry>, i: nat, k: string): Option<Option<real>>
  {
    if i < |es| && es[i].key == k then
      match es[i].value
      case Null => Some(None)
      case Float(x) => Some(Some(x))
      case _ => None
    else None
  }

  function OptStrAt(es: seq<J.Entry>, i: nat, k: string): Option<Option<string>>
  {
    if i < |es| && es[i].key == k then
      match es[i].value
      case Null => Some(None)
      case Str(x) => Some(Some(x))
      case _ => None
    else None
  }

  /**
   * Reads back a dict in the layout `ToDict` writes: the fourteen keys in order, each with a
   * value of its field's type.
   */
  function FromDict(j: J.Json): Option<TaskRecord>
  {
    if !j.Dict? || |j.entries| != 14 then None
    else
      var es := j.entries;
      var tid := StrAt(es, 0, "task_id");
      var ap := StrAt(es, 1, "approach");
      var mi := StrAt(es, 2, "model_instance");
      var st := StrAt(es, 3, "status");
      var start := OptRealAt(es, 4, "start_time");
      var end := OptRealAt(es, 5, "end_time");
      var dur := OptRealAt(es, 6, "duration");
      var resp := StrAt(es, 7, "response");
      var tin := IntAt(es, 8, "input_tokens");
      var tout := IntAt(es, 9, "output_tokens");
      var tot := IntAt(es, 10, "total_tokens");
      var err := OptStrAt(es, 11, "error");
      var sn := IntAt(es, 12, "sample_num");
      if tid.None? || ap.None? || mi.None? || st.None? || start.None? || end.None? || dur.None?
         || resp.None? || tin.None? || tout.None? || tot.None? || err.None? || sn.None?
         || ParseApproach(ap.value).None? || ParseStatus(st.value).None? || start.value.None?
         || es[13].key != "metadata" || !es[13].value.Dict?
      then None
      else
        Some(TaskRecord(tid.value, ParseApproach(ap.value).value, mi.value, ParseStatus(st.value).value,
                        start.value.value, end.value, dur.value, resp.value, tin.value, tout.value,
                        tot.value, err.value, sn.value, es[13].value.entries))
  }

  /** `to_dict` loses nothing: the record can be read back from the dict it writes. */
  lemma ToDictRoundTrip(r: TaskRecord)
    ensures FromDict(ToDict(r)) == Some(r)
  {
    ParseApproachValue(r.approach);
    ParseStatusValue(r.status);
  }

  // ---------------------------------------------------------------- tasks

  /** A task definition; the optional custom executors are not part of this model. */
  datatype BenchmarkTask = BenchmarkTask(
    taskId: string,
    name: string,
    description: string,
    workflowType: C.WorkflowType,
    baselinePrompt: string,
    toolsPrompt: string,
    expectedOutputs: seq<J.Entry>,
    timeout: int,
    maxRetries: int,
    targetFiles: seq<string>)

  /** `BenchmarkTask.create_result`: a PENDING result for this task started at `now`. */
  method CreateResult(task: BenchmarkTask, approach: TaskApproach, modelInstance: string, now: real,
                      sampleNum: int) returns (r: TaskResult)
    ensures fresh(r)
    ensures r.Record() == TaskRecord(task.taskId, approach, modelInstance, Pending, now,
                                     None, None, "", 0, 0, 0, None, sampleNum, [])
  {
    r := new TaskResult(task.taskId, approach, modelInstance, Pending, now, sampleNum);
  }

  const TaskIdMessage := "Task ID cannot be empty"
  const NameMessage := "Task name cannot be empty"
  const BaselineMessage := "Baseline prompt cannot be empty"
  const ToolsMessage := "Tools prompt cannot be empty"
  const TimeoutMessage := "Timeout must be positive"
  const RetriesMessage := "Max retries cannot be negative"
  const MissingFilePrefix := "Target file not found: "

  function MissingFileMessage(path: string): string
  {
    MissingFilePrefix + path
  }

  /** `[message] if broken else []`. */
  function When(broken: bool, message: string): seq<string>
  {
    if broken then [message] else []
  }

  /** The messages for the field rules, in the order `validate_task` checks them. */
  function RuleIssues(t: BenchmarkTask): seq<string>
  {
    When(IsBlank(t.taskId), TaskIdMessage) + When(IsBlank(t.name), NameMessage)
    + When(IsBlank(t.baselinePrompt), BaselineMessage) + When(IsBlank(t.toolsPrompt), ToolsMessage)
    + When(t.timeout <= 0, TimeoutMessage) + When(t.maxRetries < 0, RetriesMessage)
  }

  function Missing(pathExists: string -> bool): string -> bool
  {
    path => !pathExists(path)
  }

  /** Everything `validate_task` reports, given which paths exist. */
  function TaskIssues(t: BenchmarkTask, pathExists: string -> bool): seq<string>
  {
    RuleIssues(t) + Collect(t.targetFiles, Missing(pathExists), MissingFileMessage)
  }

  /** A task that breaks none of the rules. */
  predicate TaskValid(t: BenchmarkTask, pathExists: string -> bool)
  {
    !IsBlank(t.taskId) && !IsBlank(t.name) && !IsBlank(t.baselinePrompt) && !IsBlank(t.toolsPrompt)
    && t.timeout > 0 && t.maxRetries >= 0
    && forall i :: 0 <= i < |t.targetFiles| ==> pathExists(t.targetFiles[i])
  }

  /** The number of field rules the task breaks. */
  function BrokenRules(t: BenchmarkTask): nat
  {
    (if IsBlank(t.taskId) then 1 else 0) + (if IsBlank(t.name) then 1 else 0)
    + (if IsBlank(t.baselinePrompt) then 1 else 0) + (if IsBlank(t.toolsPrompt) then 1 else 0)
    + (if t.timeout <= 0 then 1 else 0) + (if t.maxRetries < 0 then 1 else 0)
  }

  /** The six field checks of `validate_task`. */
  method CheckFields(task: BenchmarkTask) returns (issues: seq<string>)
    ensures issues == RuleIssues(task)
  {
    issues := [];
    if IsBlank(task.taskId) {
      issues := issues + [TaskIdMessage];
    }
    assert issues == When(IsBlank(task.taskId), TaskIdMessage);
    ghost var done := issues;
    if IsBlank(task.name) {
      issues := issues + [NameMessage];
    }
    assert issues == done + When(IsBlank(task.name), NameMessage);
    done := issues;
    if IsBlank(task.baselinePrompt) {
      issues := issues + [BaselineMessage];
    }
    assert issues == done + When(IsBlank(task.baselinePrompt), BaselineMessage);
    done := issues;
    if IsBlank(task.toolsPrompt) {
      issues := issues + [ToolsMessage];
    }
    assert issues == done + When(IsBlank(task.toolsPrompt), ToolsMessage);
    done := issues;
    if task.timeout <= 0 {
      issues := issues + [TimeoutMessage];
    }
    assert issues == done + When(task.timeout <= 0, TimeoutMessage);
    done := issues;
    if task.maxRetries < 0 {
      issues := issues + [RetriesMessage];
    }
    assert issues == done + When(task.maxRetries < 0, RetriesMessage);
  }

  /** The loop of `validate_task` over the target files. */
  method CheckFiles(files: seq<string>, pathExists: string -> bool) returns (found: seq<string>)
    ensures found == Collect(files, Missing(pathExists), MissingFileMessage)
  {
    found := [];
    for i := 0 to |files|
      invariant found == Collect(files[..i], Missing(pathExists), MissingFileMessage)
    {
      assert files[..i + 1][..i] == files[..i];
      if !pathExists(files[i]) {
        found := found + [MissingFileMessage(files[i])];
      }
    }
    assert files[..|files|] == files;
  }

  /** `validate_task`; `Path(file_path).exists()` is the oracle `pathExists`. */
  method ValidateTask(task: BenchmarkTask, pathExists: string -> bool) returns (issues: seq<string>)
    ensures issues == TaskIssues(task, pathExists)
  {
    issues := CheckFields(task);
    var missing := CheckFiles(task.targetFiles, pathExists);
    issues := issues + missing;
  }

  lemma {:induction false} CollectLength<T, U>(xs: seq<T>, p: T -> bool, f: T -> U)
    ensures |Collect(xs, p, f)| == CountWhere(xs, p)
  {
    if xs != [] {
      CollectLength(xs[..|xs| - 1], p, f);
    }
  }

  /** One message per broken rule and one per missing file; none at all for a valid task. */
  lemma TaskIssuesSpec(t: BenchmarkTask, pathExists: string -> bool)
    ensures |TaskIssues(t, pathExists)| == BrokenRules(t) + CountWhere(t.targetFiles, Missing(pathExists))
    ensures TaskIssues(t, pathExists) == [] <==> TaskValid(t, pathExists)
  {
    CollectLength(t.targetFiles, Missing(pathExists), MissingFileMessage);
    CollectEmpty(t.targetFiles, Missing(pathExists), MissingFileMessage);
  }

  // ---------------------------------------------------------------- registry

  /** Each registered task sits under its own id. */
  predicate Keyed(d: Dict<string, BenchmarkTask>)
  {
    UniqueKeys(d) && forall x :: x in d ==> x.0 == x.1.taskId
  }

  lemma RegisterKeyed(d: Dict<string, BenchmarkTask>, t: BenchmarkTask)
    requires Keyed(d)
    ensures Keyed(Set(d, t.taskId, t))
  {
    SetUnique(d, t.taskId, t);
    SetItems(d, t.taskId, t);
  }

  /** `for t in ts: d[t.task_id] = t`. */
  function RegisterAll(d: Dict<string, BenchmarkTask>, ts: seq<BenchmarkTask>): Dict<string, BenchmarkTask>
  {
    if ts == [] then d
    else
      var n := |ts| - 1;
      Set(RegisterAll(d, ts[..n]), ts[n].taskId, ts[n])
  }

  function TaskIds(ts: seq<BenchmarkTask>): (r: seq<string>)
    ensures |r| == |ts| && forall i :: 0 <= i < |ts| ==> r[i] == ts[i].taskId
  {
    seq(|ts|, i requires 0 <= i < |ts| => ts[i].taskId)
  }

  /** Registering tasks with distinct ids into an empty registry lists them in order. */
  lemma {:induction false} RegisterAllFresh(ts: seq<BenchmarkTask>)
    requires Distinct(TaskIds(ts))
    ensures Keyed(RegisterAll([], ts))
    ensures Keys(RegisterAll([], ts)) == TaskIds(ts)
  {
    if ts != [] {
      var n := |ts| - 1;
      assert TaskIds(ts[..n]) == TaskIds(ts)[..n];
      RegisterAllFresh(ts[..n]);
      var d := RegisterAll([], ts[..n]);
      RegisterKeyed(d, ts[n]);
      SetKeys(d, ts[n].taskId, ts[n]);
      assert ts[n].taskId !in Keys(d) by {
        assert TaskIds(ts)[n] == ts[n].taskId;
      }
    }
  }

  const DefaultTaskIds: seq<string> := ["safety_assessment", "pattern_detection", "context_analysis",
                                        "tensorflow_context", "repo_analysis", "systematic_fix"]

  const SafetyAssessmentName: string := "Safety Assessment"
  const SafetyAssessmentDescription: string := "Analyze code for security vulnerabilities"
  const SafetyAssessmentBaselinePrompt: string := "Analyze this code for security issues: def process(data): return eval(data)"
  const SafetyAssessmentToolsPrompt: string := "Based on this safety analysis: {\"risk_level\": \"HIGH\", \"issues\": [\"eval usage\"]}, provide assessment."

  function SafetyAssessment(): (t: BenchmarkTask)
    ensures t.taskId == "safety_assessment"
  {
    BenchmarkTask(
      "safety_assessment", SafetyAssessmentName, SafetyAssessmentDescription,
      C.SafetyCheck,
      SafetyAssessmentBaselinePrompt,
      SafetyAssessmentToolsPrompt,
      [J.Entry("risk_level", J.Str("HIGH")), J.Entry("issues", J.List([J.Str("eval")])),
       J.Entry("safe_to_modify", J.Bool(false))],
      30, 3, [])
  }

  const PatternDetectionName: string := "Pattern Detection"
  const PatternDetectionDescription: string := "Find similar code patterns for systematic fixes"
  const PatternDetectionBaselinePrompt: string := "Find patterns in: def get_user(id): return db.fetch(id); def get_order(id): return db.fetch(id)"
  const PatternDetectionToolsPrompt: string := "Based on pattern analysis: {\"pattern\": \"fetch_by_id\", \"matches\": 2}, provide summary."

  function PatternDetection(): (t: BenchmarkTask)
    ensures t.taskId == "pattern_detection"
  {
    BenchmarkTask(
      "pattern_detection", PatternDetectionName, PatternDetectionDescription,
      C.PatternAnalysis,
      PatternDetectionBaselinePrompt,
      PatternDetectionToolsPrompt,
      [J.Entry("pattern", J.Str("fetch_by_id")), J.Entry("matches", J.Int(2)),
       J.Entry("confidence", J.Float(0.8))],
      30, 3, [])
  }

  const ContextAnalysisName: string := "Context Analysis"
  const ContextAnalysisDescription: string := "Analyze project structure and complexity"
  const ContextAnalysisBaselinePrompt: string := "Analyze project with files: user.py, order.py, api.py, tests/. What's the architecture?"
  const ContextAnalysisToolsPrompt: string := "Based on context: {\"architecture\": \"microservices\", \"complexity\": 6}, provide summary."

  function ContextAnalysisTask(): (t: BenchmarkTask)
    ensures t.taskId == "context_analysis"
  {
    BenchmarkTask(
      "context_analysis", ContextAnalysisName, ContextAnalysisDescription,
      C.ContextAnalysis,
      ContextAnalysisBaselinePrompt,
      ContextAnalysisToolsPrompt,
      [J.Entry("architecture", J.Str("microservices")), J.Entry("complexity", J.Int(6)),
       J.Entry("file_count", J.Int(4))],
      30, 3, [])
  }

  const TensorflowContextName: string := "TensorFlow Math Ops Context"
  const TensorflowContextDescription: string := "Analyze TensorFlow math operations module"
  const TensorflowContextBaselinePrompt: string := "Given the file `tensorflow/python/ops/math_ops.py`, describe its role in TensorFlow, its main functionalities, and its key internal and external dependencies. Focus on how it integrates with the broader TensorFlow ecosystem."
  const TensorflowContextToolsPrompt: string := "Based on an analysis of `tensorflow/python/ops/math_ops.py`, provide a summary of its architectural role, core functionalities, and significant dependencies within TensorFlow."

  function TensorflowContext(): (t: BenchmarkTask)
    ensures t.taskId == "tensorflow_context"
  {
    BenchmarkTask(
      "tensorflow_context", TensorflowContextName, TensorflowContextDescription,
      C.ContextAnalysis,
      TensorflowContextBaselinePrompt,
      TensorflowContextToolsPrompt,
      [J.Entry("module_type", J.Str("math_operations")),
       J.Entry("dependencies", J.List([J.Str("tensorflow.python.framework")])),
       J.Entry("complexity", J.Int(8))],
      30, 3, [])
  }

  const RepoAnalysisName: string := "Repository Analysis"
  const RepoAnalysisDescription: string := "Comprehensive repository structure analysis"
  const RepoAnalysisBaselinePrompt: string := "Analyze this repository structure and provide insights about code organization, patterns, and potential improvements."
  const RepoAnalysisToolsPrompt: string := "Based on repository analysis results, provide a comprehensive summary of the codebase structure and recommendations."

  function RepoAnalysisTask(): (t: BenchmarkTask)
    ensures t.taskId == "repo_analysis"
  {
    BenchmarkTask(
      "repo_analysis", RepoAnalysisName, RepoAnalysisDescription,
      C.RepoAnalysis,
      RepoAnalysisBaselinePrompt,
      RepoAnalysisToolsPrompt,
      [J.Entry("structure_type", J.Str("modular")), J.Entry("organization_score", J.Int(7)),
       J.Entry("suggestions", J.List([J.Str("improve_documentation"), J.Str("refactor_duplicates")]))],
      30, 3, [])
  }

  const SystematicFixName: string := "Systematic Fix Planning"
  const SystematicFixDescription: string := "Plan systematic fixes across similar code patterns"
  const SystematicFixBaselinePrompt: string := "Plan systematic fixes for similar patterns found in: function getUserById(id), function getOrderById(id), function getProductById(id)"
  const SystematicFixToolsPrompt: string := "Based on systematic fix analysis, provide implementation plan for consistent pattern updates."

  function SystematicFixTask(): (t: BenchmarkTask)
    ensures t.taskId == "systematic_fix"
  {
    BenchmarkTask(
      "systematic_fix", SystematicFixName, SystematicFixDescription,
      C.SystematicFix,
      SystematicFixBaselinePrompt,
      SystematicFixToolsPrompt,
      [J.Entry("fix_type", J.Str("parameter_validation")), J.Entry("affected_functions", J.Int(3)),
       J.Entry("risk_level", J.Str("LOW"))],
      30, 3, [])
  }

  /** The six tasks `_load_default_tasks` registers. */
  function DefaultTasks(): (r: seq<BenchmarkTask>)
    ensures TaskIds(r) == DefaultTaskIds
  {
    [SafetyAssessment(), PatternDetection(), ContextAnalysisTask(), TensorflowContext(), RepoAnalysisTask(),
     SystematicFixTask()]
  }

  /** The default ids are distinct, so all six defaults end up registered. */
  lemma DefaultIdsDistinct()
    ensures Distinct(DefaultTaskIds)
  {
    var ids := DefaultTaskIds;
    assert ids[0][0] == 's' && ids[1][0] == 'p' && ids[2][0] == 'c';
    assert ids[3][0] == 't' && ids[4][0] == 'r' && ids[5][0] == 's';
    assert ids[0][1] != ids[5][1];
  }

  /** The counts `get_task_stats` keeps per workflow value. */
  function WorkflowCounts(ts: seq<BenchmarkTask>): Dict<string, int>
  {
    if ts == [] then []
    else
      var n := |ts| - 1;
      Increment(WorkflowCounts(ts[..n]), C.WorkflowValue(ts[n].workflowType))
  }

  function Workflows(ts: seq<BenchmarkTask>): (r: seq<string>)
    ensures |r| == |ts| && forall i :: 0 <= i < |ts| ==> r[i] == C.WorkflowValue(ts[i].workflowType)
  {
    seq(|ts|, i requires 0 <= i < |ts| => C.WorkflowValue(ts[i].workflowType))
  }

  /** Each workflow's count is the number of tasks of that workflow, and the counts sum to the total. */
  lemma {:induction false} WorkflowCountsSpec(ts: seq<BenchmarkTask>)
    ensures Sum(WorkflowCounts(ts)) == |ts|
    ensures forall w :: GetOr(WorkflowCounts(ts), w, 0) == Count(Workflows(ts), w)
  {
    if ts != [] {
      var n := |ts| - 1;
      var x := C.WorkflowValue(ts[n].workflowType);
      WorkflowCountsSpec(ts[..n]);
      IncrementSpec(WorkflowCounts(ts[..n]), x);
      assert Workflows(ts) == Workflows(ts[..n]) + [x];
      forall w ensures GetOr(WorkflowCounts(ts), w, 0) == Count(Workflows(ts), w) {
        CountAppend(Workflows(ts[..n]), x, w);
      }
    }
  }

  /** What `get_task_stats` returns. */
  datatype TaskStats = TaskStats(totalTasks: int, workflowDistribution: Dict<string, int>, taskIds: seq<string>)

  /** `expected_outputs or {}`, `target_files or []`. */
  function OrEmpty<T>(x: Option<seq<T>>): seq<T>
  {
    match x
    case None => []
    case Some(v) => v
  }

  /** The registry of benchmark tasks, keyed by task id in insertion order. */
  class TaskRegistry {
    var tasks: Dict<string, BenchmarkTask>

    predicate Valid()
      reads this
    {
      Keyed(tasks)
    }

    /** A registry holding the six default tasks. */
    constructor()
      ensures Valid()
      ensures ListTaskIds() == DefaultTaskIds
      ensures tasks == RegisterAll([], DefaultTasks())
    {
      tasks := [];
      new;
      RegisterEach(DefaultTasks());
      DefaultIdsDistinct();
      RegisterAllFresh(DefaultTasks());
    }

    /** The loop of `_load_default_tasks`. */
    method RegisterEach(ts: seq<BenchmarkTask>)
      requires Valid()
      modifies this
      ensures Valid() && tasks == RegisterAll(old(tasks), ts)
    {
      for i := 0 to |ts|
        invariant Valid() && tasks == RegisterAll(old(tasks), ts[..i])
      {
        assert ts[..i + 1][..i] == ts[..i];
        RegisterTask(ts[i]);
      }
      assert ts[..|ts|] == ts;
    }

    function ListTaskIds(): (r: seq<string>)
      reads this
      ensures Valid() ==> Distinct(r)
      ensures r == Keys(tasks)
    {
      Keys(tasks)
    }

    /** `get_task`: the task registered under the id, if any. */
    function GetTask(taskId: string): (r: Option<BenchmarkTask>)
      reads this
      ensures r.Some? <==> taskId in ListTaskIds()
      ensures Valid() && r.Some? ==> r.value.taskId == taskId && r.value in GetAllTasks()
    {
      GetSpec(tasks, taskId);
      Get(tasks, taskId)
    }

    /** `get_all_tasks`: the tasks in registration order. */
    function GetAllTasks(): (r: seq<BenchmarkTask>)
      reads this
      ensures |r| == |tasks| && forall i :: 0 <= i < |tasks| ==> r[i] == tasks[i].1
    {
      Values(tasks)
    }

    /** `get_tasks_by_workflow`. */
    function GetTasksByWorkflow(w: C.WorkflowType): (r: seq<BenchmarkTask>)
      reads this
      ensures forall t :: t in r <==> t in GetAllTasks() && t.workflowType == w
    {
      FilterSpec(GetAllTasks(), (t: BenchmarkTask) => t.workflowType == w);
      Filter(GetAllTasks(), (t: BenchmarkTask) => t.workflowType == w)
    }

    /** `register_task`: insert or overwrite by id; other ids keep their tasks. */
    method RegisterTask(task: BenchmarkTask)
      requires Valid()
      modifies this
      ensures Valid()
      ensures tasks == Set(old(tasks), task.taskId, task)
      ensures GetTask(task.taskId) == Some(task)
      ensures forall q :: q != task.taskId ==> GetTask(q) == old(GetTask(q))
    {
      RegisterKeyed(tasks, task);
      tasks := Set(tasks, task.taskId, task);
      forall q ensures GetTask(q) == if q == task.taskId then Some(task) else old(GetTask(q)) {
        GetSet(old(tasks), task.taskId, task, q);
      }
    }

    /** `remove_task`: true iff the id was registered; afterwards it is not, and the other ids keep their order. */
    method RemoveTask(taskId: string) returns (removed: bool)
      requires Valid()
      modifies this
      ensures Valid()
      ensures removed <==> taskId in old(ListTaskIds())
      ensures GetTask(taskId) == None
      ensures forall q :: q != taskId ==> GetTask(q) == old(GetTask(q))
      ensures |tasks| == if removed then |old(tasks)| - 1 else |old(tasks)|
      ensures ListTaskIds() == Without(old(ListTaskIds()), taskId)
    {
      RemoveSpec(tasks, taskId);
      RemoveItems(tasks, taskId);
      RemoveKeysOrder(tasks, taskId);
      if taskId in Keys(tasks) {
        tasks := Remove(tasks, taskId);
        removed := true;
      } else {
        removed := false;
        WithoutAbsent(Keys(tasks), taskId);
      }
    }

    /** `clear_tasks`. */
    method ClearTasks()
      modifies this
      ensures Valid() && tasks == []
    {
      tasks := [];
    }

    /** `create_custom_task`: build the task with the defaults filled in and register it. */
    method CreateCustomTask(taskId: string, name: string, description: string, workflowType: C.WorkflowType,
                            baselinePrompt: string, toolsPrompt: string,
                            expectedOutputs: Option<seq<J.Entry>>, timeout: int, maxRetries: int,
                            targetFiles: Option<seq<string>>) returns (task: BenchmarkTask)
      requires Valid()
      modifies this
      ensures Valid()
      ensures task == BenchmarkTask(taskId, name, description, workflowType, baselinePrompt, toolsPrompt,
                                    OrEmpty(expectedOutputs), timeout, maxRetries, OrEmpty(targetFiles))
      ensures GetTask(taskId) == Some(task)
      ensures forall q :: q != taskId ==> GetTask(q) == old(GetTask(q))
    {
      task := BenchmarkTask(taskId, name, description, workflowType, baselinePrompt, toolsPrompt,
                            OrEmpty(expectedOutputs), timeout, maxRetries, OrEmpty(targetFiles));
      RegisterTask(task);
    }

    /** `get_task_stats`: the size, the per-workflow counts and the ids. */
    method GetTaskStats() returns (stats: TaskStats)
      ensures stats == TaskStats(|tasks|, WorkflowCounts(GetAllTasks()), ListTaskIds())
      ensures stats.totalTasks == Sum(stats.workflowDistribution)
      ensures forall w :: GetOr(stats.workflowDistribution, w, 0) == Count(Workflows(GetAllTasks()), w)
    {
      var all := GetAllTasks();
      var counts: Dict<string, int> := [];
      for i := 0 to |all|
        invariant counts == WorkflowCounts(all[..i])
      {
        assert all[..i + 1][..i] == all[..i];
        counts := Increment(counts, C.WorkflowValue(all[i].workflowType));
      }
      assert all[..|all|] == all;
      WorkflowCountsSpec(all);
      stats := TaskStats(|tasks|, counts, ListTaskIds());
    }
  }

  /** Every listed task is found under its own id. */
  lemma AllTasksFound(reg: TaskRegistry, t: BenchmarkTask)
    requires reg.Valid() && t in reg.GetAllTasks()
    ensures reg.GetTask(t.taskId) == Some(t)
  {
    var i :| 0 <= i < |reg.tasks| && reg.GetAllTasks()[i] == t;
    assert reg.tasks[i] in reg.tasks;
    GetAt(reg.tasks, i);
  }
}
