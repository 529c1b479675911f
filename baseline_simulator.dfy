/**
 * The baseline simulator: six manual AI workflows with their typical file, token, round and
 * duration figures, one simulated run of such a workflow (measured by a metrics collector when
 * the simulator has one), the suite of runs over every scenario with its totals, and the
 * comparison of the suite with the current tools' metrics summary. The random draws and the
 * clock and memory readings are parameters.
 */
module BaselineSimulator {
  import opened Common
  import J = JsonText
  import CM = CoreMetrics

  // ---------------------------------------------------------------- scenarios

  datatype Scenario = Scenario(
    name: string,
    description: string,
    typicalFilesRead: int,
    typicalTokensPerFile: int,
    typicalAiRounds: int,
    typicalDurationSeconds: real,
    successRate: real)

  const PatternScenario := Scenario("Manual Pattern Analysis",
    "AI reads multiple files to find similar patterns manually", 15, 800, 3, 45.0, 0.75)
  const SafetyScenario := Scenario("Manual Safety Assessment",
    "AI reads file content and context to assess safety manually", 5, 1200, 2, 25.0, 0.80)
  const ContextScenario := Scenario("Manual Context Analysis",
    "AI explores project structure and dependencies manually", 25, 600, 4, 60.0, 0.70)
  const FixScenario := Scenario("Manual Systematic Fix",
    "AI manually searches for similar issues across codebase", 30, 1000, 5, 90.0, 0.65)
  const ProjectScenario := Scenario("Manual Project Analysis",
    "AI manually analyzes project health, structure, and issues", 40, 700, 6, 120.0, 0.75)
  const PlanningScenario := Scenario("Manual Change Planning",
    "AI manually assesses impact and safety of proposed changes", 20, 900, 4, 70.0, 0.70)

  /** The keys of `SCENARIOS`, in the order the dict lists them. */
  const ScenarioTypes: seq<CM.WorkflowType> := [CM.PatternAnalysis, CM.SafetyCheck, CM.ContextAnalysis,
    CM.SystematicFix, CM.ProjectAnalysis, CM.ChangePlanning]

  /** `SCENARIOS.get(t)`. */
  function ScenarioFor(t: CM.WorkflowType): Option<Scenario>
  {
    match t
    case PatternAnalysis => Some(PatternScenario)
    case SafetyCheck => Some(SafetyScenario)
    case ContextAnalysis => Some(ContextScenario)
    case SystematicFix => Some(FixScenario)
    case ProjectAnalysis => Some(ProjectScenario)
    case ChangePlanning => Some(PlanningScenario)
    case BaselineManual => None
    case UnifiedWorkflow => None
  }

  /** Exactly the listed types have a scenario: all but the manual baseline and the unified workflow. */
  lemma ScenarioKeys(t: CM.WorkflowType)
    ensures ScenarioFor(t).Some? <==> t in ScenarioTypes
    ensures ScenarioFor(t).None? <==> t == CM.BaselineManual || t == CM.UnifiedWorkflow
    ensures ScenarioFor(t).Some? ==>
      ScenarioFor(t).value.typicalAiRounds >= 1
      && ScenarioFor(t).value.typicalFilesRead > 0 && ScenarioFor(t).value.typicalDurationSeconds > 0.0
  {
  }

  /** `str(t)` of the enum member, as the error message shows it. */
  function EnumText(t: CM.WorkflowType): string
  {
    match t
    case BaselineManual => "WorkflowType.BASELINE_MANUAL"
    case PatternAnalysis => "WorkflowType.PATTERN_ANALYSIS"
    case SafetyCheck => "WorkflowType.SAFETY_CHECK"
    case ContextAnalysis => "WorkflowType.CONTEXT_ANALYSIS"
    case SystematicFix => "WorkflowType.SYSTEMATIC_FIX"
    case ProjectAnalysis => "WorkflowType.PROJECT_ANALYSIS"
    case ChangePlanning => "WorkflowType.CHANGE_PLANNING"
    case UnifiedWorkflow => "WorkflowType.UNIFIED_WORKFLOW"
  }

  const NoScenarioPrefix := "No baseline scenario for workflow type: "

  /** The text of the `ValueError` for a type without a scenario. */
  function NoScenarioText(t: CM.WorkflowType): string
  {
    NoScenarioPrefix + EnumText(t)
  }

  /** The text of the exception raised inside a measured run that failed. */
  const FailureText := "Simulated workflow failure"

  const TokensPerRound := 300

  // ---------------------------------------------------------------- one simulated workflow

  /** The result dict of `simulate_workflow`, flattened. */
  datatype Simulation = Simulation(
    workflowType: string,
    scenario: string,
    description: string,
    filesRead: int,
    tokensPerFile: int,
    inputTokens: int,
    outputTokens: int,
    totalTokens: int,
    aiRounds: int,
    durationSeconds: real,
    success: bool,
    tokensPerSecond: real,
    filesPerSecond: real)

  /** `k / d if d > 0 else 0`. */
  function Rate(k: int, d: real): (r: real)
    ensures d <= 0.0 ==> r == 0.0
    ensures d > 0.0 ==> r * d == k as real
    ensures d > 0.0 && k >= 0 ==> r >= 0.0
  {
    if d > 0.0 then k as real / d else 0.0
  }

  /** The variance factor: the uniform draw when variance is added, else 1. */
  function Factor(variance: Option<real>): real
  {
    if variance.Some? then variance.value else 1.0
  }

  /** The figures of one run of a scenario at variance factor `f`; `chance` is `random.random()`. */
  function Simulate(t: CM.WorkflowType, s: Scenario, f: real, chance: real): Simulation
  {
    var files := Scaled(s.typicalFilesRead, f);
    var perFile := Scaled(s.typicalTokensPerFile, f);
    var rounds := Max(1, Scaled(s.typicalAiRounds, f));
    var duration := s.typicalDurationSeconds * f;
    var input := files * perFile;
    var output := rounds * TokensPerRound;
    Simulation(CM.WorkflowValue(t), s.name, s.description, files, perFile, input, output, input + output,
      rounds, duration, chance < s.successRate, Rate(input + output, duration), Rate(files, duration))
  }

  /**
   * `simulate_workflow` as seen by its caller: the `ValueError` for a type without a scenario,
   * the exception a failed run raises out of the measuring block when a collector is present,
   * and the result dict otherwise. An error holds `str(e)` of the exception.
   */
  function SimulateWorkflowOf(t: CM.WorkflowType, variance: Option<real>, chance: real, measured: bool): Result<Simulation>
  {
    match ScenarioFor(t)
    case None => Err(NoScenarioText(t))
    case Some(s) =>
      var sim := Simulate(t, s, Factor(variance), chance);
      if measured && !sim.success then Err(FailureText) else Ok(sim)
  }

  /** The figures of a run at factor `f`: truncated typical figures, at least one round, and guarded rates. */
  lemma SimulateFigures(t: CM.WorkflowType, s: Scenario, f: real, chance: real)
    ensures var sim := Simulate(t, s, f, chance);
      && (sim.success <==> chance < s.successRate)
      && sim.workflowType == CM.WorkflowValue(t) && sim.scenario == s.name && sim.description == s.description
      && sim.aiRounds >= 1
      && sim.inputTokens == sim.filesRead * sim.tokensPerFile
      && sim.outputTokens == TokensPerRound * sim.aiRounds
      && sim.totalTokens == sim.inputTokens + sim.outputTokens
      && sim.durationSeconds == s.typicalDurationSeconds * f
      && (s.typicalFilesRead as real * f >= 0.0 ==>
            sim.filesRead as real <= s.typicalFilesRead as real * f < sim.filesRead as real + 1.0)
      && (s.typicalTokensPerFile as real * f >= 0.0 ==>
            sim.tokensPerFile as real <= s.typicalTokensPerFile as real * f < sim.tokensPerFile as real + 1.0)
      && (sim.durationSeconds <= 0.0 ==> sim.tokensPerSecond == 0.0 && sim.filesPerSecond == 0.0)
      && (sim.durationSeconds > 0.0 ==> sim.tokensPerSecond * sim.durationSeconds == sim.totalTokens as real)
  {
    SimulateCounts(t, s, f, chance);
    SimulateTruncation(t, s, f, chance);
    SimulateRates(t, s, f, chance);
  }

  lemma SimulateCounts(t: CM.WorkflowType, s: Scenario, f: real, chance: real)
    ensures var sim := Simulate(t, s, f, chance);
      && (sim.success <==> chance < s.successRate)
      && sim.workflowType == CM.WorkflowValue(t) && sim.scenario == s.name && sim.description == s.description
      && sim.aiRounds >= 1
      && sim.inputTokens == sim.filesRead * sim.tokensPerFile
      && sim.outputTokens == TokensPerRound * sim.aiRounds
      && sim.totalTokens == sim.inputTokens + sim.outputTokens
      && sim.durationSeconds == s.typicalDurationSeconds * f
  {
  }

  lemma SimulateTruncation(t: CM.WorkflowType, s: Scenario, f: real, chance: real)
    ensures var sim := Simulate(t, s, f, chance);
      && (s.typicalFilesRead as real * f >= 0.0 ==>
            sim.filesRead as real <= s.typicalFilesRead as real * f < sim.filesRead as real + 1.0)
      && (s.typicalTokensPerFile as real * f >= 0.0 ==>
            sim.tokensPerFile as real <= s.typicalTokensPerFile as real * f < sim.tokensPerFile as real + 1.0)
  {
    SimulateScaled(t, s, f, chance);
    ScaledBounds(s.typicalFilesRead, f);
    ScaledBounds(s.typicalTokensPerFile, f);
  }

  lemma SimulateScaled(t: CM.WorkflowType, s: Scenario, f: real, chance: real)
    ensures Simulate(t, s, f, chance).filesRead == Scaled(s.typicalFilesRead, f)
    ensures Simulate(t, s, f, chance).tokensPerFile == Scaled(s.typicalTokensPerFile, f)
  {
  }

  /** `int(n * f)`. */
  function Scaled(n: int, f: real): int
  {
    Truncate(n as real * f)
  }

  lemma ScaledBounds(n: int, f: real)
    ensures n as real * f >= 0.0 ==> Scaled(n, f) as real <= n as real * f < Scaled(n, f) as real + 1.0
  {
    var x := n as real * f;
    assert Scaled(n, f) == Truncate(x);
  }

  lemma SimulateRates(t: CM.WorkflowType, s: Scenario, f: real, chance: real)
    ensures var sim := Simulate(t, s, f, chance);
      && (sim.durationSeconds <= 0.0 ==> sim.tokensPerSecond == 0.0 && sim.filesPerSecond == 0.0)
      && (sim.durationSeconds > 0.0 ==> sim.tokensPerSecond * sim.durationSeconds == sim.totalTokens as real)
  {
    SimulateRated(t, s, f, chance);
  }

  lemma SimulateRated(t: CM.WorkflowType, s: Scenario, f: real, chance: real)
    ensures var sim := Simulate(t, s, f, chance);
      sim.tokensPerSecond == Rate(sim.totalTokens, sim.durationSeconds) && sim.filesPerSecond == Rate(sim.filesRead, sim.durationSeconds)
  {
  }

  /**
   * The outcome of `simulate_workflow`: the `ValueError` exactly for the types without a scenario,
   * the failure exception exactly for a measured run whose draw misses the success rate.
   */
  lemma SimulateWorkflowSpec(t: CM.WorkflowType, variance: Option<real>, chance: real, measured: bool)
    ensures SimulateWorkflowOf(t, variance, chance, measured) == Err(NoScenarioText(t)) <==>
      t == CM.BaselineManual || t == CM.UnifiedWorkflow
    ensures ScenarioFor(t).Some? ==>
      (SimulateWorkflowOf(t, variance, chance, measured) == Err(FailureText) <==>
         measured && !(chance < ScenarioFor(t).value.successRate))
    ensures SimulateWorkflowOf(t, variance, chance, measured).Ok? ==>
      SimulateWorkflowOf(t, variance, chance, measured).value
        == Simulate(t, ScenarioFor(t).value, Factor(variance), chance)
  {
    ScenarioKeys(t);
    assert NoScenarioPrefix <= NoScenarioText(t);
    assert !(NoScenarioPrefix <= FailureText);
  }

  /** Without variance the run has exactly the scenario's typical figures. */
  lemma NoVariance(t: CM.WorkflowType, chance: real)
    requires ScenarioFor(t).Some?
    ensures var s := ScenarioFor(t).value;
      var sim := Simulate(t, s, Factor(None), chance);
      && sim.filesRead == s.typicalFilesRead
      && sim.tokensPerFile == s.typicalTokensPerFile
      && sim.aiRounds == s.typicalAiRounds
      && sim.durationSeconds == s.typicalDurationSeconds
      && sim.totalTokens == s.typicalFilesRead * s.typicalTokensPerFile + TokensPerRound * s.typicalAiRounds
  {
    ScenarioKeys(t);
  }

  /** The calls the measured block makes on its context. */
  function BodyCalls(sim: Simulation): seq<CM.ContextCall>
  {
    [CM.RecordTokens(sim.inputTokens, sim.outputTokens),
     CM.RecordFiles(sim.filesRead),
     CM.AddMetadata("ai_rounds", J.Int(sim.aiRounds)),
     CM.AddMetadata("simulated", J.Bool(true))]
  }

  /** The metadata the measured block starts from. */
  function RunMetadata(t: CM.WorkflowType, s: Scenario, projectPath: string): seq<J.Entry>
  {
    [J.Entry("simulated_workflow", J.Str(CM.WorkflowValue(t))),
     J.Entry("scenario_name", J.Str(s.name)),
     J.Entry("project_path", J.Str(projectPath))]
  }

  /** The clock readings at the start and end of a measured block, and the memory reading at its end. */
  datatype Clock = Clock(start: real, end: real, rss: real)

  /** The record the collector keeps of a measured simulated run, given its memory peak. */
  function MeasuredRecord(t: CM.WorkflowType, s: Scenario, projectPath: string, sim: Simulation, clock: Clock,
                          peak: real): CM.WorkflowMetrics
  {
    CM.Recorded(CM.BaselineManual, CM.Replay(BodyCalls(sim), RunMetadata(t, s, projectPath)),
      clock.start, clock.end, peak, sim.success)
  }

  /** The collector's record agrees with the figures the run returns. */
  lemma MeasuredRecordSpec(t: CM.WorkflowType, s: Scenario, projectPath: string, sim: Simulation, clock: Clock,
                           peak: real)
    ensures var w := MeasuredRecord(t, s, projectPath, sim, clock, peak);
      && w.workflowType == CM.BaselineManual
      && w.tokenInput == sim.inputTokens && w.tokenOutput == sim.outputTokens
      && CM.TotalTokens(w) == sim.inputTokens + sim.outputTokens
      && w.filesProcessed == sim.filesRead
      && w.executionTime == clock.end - clock.start
      && w.memoryPeak == peak
      && (w.success <==> sim.success)
      && w.metadata == J.Put(J.Put(RunMetadata(t, s, projectPath), "ai_rounds", J.Int(sim.aiRounds)),
           "simulated", J.Bool(true))
      && J.Lookup(w.metadata, "ai_rounds") == Some(J.Int(sim.aiRounds))
      && J.Lookup(w.metadata, "simulated") == Some(J.Bool(true))
  {
    var calls := BodyCalls(sim);
    var m0 := RunMetadata(t, s, projectPath);
    var c1 := [calls[0]];
    var c2 := c1 + [calls[1]];
    var c3 := c2 + [calls[2]];
    assert calls == c3 + [calls[3]];
    assert c3[..2] == c2 && c2[..1] == c1 && c1[..0] == [];
    var m1 := J.Put(m0, "ai_rounds", J.Int(sim.aiRounds));
    var m2 := J.Put(m1, "simulated", J.Bool(true));
    assert CM.Replay(c1, m0) == CM.Counters(sim.inputTokens, sim.outputTokens, 0, m0);
    assert CM.Replay(c2, m0) == CM.Counters(sim.inputTokens, sim.outputTokens, sim.filesRead, m0);
    assert CM.Replay(c3, m0) == CM.Counters(sim.inputTokens, sim.outputTokens, sim.filesRead, m1);
    assert CM.Replay(calls, m0) == CM.Counters(sim.inputTokens, sim.outputTokens, sim.filesRead, m2);
    J.LookupPut(m1, "simulated", J.Bool(true), "ai_rounds");
    J.LookupPut(m1, "simulated", J.Bool(true), "simulated");
    J.LookupPut(m0, "ai_rounds", J.Int(sim.aiRounds), "ai_rounds");
  }

  // ---------------------------------------------------------------- the suite

  /** The draws of one run in the suite: the variance factor, `random.random()`, and the readings. */
  datatype Draw = Draw(variance: real, chance: real, clock: Clock)

  /** One entry of a workflow's result list: the result dict, or the error entry of a run that raised. */
  datatype Outcome = Simulated(sim: Simulation) | Failed(workflowType: string, error: string)

  /** One iteration of the suite's inner loop (variance is always added there). */
  function Attempt(t: CM.WorkflowType, d: Draw, measured: bool): Outcome
  {
    OutcomeOf(t, SimulateWorkflowOf(t, Some(d.variance), d.chance, measured))
  }

  /** The entry appended for a run: its result, or an error entry with the exception's text. */
  function OutcomeOf(t: CM.WorkflowType, r: Result<Simulation>): Outcome
  {
    match r
    case Ok(sim) => Simulated(sim)
    case Err(e) => Failed(CM.WorkflowValue(t), e)
  }

  /** A failed run is an error entry when measured, and a result with `success` false otherwise. */
  lemma AttemptShape(t: CM.WorkflowType, d: Draw, measured: bool)
    requires ScenarioFor(t).Some?
    ensures var o := Attempt(t, d, measured);
      && (!measured ==> o.Simulated? && (o.sim.success <==> d.chance < ScenarioFor(t).value.successRate))
      && (measured ==> (o.Simulated? <==> d.chance < ScenarioFor(t).value.successRate))
      && (o.Simulated? && measured ==> o.sim.success)
      && (o.Failed? ==> o == Failed(CM.WorkflowValue(t), FailureText))
  {
    ScenarioKeys(t);
  }

  /** The first `n` runs of type `t`, the `j`-th type of the suite: run `i` uses `draws(j, i)`. */
  function Attempts(t: CM.WorkflowType, j: nat, n: nat, draws: (nat, nat) -> Draw, measured: bool): (r: seq<Outcome>)
    ensures |r| == n
  {
    if n == 0 then [] else Attempts(t, j, n - 1, draws, measured) + [Attempt(t, draws(j, n - 1), measured)]
  }

  /** One more run of the inner loop: its entry extends the entries and the totals. */
  lemma AttemptsExtend(t: CM.WorkflowType, j: nat, i: nat, draws: (nat, nat) -> Draw, measured: bool, totals: Totals,
                       outcomes: seq<Outcome>, after: Totals, o: Outcome)
    requires outcomes == Attempts(t, j, i, draws, measured) && after == Accumulate(totals, outcomes)
    requires o == Attempt(t, draws(j, i), measured)
    ensures outcomes + [o] == Attempts(t, j, i + 1, draws, measured)
    ensures Add(after, o) == Accumulate(totals, outcomes + [o])
  {
    assert (outcomes + [o])[..i] == outcomes;
  }

  lemma {:induction false} AttemptsSpec(t: CM.WorkflowType, j: nat, n: nat, draws: (nat, nat) -> Draw, measured: bool)
    ensures forall i :: 0 <= i < n ==> Attempts(t, j, n, draws, measured)[i] == Attempt(t, draws(j, i), measured)
  {
    if n > 0 {
      AttemptsSpec(t, j, n - 1, draws, measured);
    }
  }

  /** `results["workflows"]` over the given scenario types, each run `n` times. */
  function Workflows(types: seq<CM.WorkflowType>, n: nat, draws: (nat, nat) -> Draw, measured: bool): (r: seq<(string, seq<Outcome>)>)
    ensures |r| == |types|
  {
    Indexed(types, EntryOf(n, draws, measured))
  }

  function EntryOf(n: nat, draws: (nat, nat) -> Draw, measured: bool): (CM.WorkflowType, nat) -> (string, seq<Outcome>)
  {
    (t: CM.WorkflowType, j: nat) => WorkflowEntry(t, j, n, draws, measured)
  }

  /** The `results["workflows"]` item of type `t`, the `j`-th type of the suite. */
  function WorkflowEntry(t: CM.WorkflowType, j: nat, n: nat, draws: (nat, nat) -> Draw, measured: bool): (string, seq<Outcome>)
  {
    (CM.WorkflowValue(t), Attempts(t, j, n, draws, measured))
  }

  lemma WorkflowsSpec(types: seq<CM.WorkflowType>, n: nat, draws: (nat, nat) -> Draw, measured: bool)
    ensures forall i :: 0 <= i < |types| ==>
      Workflows(types, n, draws, measured)[i] == (CM.WorkflowValue(types[i]), Attempts(types[i], i, n, draws, measured))
  {
  }

  /** All entries, workflow after workflow. */
  function Flatten(ws: seq<(string, seq<Outcome>)>): seq<Outcome>
  {
    if ws == [] then [] else Flatten(ws[..|ws| - 1]) + ws[|ws| - 1].1
  }

  lemma FlattenStep(ws: seq<(string, seq<Outcome>)>, w: (string, seq<Outcome>))
    ensures Flatten(ws + [w]) == Flatten(ws) + w.1
  {
    assert (ws + [w])[..|ws|] == ws;
  }

  lemma MultiplyStep(k: nat, n: nat)
    ensures k * n + n == (k + 1) * n
  {
  }

  /** Workflows of `n` entries each hold `n` entries per workflow in all. */
  lemma {:induction false} FlattenUniform(ws: seq<(string, seq<Outcome>)>, n: nat)
    requires forall i :: 0 <= i < |ws| ==> |ws[i].1| == n
    ensures |Flatten(ws)| == |ws| * n
  {
    if ws != [] {
      FlattenUniform(ws[..|ws| - 1], n);
      MultiplyStep(|ws| - 1, n);
    }
  }

  lemma WorkflowsStep(types: seq<CM.WorkflowType>, j: nat, n: nat, draws: (nat, nat) -> Draw, measured: bool)
    requires j < |types|
    ensures Workflows(types[..j + 1], n, draws, measured)
      == Workflows(types[..j], n, draws, measured) + [WorkflowEntry(types[j], j, n, draws, measured)]
  {
    IndexedStep(types, j, EntryOf(n, draws, measured));
  }

  /** One more type of the outer loop: its entry extends the entries and the totals. */
  lemma WorkflowsExtend(types: seq<CM.WorkflowType>, j: nat, n: nat, draws: (nat, nat) -> Draw, measured: bool,
                        ws: seq<(string, seq<Outcome>)>, totals: Totals, outcomes: seq<Outcome>, after: Totals)
    requires j < |types|
    requires ws == Workflows(types[..j], n, draws, measured) && totals == Accumulate(NoTotals, Flatten(ws))
    requires outcomes == Attempts(types[j], j, n, draws, measured) && after == Accumulate(totals, outcomes)
    ensures ws + [(CM.WorkflowValue(types[j]), outcomes)] == Workflows(types[..j + 1], n, draws, measured)
    ensures after == Accumulate(NoTotals, Flatten(ws + [(CM.WorkflowValue(types[j]), outcomes)]))
  {
    var w := (CM.WorkflowValue(types[j]), outcomes);
    AccumulateConcat(NoTotals, Flatten(ws), outcomes);
    WorkflowsStep(types, j, n, draws, measured);
    FlattenStep(ws, w);
  }

  /** The running totals of the suite. */
  datatype Totals = Totals(tokens: int, duration: real, total: nat, successful: nat)

  const NoTotals := Totals(0, 0.0, 0, 0)

  /** One entry added to the totals: a result adds its figures, an error entry only counts. */
  function Add(acc: Totals, o: Outcome): Totals
  {
    match o
    case Simulated(sim) =>
      Totals(acc.tokens + sim.totalTokens, acc.duration + sim.durationSeconds, acc.total + 1,
        acc.successful + if sim.success then 1 else 0)
    case Failed(_, _) => acc.(total := acc.total + 1)
  }

  function Accumulate(acc: Totals, os: seq<Outcome>): (r: Totals)
    ensures r.total == acc.total + |os|
    ensures acc.successful <= acc.total ==> r.successful <= r.total
  {
    if os == [] then acc else Add(Accumulate(acc, os[..|os| - 1]), os[|os| - 1])
  }

  function OutcomeSucceeded(o: Outcome): bool
  {
    o.Simulated? && o.sim.success
  }

  /** The totals count every entry, and the successful ones among them. */
  lemma {:induction false} AccumulateCounts(acc: Totals, os: seq<Outcome>)
    ensures Accumulate(acc, os).successful == acc.successful + CountWhere(os, OutcomeSucceeded)
  {
    if os != [] {
      AccumulateCounts(acc, os[..|os| - 1]);
    }
  }

  lemma {:induction false} AccumulateConcat(acc: Totals, a: seq<Outcome>, b: seq<Outcome>)
    ensures Accumulate(acc, a + b) == Accumulate(Accumulate(acc, a), b)
  {
    if b != [] {
      assert (a + b)[..|a + b| - 1] == a + b[..|b| - 1];
      assert (a + b)[|a + b| - 1] == b[|b| - 1];
      AccumulateConcat(acc, a, b[..|b| - 1]);
    } else {
      assert a + b == a;
    }
  }

  /** `results["summary"]`. */
  datatype SuiteSummary = SuiteSummary(
    totalWorkflows: nat,
    successfulWorkflows: nat,
    successRate: real,
    totalTokens: int,
    totalDuration: real,
    averageTokensPerWorkflow: real,
    averageDurationPerWorkflow: real,
    overallEfficiency: real)

  function Summary(t: Totals): SuiteSummary
    requires t.successful <= t.total
  {
    SuiteSummary(
      t.total,
      t.successful,
      if t.total > 0 then CM.Percentage(t.successful, t.total) else 0.0,
      t.tokens,
      t.duration,
      if t.total > 0 then t.tokens as real / t.total as real else 0.0,
      if t.total > 0 then t.duration / t.total as real else 0.0,
      if t.duration > 0.0 then t.tokens as real / t.duration else 0.0)
  }

  /** The dict `run_baseline_suite` returns. */
  datatype SuiteResult = SuiteResult(projectPath: string, iterations: int,
    workflows: seq<(string, seq<Outcome>)>, summary: SuiteSummary)

  /** `range(iterations)` has `iterations` elements, and none when it is negative. */
  function RunCount(iterations: int): nat
  {
    if iterations > 0 then iterations else 0
  }

  function SuiteOf(projectPath: string, iterations: int, draws: (nat, nat) -> Draw, measured: bool): SuiteResult
  {
    var ws := Workflows(ScenarioTypes, RunCount(iterations), draws, measured);
    SuiteResult(projectPath, iterations, ws, Summary(Accumulate(NoTotals, Flatten(ws))))
  }

  /** What the suite reports: every type `iterations` times, and its totals and guarded averages. */
  lemma SuiteSpec(projectPath: string, iterations: int, draws: (nat, nat) -> Draw, measured: bool)
    ensures var r := SuiteOf(projectPath, iterations, draws, measured);
      var n := RunCount(iterations);
      && |r.workflows| == |ScenarioTypes|
      && (forall j :: 0 <= j < |ScenarioTypes| ==>
            r.workflows[j].0 == CM.WorkflowValue(ScenarioTypes[j]) && |r.workflows[j].1| == n)
      && r.summary.totalWorkflows == |ScenarioTypes| * n
      && r.summary.successfulWorkflows == CountWhere(Flatten(r.workflows), OutcomeSucceeded)
      && r.summary.successfulWorkflows <= r.summary.totalWorkflows
      && 0.0 <= r.summary.successRate <= 100.0
      && (iterations <= 0 ==>
            r.summary.successRate == 0.0 && r.summary.averageTokensPerWorkflow == 0.0
            && r.summary.averageDurationPerWorkflow == 0.0)
      && (r.summary.totalDuration <= 0.0 ==> r.summary.overallEfficiency == 0.0)
  {
    var n := RunCount(iterations);
    WorkflowsSpec(ScenarioTypes, n, draws, measured);
    FlattenUniform(Workflows(ScenarioTypes, n, draws, measured), n);
    AccumulateCounts(NoTotals, Flatten(Workflows(ScenarioTypes, n, draws, measured)));
  }

  /** The record a measured run of the suite leaves with a collector of the given memory baseline. */
  function RunRecord(t: CM.WorkflowType, s: Scenario, projectPath: string, d: Draw, monitored: bool,
                     baselineMemory: real): CM.WorkflowMetrics
  {
    MeasuredRecord(t, s, projectPath, Simulate(t, s, Factor(Some(d.variance)), d.chance), d.clock,
      CM.PeakGrowth(monitored, baselineMemory, d.clock.rss))
  }

  /** The records the first `n` runs of type `t` (scenario `s`), the `j`-th type of the suite, leave. */
  function Records(t: CM.WorkflowType, s: Scenario, projectPath: string, j: nat, n: nat, draws: (nat, nat) -> Draw,
                   monitored: bool, baselineMemory: real): (r: seq<CM.WorkflowMetrics>)
    ensures |r| == n
  {
    if n == 0 then []
    else
      Records(t, s, projectPath, j, n - 1, draws, monitored, baselineMemory)
        + [RunRecord(t, s, projectPath, draws(j, n - 1), monitored, baselineMemory)]
  }

  /** The records of the whole suite over the given types, type after type; a type without a scenario leaves none. */
  function SuiteRecords(types: seq<CM.WorkflowType>, projectPath: string, n: nat, draws: (nat, nat) -> Draw,
                        monitored: bool, baselineMemory: real): seq<CM.WorkflowMetrics>
  {
    if types == [] then []
    else
      SuiteRecords(types[..|types| - 1], projectPath, n, draws, monitored, baselineMemory)
        + TypeRecords(types[|types| - 1], projectPath, |types| - 1, n, draws, monitored, baselineMemory)
  }

  function TypeRecords(t: CM.WorkflowType, projectPath: string, j: nat, n: nat, draws: (nat, nat) -> Draw,
                       monitored: bool, baselineMemory: real): seq<CM.WorkflowMetrics>
  {
    match ScenarioFor(t)
    case None => []
    case Some(s) => Records(t, s, projectPath, j, n, draws, monitored, baselineMemory)
  }

  /** A measured run's record is BASELINE_MANUAL, successful exactly when the run gives a result entry. */
  lemma RunRecordSpec(t: CM.WorkflowType, s: Scenario, projectPath: string, d: Draw, monitored: bool,
                      baselineMemory: real)
    requires ScenarioFor(t) == Some(s)
    ensures RunRecord(t, s, projectPath, d, monitored, baselineMemory).workflowType == CM.BaselineManual
    ensures RunRecord(t, s, projectPath, d, monitored, baselineMemory).success <==> Attempt(t, d, true).Simulated?
  {
    var sim := Simulate(t, s, Factor(Some(d.variance)), d.chance);
    MeasuredRecordSpec(t, s, projectPath, sim, d.clock, CM.PeakGrowth(monitored, baselineMemory, d.clock.rss));
    AttemptShape(t, d, true);
    SimulateWorkflowSpec(t, Some(d.variance), d.chance, true);
  }

  /** Run `i` of type `t` leaves the record of draw `(j, i)`. */
  lemma {:induction false} RecordsSpec(t: CM.WorkflowType, s: Scenario, projectPath: string, j: nat, n: nat,
                                       draws: (nat, nat) -> Draw, monitored: bool, baselineMemory: real)
    ensures forall i :: 0 <= i < n ==>
      Records(t, s, projectPath, j, n, draws, monitored, baselineMemory)[i]
        == RunRecord(t, s, projectPath, draws(j, i), monitored, baselineMemory)
  {
    if n > 0 {
      RecordsSpec(t, s, projectPath, j, n - 1, draws, monitored, baselineMemory);
    }
  }

  /**
   * The records and the suite's entries agree run by run: each record is BASELINE_MANUAL and
   * successful exactly when the entry for that run is a result and not an error entry.
   */
  lemma RecordsAgree(t: CM.WorkflowType, s: Scenario, projectPath: string, j: nat, n: nat, draws: (nat, nat) -> Draw,
                     monitored: bool, baselineMemory: real, i: nat)
    requires ScenarioFor(t) == Some(s) && i < n
    ensures Records(t, s, projectPath, j, n, draws, monitored, baselineMemory)[i].workflowType == CM.BaselineManual
    ensures Records(t, s, projectPath, j, n, draws, monitored, baselineMemory)[i].success <==>
      Attempts(t, j, n, draws, true)[i].Simulated?
  {
    RecordsSpec(t, s, projectPath, j, n, draws, monitored, baselineMemory);
    AttemptsSpec(t, j, n, draws, true);
    RunRecordSpec(t, s, projectPath, draws(j, i), monitored, baselineMemory);
  }

  lemma RecordsStep(t: CM.WorkflowType, s: Scenario, projectPath: string, j: nat, i: nat, draws: (nat, nat) -> Draw,
                    monitored: bool, baselineMemory: real)
    ensures Records(t, s, projectPath, j, i + 1, draws, monitored, baselineMemory)
      == Records(t, s, projectPath, j, i, draws, monitored, baselineMemory)
        + [RunRecord(t, s, projectPath, draws(j, i), monitored, baselineMemory)]
  {
  }

  /** The collector's records after one more run of type `t`, from those before it. */
  lemma RecordsExtend(t: CM.WorkflowType, s: Scenario, projectPath: string, j: nat, i: nat, draws: (nat, nat) -> Draw,
                      monitored: bool, baselineMemory: real, start: seq<CM.WorkflowMetrics>,
                      before: seq<CM.WorkflowMetrics>, now: seq<CM.WorkflowMetrics>)
    requires before == start + Records(t, s, projectPath, j, i, draws, monitored, baselineMemory)
    requires now == before + [RunRecord(t, s, projectPath, draws(j, i), monitored, baselineMemory)]
    ensures now == start + Records(t, s, projectPath, j, i + 1, draws, monitored, baselineMemory)
  {
    RecordsStep(t, s, projectPath, j, i, draws, monitored, baselineMemory);
    ConcatAssoc(start, Records(t, s, projectPath, j, i, draws, monitored, baselineMemory),
      [RunRecord(t, s, projectPath, draws(j, i), monitored, baselineMemory)]);
  }

  /** Every type with a scenario leaves `n` records. */
  lemma {:induction false} SuiteRecordsLength(types: seq<CM.WorkflowType>, projectPath: string, n: nat,
                                              draws: (nat, nat) -> Draw, monitored: bool, baselineMemory: real)
    requires forall i :: 0 <= i < |types| ==> ScenarioFor(types[i]).Some?
    ensures |SuiteRecords(types, projectPath, n, draws, monitored, baselineMemory)| == |types| * n
  {
    if types != [] {
      SuiteRecordsLength(types[..|types| - 1], projectPath, n, draws, monitored, baselineMemory);
      MultiplyStep(|types| - 1, n);
    }
  }

  lemma SuiteRecordsStep(types: seq<CM.WorkflowType>, j: nat, projectPath: string, n: nat, draws: (nat, nat) -> Draw,
                         monitored: bool, baselineMemory: real)
    requires j < |types|
    ensures SuiteRecords(types[..j + 1], projectPath, n, draws, monitored, baselineMemory)
      == SuiteRecords(types[..j], projectPath, n, draws, monitored, baselineMemory)
        + TypeRecords(types[j], projectPath, j, n, draws, monitored, baselineMemory)
  {
    assert types[..j + 1][..j] == types[..j];
  }

  /** The collector's records after one more type of the suite, from those before it. */
  lemma SuiteRecordsExtend(types: seq<CM.WorkflowType>, j: nat, projectPath: string, n: nat, draws: (nat, nat) -> Draw,
                           monitored: bool, baselineMemory: real, start: seq<CM.WorkflowMetrics>,
                           before: seq<CM.WorkflowMetrics>, now: seq<CM.WorkflowMetrics>)
    requires j < |types| && ScenarioFor(types[j]).Some?
    requires before == start + SuiteRecords(types[..j], projectPath, n, draws, monitored, baselineMemory)
    requires now == before + Records(types[j], ScenarioFor(types[j]).value, projectPath, j, n, draws, monitored,
      baselineMemory)
    ensures now == start + SuiteRecords(types[..j + 1], projectPath, n, draws, monitored, baselineMemory)
  {
    var done := SuiteRecords(types[..j], projectPath, n, draws, monitored, baselineMemory);
    var more := Records(types[j], ScenarioFor(types[j]).value, projectPath, j, n, draws, monitored, baselineMemory);
    SuiteRecordsStep(types, j, projectPath, n, draws, monitored, baselineMemory);
    assert TypeRecords(types[j], projectPath, j, n, draws, monitored, baselineMemory) == more;
    ConcatAssoc(start, done, more);
  }

  // ---------------------------------------------------------------- comparison with the current tools

  datatype BaselineImprovements = BaselineImprovements(tokenReductionPercent: real, timeReductionPercent: real,
    efficiencyIncreasePercent: real, successRateImprovement: real)

  datatype BaselineVerdict = BaselineVerdict(moreTokenEfficient: bool, faster: bool, moreEfficientOverall: bool,
    moreReliable: bool)

  const CostSavings := "Significant reduction in AI API costs due to token efficiency"

  datatype RoiAnalysis = RoiAnalysis(tokenSavingsPerWorkflow: real, timeSavingsPerWorkflow: real,
    estimatedCostSavings: string)

  datatype BaselineComparison = BaselineComparison(baseline: SuiteSummary, current: CM.MetricsSummary,
    improvements: BaselineImprovements, verdict: BaselineVerdict, roi: RoiAnalysis)

  /** `current.get("tokens", {}).get("total_avg", 0)`: a summary without metrics has none of the keys. */
  function CurrentTokens(c: CM.MetricsSummary): real
  {
    if c.NoMetrics? then 0.0 else c.totalAvg
  }

  function CurrentTime(c: CM.MetricsSummary): real
  {
    if c.NoMetrics? then 0.0 else c.timeAvg
  }

  function CurrentRate(c: CM.MetricsSummary): real
  {
    if c.NoMetrics? then 0.0 else c.tokensPerSecond
  }

  function CurrentSuccess(c: CM.MetricsSummary): real
  {
    if c.NoMetrics? then 0.0 else c.successRate
  }

  /** `(base - current) / base * 100 if base > 0 else 0`. */
  function Reduction(base: real, current: real): real
  {
    if base > 0.0 then (base - current) / base * 100.0 else 0.0
  }

  /** `(current - base) / base * 100 if base > 0 else 0`. */
  function Increase(base: real, current: real): real
  {
    if base > 0.0 then (current - base) / base * 100.0 else 0.0
  }

  /** `compare_with_current` against the summary of a suite. */
  function CompareWithCurrent(current: CM.MetricsSummary, baseline: SuiteSummary): BaselineComparison
  {
    var tokens := Reduction(baseline.averageTokensPerWorkflow, CurrentTokens(current));
    var time := Reduction(baseline.averageDurationPerWorkflow, CurrentTime(current));
    var efficiency := Increase(baseline.overallEfficiency, CurrentRate(current));
    BaselineComparison(baseline, current,
      BaselineImprovements(tokens, time, efficiency, CurrentSuccess(current) - baseline.successRate),
      BaselineVerdict(tokens > 0.0, time > 0.0, efficiency > 0.0, CurrentSuccess(current) > baseline.successRate),
      RoiAnalysis(baseline.averageTokensPerWorkflow - CurrentTokens(current),
        baseline.averageDurationPerWorkflow - CurrentTime(current), CostSavings))
  }

  /** A positive base: the change is positive exactly when the numerator is, and times base is 100 numerators. */
  lemma ChangeSign(numerator: real, base: real)
    requires base > 0.0
    ensures numerator / base * 100.0 > 0.0 <==> numerator > 0.0
    ensures numerator / base * 100.0 * base == numerator * 100.0
  {
  }

  /**
   * The improvements are zero when the baseline figure is not positive, each verdict holds exactly
   * when its improvement is positive, and the savings are the baseline averages less the current
   * ones (zero where the current summary has none).
   */
  lemma CompareWithCurrentSpec(current: CM.MetricsSummary, baseline: SuiteSummary)
    ensures var r := CompareWithCurrent(current, baseline);
      && (baseline.averageTokensPerWorkflow <= 0.0 ==> r.improvements.tokenReductionPercent == 0.0)
      && (baseline.averageDurationPerWorkflow <= 0.0 ==> r.improvements.timeReductionPercent == 0.0)
      && (baseline.overallEfficiency <= 0.0 ==> r.improvements.efficiencyIncreasePercent == 0.0)
      && (r.verdict.moreTokenEfficient <==> r.improvements.tokenReductionPercent > 0.0)
      && (r.verdict.faster <==> r.improvements.timeReductionPercent > 0.0)
      && (r.verdict.moreEfficientOverall <==> r.improvements.efficiencyIncreasePercent > 0.0)
      && (r.verdict.moreReliable <==> r.improvements.successRateImprovement > 0.0)
      && r.roi.tokenSavingsPerWorkflow == baseline.averageTokensPerWorkflow - CurrentTokens(current)
      && r.roi.timeSavingsPerWorkflow == baseline.averageDurationPerWorkflow - CurrentTime(current)
      && (current.NoMetrics? ==>
            r.roi.tokenSavingsPerWorkflow == baseline.averageTokensPerWorkflow
            && r.roi.timeSavingsPerWorkflow == baseline.averageDurationPerWorkflow)
  {
  }

  /** With positive baseline figures, each verdict compares the current figure with the baseline's. */
  lemma CompareWithCurrentVerdicts(current: CM.MetricsSummary, baseline: SuiteSummary)
    requires baseline.averageTokensPerWorkflow > 0.0 && baseline.averageDurationPerWorkflow > 0.0
    requires baseline.overallEfficiency > 0.0
    ensures var r := CompareWithCurrent(current, baseline);
      && (r.verdict.moreTokenEfficient <==> CurrentTokens(current) < baseline.averageTokensPerWorkflow)
      && (r.verdict.faster <==> CurrentTime(current) < baseline.averageDurationPerWorkflow)
      && (r.verdict.moreEfficientOverall <==> CurrentRate(current) > baseline.overallEfficiency)
      && r.improvements.tokenReductionPercent * baseline.averageTokensPerWorkflow
           == r.roi.tokenSavingsPerWorkflow * 100.0
      && r.improvements.timeReductionPercent * baseline.averageDurationPerWorkflow
           == r.roi.timeSavingsPerWorkflow * 100.0
  {
    ChangeSign(baseline.averageTokensPerWorkflow - CurrentTokens(current), baseline.averageTokensPerWorkflow);
    ChangeSign(baseline.averageDurationPerWorkflow - CurrentTime(current), baseline.averageDurationPerWorkflow);
    ChangeSign(CurrentRate(current) - baseline.overallEfficiency, baseline.overallEfficiency);
  }

  // ---------------------------------------------------------------- the simulator

  class Simulator {
    /** The collector runs are measured with, if any. */
    const collector: CM.MetricsCollector?

    constructor(collector: CM.MetricsCollector?)
      ensures this.collector == collector
    {
      this.collector := collector;
    }

    /**
     * `simulate_workflow`: the result as `SimulateWorkflowOf` gives it; with a collector and a
     * type that has a scenario, the collector gains exactly the record of the run.
     */
    method SimulateWorkflow(t: CM.WorkflowType, projectPath: string, variance: Option<real>, chance: real,
                            clock: Clock) returns (r: Result<Simulation>)
      modifies collector
      ensures r == SimulateWorkflowOf(t, variance, chance, collector != null)
      ensures collector != null ==> collector.metrics == old(collector.metrics)
      ensures collector != null && ScenarioFor(t).None? ==> collector.workflows == old(collector.workflows)
      ensures collector != null && ScenarioFor(t).Some? ==>
        var s := ScenarioFor(t).value;
        collector.workflows == old(collector.workflows)
          + [MeasuredRecord(t, s, projectPath, Simulate(t, s, Factor(variance), chance), clock,
               collector.MemoryPeakAt(clock.rss))]
    {
      match ScenarioFor(t)
      case None =>
        r := Err(NoScenarioText(t));
      case Some(s) =>
        var sim := Simulate(t, s, Factor(variance), chance);
        if collector != null {
          var run := CM.WorkflowRun(BodyCalls(sim), if sim.success then None else Some(FailureText));
          var raised := collector.MeasureWorkflow(CM.BaselineManual, Some(RunMetadata(t, s, projectPath)), run,
            clock.start, clock.end, clock.rss);
          if raised.Some? {
            r := Err(raised.value);
            return;
          }
        }
        r := Ok(sim);
    }

    /** One run of the suite's inner loop: its entry, and with a collector the run's record. */
    method RunOnce(t: CM.WorkflowType, projectPath: string, d: Draw) returns (o: Outcome)
      requires ScenarioFor(t).Some?
      modifies collector
      ensures o == Attempt(t, d, collector != null)
      ensures collector != null ==>
        collector.workflows == old(collector.workflows) + [RunRecord(t, ScenarioFor(t).value, projectPath, d, collector.monitored, collector.baselineMemory)]
      ensures collector != null ==> collector.metrics == old(collector.metrics)
    {
      var r := SimulateWorkflow(t, projectPath, Some(d.variance), d.chance, d.clock);
      o := OutcomeOf(t, r);
    }

    /** The inner loop of the suite for one scenario type, adding each entry to the totals. */
    method RunScenario(t: CM.WorkflowType, projectPath: string, j: nat, n: nat, draws: (nat, nat) -> Draw,
                       totals: Totals) returns (outcomes: seq<Outcome>, after: Totals)
      requires ScenarioFor(t).Some?
      modifies collector
      ensures outcomes == Attempts(t, j, n, draws, collector != null)
      ensures after == Accumulate(totals, outcomes)
      ensures collector != null ==> |collector.workflows| == |old(collector.workflows)| + n
      ensures collector != null ==>
        collector.workflows == old(collector.workflows) + Records(t, ScenarioFor(t).value, projectPath, j, n, draws, collector.monitored, collector.baselineMemory)
      ensures collector != null ==> collector.metrics == old(collector.metrics)
    {
      ghost var s := ScenarioFor(t).value;
      ghost var mon, base := if collector != null then collector.monitored else false,
        if collector != null then collector.baselineMemory else 0.0;
      outcomes := [];
      after := totals;
      for i := 0 to n
        invariant outcomes == Attempts(t, j, i, draws, collector != null)
        invariant after == Accumulate(totals, outcomes)
        invariant collector != null ==> collector.workflows == old(collector.workflows) + Records(t, s, projectPath, j, i, draws, mon, base)
        invariant collector != null ==> collector.metrics == old(collector.metrics)
      {
        ghost var before := if collector != null then collector.workflows else [];
        var o := RunOnce(t, projectPath, draws(j, i));
        if collector != null {
          RecordsExtend(t, s, projectPath, j, i, draws, mon, base, old(collector.workflows), before,
            collector.workflows);
        }
        AttemptsExtend(t, j, i, draws, collector != null, totals, outcomes, after, o);
        outcomes := outcomes + [o];
        after := Add(after, o);
      }
    }

    /** The outer loop of the suite over the given scenario types. */
    method RunScenarios(types: seq<CM.WorkflowType>, projectPath: string, n: nat, draws: (nat, nat) -> Draw)
      returns (ws: seq<(string, seq<Outcome>)>, totals: Totals)
      requires forall i :: 0 <= i < |types| ==> ScenarioFor(types[i]).Some?
      modifies collector
      ensures ws == Workflows(types, n, draws, collector != null)
      ensures totals == Accumulate(NoTotals, Flatten(ws))
      ensures collector != null ==> |collector.workflows| == |old(collector.workflows)| + |types| * n
      ensures collector != null ==>
        collector.workflows == old(collector.workflows) + SuiteRecords(types, projectPath, n, draws, collector.monitored, collector.baselineMemory)
      ensures collector != null ==> collector.metrics == old(collector.metrics)
    {
      ghost var mon, base := if collector != null then collector.monitored else false,
        if collector != null then collector.baselineMemory else 0.0;
      ws := [];
      totals := NoTotals;
      for j := 0 to |types|
        invariant ws == Workflows(types[..j], n, draws, collector != null)
        invariant totals == Accumulate(NoTotals, Flatten(ws))
        invariant collector != null ==> collector.workflows == old(collector.workflows) + SuiteRecords(types[..j], projectPath, n, draws, mon, base)
        invariant collector != null ==> collector.metrics == old(collector.metrics)
      {
        var t := types[j];
        ghost var before := if collector != null then collector.workflows else [];
        var outcomes, after := RunScenario(t, projectPath, j, n, draws, totals);
        if collector != null {
          SuiteRecordsExtend(types, j, projectPath, n, draws, mon, base, old(collector.workflows), before,
            collector.workflows);
        }
        var w := (CM.WorkflowValue(t), outcomes);
        WorkflowsExtend(types, j, n, draws, collector != null, ws, totals, outcomes, after);
        ws := ws + [w];
        totals := after;
      }
      assert types[..|types|] == types;
      SuiteRecordsLength(types, projectPath, n, draws, mon, base);
    }

    /**
     * `run_baseline_suite`: the result `SuiteOf` gives; with a collector, the records of the
     * runs are added to it, type after type and run after run.
     */
    method RunBaselineSuite(projectPath: string, iterations: int, draws: (nat, nat) -> Draw) returns (r: SuiteResult)
      modifies collector
      ensures r == SuiteOf(projectPath, iterations, draws, collector != null)
      ensures collector != null ==>
        |collector.workflows| == |old(collector.workflows)| + |ScenarioTypes| * RunCount(iterations)
      ensures collector != null ==>
        collector.workflows == old(collector.workflows) + SuiteRecords(ScenarioTypes, projectPath, RunCount(iterations), draws, collector.monitored, collector.baselineMemory)
      ensures collector != null ==> collector.metrics == old(collector.metrics)
    {
      forall i | 0 <= i < |ScenarioTypes| ensures ScenarioFor(ScenarioTypes[i]).Some? {
        ScenarioKeys(ScenarioTypes[i]);
      }
      var ws, totals := RunScenarios(ScenarioTypes, projectPath, RunCount(iterations), draws);
      r := SuiteResult(projectPath, iterations, ws, Summary(totals));
    }
  }
}
