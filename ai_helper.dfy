/**
 * The helper layer: workflows that combine the other tools and report a summary, a context,
 * recommendations and an exit code. The tools' results arrive as parameters, and so do the
 * exceptions they raise. Attributes the workflows read but the library records lack are
 * optional fields of the views they read, absent in the library's records.
 */
module AiHelper {
  import opened Common
  import S = SafetyChecker
  import P = PatternScanner
  import I = ImpactAnalyzer
  import D = DifferenceAnalyzer

  /** The `context` dict of each workflow. */
  datatype HelperContext =
    | ProjectContext(readyForAi: bool, overallScore: real, repoPath: string)
    | PlanContext(safeToProceed: bool, targetFilesCount: nat, maxRiskLevel: nat, changeDescription: string)
    | NoPatternsContext
    | FixContext(patternsFound: int, safeFiles: nat, highRiskFiles: nat, originalFile: string, originalLine: int)
    | CompareContext(file1: string, file2: string, differencesFound: nat, semanticChanges: nat)
    | ErrorContext(error: string)

  datatype HelperWorkflowResult = HelperWorkflowResult(
    workflowType: string,
    success: bool,
    summary: string,
    context: HelperContext,
    recommendations: seq<string>,
    exitCode: int)

  /** The `except` branch every workflow ends in, with `str(e)` of what was raised. */
  function Failure(workflowType: string, failed: string, advice: string, e: string): (r: HelperWorkflowResult)
    ensures !r.success && r.exitCode == 255 && r.context == ErrorContext(e)
  {
    HelperWorkflowResult(workflowType, false, failed + ": " + e, ErrorContext(e), [advice], 255)
  }

  /** The message of the `AttributeError` a missing attribute raises. */
  function MissingAttribute(cls: string, attr: string): string
  {
    "'" + cls + "' object has no attribute '" + attr + "'"
  }

  /** `recommendations[:5]`. */
  function Top5(recs: seq<string>): (r: seq<string>)
    ensures |r| <= 5 && |r| <= |recs| && r == recs[..|r|]
    ensures |recs| <= 5 ==> r == recs
  {
    recs[..Min(5, |recs|)]
  }

  // ------------------------------------------------------------ analyze_project

  /** The repository analyzer's record. */
  datatype RepoHealth = RepoHealth(isClean: bool, hasUncommittedChanges: bool, syntaxErrors: int, totalFiles: int,
                                   summary: string)

  /** The health object as `analyze_project` reads it; the optional attributes may be missing. */
  datatype HealthView = HealthView(
    healthScore: Option<real>,
    syntaxErrors: int,
    missingFiles: Option<seq<string>>,
    summary: string,
    recommendations: Option<seq<string>>)

  /** The library record has no `health_score`, `missing_files` or `recommendations`. */
  function LibraryHealth(h: RepoHealth): HealthView
  {
    HealthView(None, h.syntaxErrors, None, h.summary, None)
  }

  /** What `validate_project` reports that the workflow reads. */
  datatype ValidationView = ValidationView(issues: nat, isValid: bool)

  /** The verdict `_generate_project_summary` words. */
  datatype ProjectVerdict = HasSyntaxErrors(count: int) | ReadyForAi(score: real) | NeedsImprovement(score: real)

  /**
   * `_generate_project_summary`: syntax errors come first, then readiness, and otherwise the
   * project needs improvement.
   */
  function ProjectSummary(overallScore: real, readyForAi: bool, syntaxErrors: int): (r: ProjectVerdict)
    ensures r.HasSyntaxErrors? <==> syntaxErrors > 0
    ensures r.ReadyForAi? <==> syntaxErrors <= 0 && readyForAi
    ensures r.NeedsImprovement? <==> syntaxErrors <= 0 && !readyForAi
    ensures r.HasSyntaxErrors? ==> r.count == syntaxErrors
    ensures !r.HasSyntaxErrors? ==> r.score == overallScore
  {
    if syntaxErrors > 0 then HasSyntaxErrors(syntaxErrors)
    else if readyForAi then ReadyForAi(overallScore)
    else NeedsImprovement(overallScore)
  }

  /** The summary's words; `percent` renders a score with `:.1%`. */
  function VerdictText(v: ProjectVerdict, percent: real -> string): string
  {
    match v
    case HasSyntaxErrors(n) => "Project has " + IntToString(n) + " syntax errors - fix before AI assistance"
    case ReadyForAi(s) => "Project ready for AI assistance (health: " + percent(s) + ")"
    case NeedsImprovement(s) => "Project needs improvement before AI assistance (health: " + percent(s) + ")"
  }

  /** `max(0, 1.0 - x / d)` for the two normalised parts of the score. */
  function Normalised(x: real, d: real): (r: real)
    requires d > 0.0
    ensures 0.0 <= r && (x >= 0.0 ==> r <= 1.0)
  {
    MaxReal(0.0, 1.0 - x / d)
  }

  /** The weighted score: the health score plus the optional context and validation parts. */
  function OverallScore(healthScore: real, complexity: Option<real>, issues: Option<nat>): real
  {
    healthScore * 0.3
    + (if complexity.Some? then Normalised(complexity.value, 100.0) * 0.3 else 0.0)
    + (if issues.Some? then Normalised(issues.value as real, 50.0) * 0.4 else 0.0)
  }

  /** A health score in [0, 1] and a non-negative complexity keep the overall score in [0, 1]. */
  lemma OverallScoreBounds(healthScore: real, complexity: Option<real>, issues: Option<nat>)
    requires 0.0 <= healthScore <= 1.0
    requires complexity.Some? ==> complexity.value >= 0.0
    ensures 0.0 <= OverallScore(healthScore, complexity, issues) <= 1.0
  {
  }

  const FixSyntaxAdvice := "Fix syntax errors before AI-assisted changes"
  const BelowThresholdAdvice := "Project health below recommended threshold for AI changes"
  const FixValidationAdvice := "Fix validation issues before proceeding"

  /** The recommendations before `[:5]`: the health ones, then the warnings put in front. */
  function ProjectAdvice(given: seq<string>, invalid: bool, syntaxErrors: int, score: real): seq<string>
  {
    var base := given + (if invalid then [FixValidationAdvice] else []);
    var withSyntax := if syntaxErrors > 0 then [FixSyntaxAdvice] + base else base;
    if score < 0.6 then [BelowThresholdAdvice] + withSyntax else withSyntax
  }

  /** At most five recommendations; the threshold warning leads a low score, else the syntax warning leads. */
  lemma ProjectAdviceSpec(given: seq<string>, invalid: bool, syntaxErrors: int, score: real)
    ensures var r := Top5(ProjectAdvice(given, invalid, syntaxErrors, score));
      && |r| <= 5
      && (score < 0.6 ==> r != [] && r[0] == BelowThresholdAdvice)
      && (score >= 0.6 && syntaxErrors > 0 ==> r != [] && r[0] == FixSyntaxAdvice)
  {
  }

  /** `ready_for_ai`: no syntax errors, a score of at least 0.6 and, if validated, fewer than 20 issues. */
  predicate ReadyFor(syntaxErrors: int, score: real, validation: Option<ValidationView>)
  {
    syntaxErrors == 0 && score >= 0.6 && (validation.None? || validation.value.issues < 20)
  }

  function IssuesOf(validation: Option<ValidationView>): Option<nat>
  {
    if validation.Some? then Some(validation.value.issues) else None
  }

  /** The successful report, from the overall score, the syntax errors, the health recommendations and the validation. */
  function ProjectReport(score: real, syntaxErrors: int, given: seq<string>, validation: Option<ValidationView>,
                         repoPath: string, percent: real -> string): HelperWorkflowResult
  {
    var ready := ReadyFor(syntaxErrors, score, validation);
    var invalid := validation.Some? && !validation.value.isValid;
    HelperWorkflowResult(
      "analyze_project", true, VerdictText(ProjectSummary(score, ready, syntaxErrors), percent),
      ProjectContext(ready, score, repoPath),
      Top5(ProjectAdvice(given, invalid, syntaxErrors, score)),
      Min(Truncate(score * 100.0), 254))
  }

  /**
   * `analyze_project`, given the health object or what raised, the context analyzer's
   * complexity score and the validator's report (each one only read when requested), the
   * repository path and the percent rendering.
   */
  function AnalyzeProjectOf(
    health: Result<HealthView>, includeValidation: bool, includeContext: bool,
    complexity: Result<real>, validation: Result<ValidationView>, repoPath: string, percent: real -> string)
    : HelperWorkflowResult
  {
    var fail := (e: string) => Failure("analyze_project", "Project analysis failed", "Fix analysis error before proceeding", e);
    if health.Err? then fail(health.msg)
    else
      var h := health.value;
      if h.healthScore.None? then fail(MissingAttribute("RepoHealth", "health_score"))
      else if h.missingFiles.None? then fail(MissingAttribute("RepoHealth", "missing_files"))
      else if includeContext && complexity.Err? then fail(complexity.msg)
      else if includeValidation && validation.Err? then fail(validation.msg)
      else if h.recommendations.None? then fail(MissingAttribute("RepoHealth", "recommendations"))
      else
        var v := if includeValidation then Some(validation.value) else None;
        var score := OverallScore(h.healthScore.value, if includeContext then Some(complexity.value) else None, IssuesOf(v));
        ProjectReport(score, h.syntaxErrors, h.recommendations.value, v, repoPath, percent)
  }

  /**
   * A report's exit code is `min(int(score * 100), 254)`, within 0..100 for a score in [0, 1];
   * it has at most five recommendations, the threshold warning first when the score is below
   * 0.6, else the syntax warning first when there are syntax errors; and the project counts as
   * ready exactly as `ReadyFor` says.
   */
  lemma ProjectReportSpec(score: real, syntaxErrors: int, given: seq<string>, validation: Option<ValidationView>,
                          repoPath: string, percent: real -> string)
    ensures var r := ProjectReport(score, syntaxErrors, given, validation, repoPath, percent);
      && r.success
      && r.context == ProjectContext(ReadyFor(syntaxErrors, score, validation), score, repoPath)
      && r.exitCode == Min(Truncate(score * 100.0), 254)
      && (0.0 <= score <= 1.0 ==> 0 <= r.exitCode <= 100)
      && |r.recommendations| <= 5
      && (score < 0.6 ==> r.recommendations != [] && r.recommendations[0] == BelowThresholdAdvice)
      && (score >= 0.6 && syntaxErrors > 0 ==> r.recommendations != [] && r.recommendations[0] == FixSyntaxAdvice)
  {
    if 0.0 <= score <= 1.0 {
      PercentBounds(score);
    }
    ProjectAdviceSpec(given, validation.Some? && !validation.value.isValid, syntaxErrors, score);
  }

  /**
   * Analysis fails with exit code 255 when reading the health record raises or misses an
   * attribute, or a requested step raises; otherwise it reports on the weighted score of
   * exactly the requested parts, which lies in [0, 1] for a health score in [0, 1] and a
   * non-negative complexity.
   */
  lemma AnalyzeProjectSpec(
    health: Result<HealthView>, includeValidation: bool, includeContext: bool,
    complexity: Result<real>, validation: Result<ValidationView>, repoPath: string, percent: real -> string)
    ensures var r := AnalyzeProjectOf(health, includeValidation, includeContext, complexity, validation, repoPath, percent);
      && (r.success <==>
            && health.Ok? && health.value.healthScore.Some? && health.value.missingFiles.Some?
            && health.value.recommendations.Some?
            && (includeContext ==> complexity.Ok?) && (includeValidation ==> validation.Ok?))
      && (!r.success ==> r.exitCode == 255 && r.context.ErrorContext?)
      && (r.success ==>
            var h := health.value;
            var v := if includeValidation then Some(validation.value) else None;
            var score := OverallScore(h.healthScore.value, if includeContext then Some(complexity.value) else None, IssuesOf(v));
            && r == ProjectReport(score, h.syntaxErrors, h.recommendations.value, v, repoPath, percent)
            && (0.0 <= h.healthScore.value <= 1.0 && (includeContext ==> complexity.value >= 0.0) ==> 0.0 <= score <= 1.0))
  {
    var r := AnalyzeProjectOf(health, includeValidation, includeContext, complexity, validation, repoPath, percent);
    if r.success {
      var h := health.value;
      var v := if includeValidation then Some(validation.value) else None;
      if 0.0 <= h.healthScore.value <= 1.0 && (includeContext ==> complexity.value >= 0.0) {
        OverallScoreBounds(h.healthScore.value, if includeContext then Some(complexity.value) else None, IssuesOf(v));
      }
    }
  }

  lemma PercentBounds(score: real)
    requires 0.0 <= score <= 1.0
    ensures 0 <= Truncate(score * 100.0) <= 100
  {
  }

  /** With the library's record the workflow always fails at the health score, exiting 255. */
  lemma LibraryAnalyzeFails(
    h: RepoHealth, includeValidation: bool, includeContext: bool,
    complexity: Result<real>, validation: Result<ValidationView>, repoPath: string, percent: real -> string)
    ensures var r := AnalyzeProjectOf(Ok(LibraryHealth(h)), includeValidation, includeContext, complexity, validation,
                                      repoPath, percent);
      && !r.success && r.exitCode == 255
      && r.context == ErrorContext(MissingAttribute("RepoHealth", "health_score"))
  {
  }

  // ------------------------------------------------------------ plan_changes

  /** The impact result as `plan_changes` reads it; `overall_risk` may be missing. */
  datatype ImpactView = ImpactView(overallRisk: Option<string>, recommendations: seq<string>)

  /** The library's `ImpactAnalysis` has no `overall_risk`. */
  function LibraryImpact(a: I.ImpactAnalysis): ImpactView
  {
    ImpactView(None, seq(|a.recommendations|, i requires 0 <= i < |a.recommendations| => I.AdviceText(a.recommendations[i])))
  }

  function RiskOf(check: string -> S.SafetyResult, f: string): nat
  {
    S.RiskValue(check(f).riskLevel)
  }

  /** The risk values of the files, in order. */
  function Risks(files: seq<string>, check: string -> S.SafetyResult): (r: seq<nat>)
    ensures |r| == |files| && forall i :: 0 <= i < |files| ==> r[i] == RiskOf(check, files[i])
  {
    if files == [] then []
    else
      var n := |files| - 1;
      assert forall i :: 0 <= i < n ==> files[..n][i] == files[i];
      Risks(files[..n], check) + [RiskOf(check, files[n])]
  }

  function IsCriticalAt(check: string -> S.SafetyResult): string -> bool
  {
    f => check(f).riskLevel == S.Critical
  }

  /** The loop of `plan_changes`: the running maximum of the risks and the CRITICAL files. */
  method PlanSafety(files: seq<string>, check: string -> S.SafetyResult) returns (maxRisk: nat, critical: seq<string>)
    ensures maxRisk == SeqMax(Risks(files, check))
    ensures critical == Filter(files, IsCriticalAt(check))
  {
    maxRisk, critical := 0, [];
    for i := 0 to |files|
      invariant maxRisk == SeqMax(Risks(files[..i], check))
      invariant critical == Filter(files[..i], IsCriticalAt(check))
    {
      var safety := check(files[i]);
      assert files[..i + 1][..i] == files[..i];
      maxRisk := Max(maxRisk, S.RiskValue(safety.riskLevel));
      if safety.riskLevel == S.Critical {
        critical := critical + [files[i]];
      }
    }
    assert files[..|files|] == files;
  }

  const SafeToProceedAdvice := "Changes appear safe to proceed"
  const CriticalBackupAdvice := "Create backups before modifying critical files"
  const LargeChangeAdvice := "Consider batch processing for large change sets"

  function CautionAdvice(n: nat): string
  {
    "CAUTION: " + NatToString(n) + " critical files detected"
  }

  /** The change-plan recommendations before `[:5]`. */
  function PlanAdvice(impactAdvice: seq<string>, maxRisk: nat, critical: nat, fileCount: nat): seq<string>
  {
    var withVerdict :=
      if maxRisk <= 1 && critical == 0 then [SafeToProceedAdvice] + impactAdvice
      else if critical > 0 then [CautionAdvice(critical)] + impactAdvice + [CriticalBackupAdvice]
      else impactAdvice;
    if fileCount > 10 then withVerdict + [LargeChangeAdvice] else withVerdict
  }

  /** `_generate_change_plan_summary`. */
  function ChangePlanSummary(fileCount: nat, maxRisk: int, safeToProceed: bool): string
  {
    "Change plan for " + NatToString(fileCount) + " files: " + S.RiskWord(maxRisk) + " risk - "
    + (if safeToProceed then "safe to proceed" else "proceed with caution")
  }

  /** The successful plan, from the maximum risk, the number of CRITICAL files and the impact advice. */
  function PlanReport(fileCount: nat, description: string, maxRisk: nat, critical: nat, impactAdvice: seq<string>)
    : HelperWorkflowResult
  {
    var safe := maxRisk <= 1 && critical == 0;
    HelperWorkflowResult(
      "plan_changes", true, ChangePlanSummary(fileCount, maxRisk, safe),
      PlanContext(safe, fileCount, maxRisk, description),
      Top5(PlanAdvice(impactAdvice, maxRisk, critical, fileCount)), maxRisk)
  }

  /**
   * A plan exits with its maximum risk, is safe to proceed exactly when that risk is at most
   * MEDIUM and no file is CRITICAL, then leads with "Changes appear safe to proceed", leads
   * with the caution naming the CRITICAL files when there are any, and has at most five
   * recommendations.
   */
  lemma PlanReportSpec(fileCount: nat, description: string, maxRisk: nat, critical: nat, impactAdvice: seq<string>)
    ensures var r := PlanReport(fileCount, description, maxRisk, critical, impactAdvice);
      && r.success && r.exitCode == r.context.maxRiskLevel == maxRisk
      && (r.context.safeToProceed <==> maxRisk <= 1 && critical == 0)
      && |r.recommendations| <= 5
      && (r.context.safeToProceed ==> r.recommendations != [] && r.recommendations[0] == SafeToProceedAdvice)
      && (critical > 0 ==> r.recommendations != [] && r.recommendations[0] == CautionAdvice(critical))
  {
  }

  /**
   * `plan_changes`, given the checker and, when impact is assessed for a non-empty list, what
   * the impact analysis of the first file returned or raised.
   */
  function PlanChangesOf(
    files: seq<string>, description: string, assessImpact: bool,
    check: string -> S.SafetyResult, impact: Result<ImpactView>): HelperWorkflowResult
  {
    var fail := (e: string) => Failure("plan_changes", "Change planning failed", "Fix planning error before proceeding", e);
    var assessed := assessImpact && files != [];
    if assessed && impact.Err? then fail(impact.msg)
    else if assessed && impact.value.overallRisk.None? then fail(MissingAttribute("ImpactAnalysis", "overall_risk"))
    else
      var impactAdvice := if assessed then impact.value.recommendations[..Min(2, |impact.value.recommendations|)] else [];
      PlanReport(|files|, description, SeqMax(Risks(files, check)), |Filter(files, IsCriticalAt(check))|, impactAdvice)
  }

  /** No critical file is collected when every risk is at most MEDIUM. */
  lemma {:induction false} NoCriticals(files: seq<string>, check: string -> S.SafetyResult)
    requires forall i :: 0 <= i < |files| ==> RiskOf(check, files[i]) <= 1
    ensures Filter(files, IsCriticalAt(check)) == []
  {
    if files != [] {
      NoCriticals(files[..|files| - 1], check);
    }
  }

  /** The maximum of the risks bounds every file's risk and is one of them (0 for no files). */
  lemma MaxRiskSpec(files: seq<string>, check: string -> S.SafetyResult, risks: seq<nat>)
    requires |risks| == |files| && forall i :: 0 <= i < |files| ==> risks[i] == RiskOf(check, files[i])
    ensures forall i :: 0 <= i < |files| ==> RiskOf(check, files[i]) <= SeqMax(risks)
    ensures files == [] ==> SeqMax(risks) == 0
    ensures files != [] ==> exists i :: 0 <= i < |files| && RiskOf(check, files[i]) == SeqMax(risks)
    ensures SeqMax(risks) <= 3
  {
    var m := SeqMax(risks);
    forall i | 0 <= i < |files| ensures RiskOf(check, files[i]) <= m {
      assert risks[i] <= m;
    }
    if files != [] {
      var k :| 0 <= k < |risks| && risks[k] == m;
      assert RiskOf(check, files[k]) == m;
    }
  }

  /**
   * Without the impact step (not requested, or no files) or with an impact result that has
   * `overall_risk`, planning succeeds: the exit code is the maximum risk over the files, the
   * change is safe to proceed exactly when every file is at most MEDIUM (so none is CRITICAL),
   * a safe plan leads with "Changes appear safe to proceed", a plan with CRITICAL files leads
   * with the caution naming their number, and there are at most five recommendations.
   */
  lemma PlanChangesSpec(
    files: seq<string>, description: string, assessImpact: bool,
    check: string -> S.SafetyResult, impact: Result<ImpactView>)
    ensures var r := PlanChangesOf(files, description, assessImpact, check, impact);
      && (r.success <==> !(assessImpact && files != []) || (impact.Ok? && impact.value.overallRisk.Some?))
      && (!r.success ==> r.exitCode == 255 && r.context.ErrorContext?)
      && (r.success ==>
            && r.exitCode == r.context.maxRiskLevel <= 3
            && S.RiskWord(r.exitCode) != "unknown"
            && (forall i :: 0 <= i < |files| ==> RiskOf(check, files[i]) <= r.exitCode)
            && (files != [] ==> exists i :: 0 <= i < |files| && RiskOf(check, files[i]) == r.exitCode)
            && (r.context.safeToProceed <==> forall i :: 0 <= i < |files| ==> RiskOf(check, files[i]) <= 1)
            && |r.recommendations| <= 5
            && (r.context.safeToProceed ==> r.recommendations != [] && r.recommendations[0] == SafeToProceedAdvice)
            && (|Filter(files, IsCriticalAt(check))| > 0 ==>
                  r.recommendations != [] && r.recommendations[0] == CautionAdvice(|Filter(files, IsCriticalAt(check))|)))
  {
    var r := PlanChangesOf(files, description, assessImpact, check, impact);
    if r.success {
      var assessed := assessImpact && files != [];
      var impactAdvice := if assessed then impact.value.recommendations[..Min(2, |impact.value.recommendations|)] else [];
      var maxRisk := SeqMax(Risks(files, check));
      var critical := |Filter(files, IsCriticalAt(check))|;
      assert r == PlanReport(|files|, description, maxRisk, critical, impactAdvice);
      PlanReportSpec(|files|, description, maxRisk, critical, impactAdvice);
      MaxRiskSpec(files, check, Risks(files, check));
      if forall i :: 0 <= i < |files| ==> RiskOf(check, files[i]) <= 1 {
        NoCriticals(files, check);
      }
    }
  }

  /** With the library's impact analysis, planning changes to any files always fails, exiting 255. */
  lemma LibraryPlanFails(files: seq<string>, description: string, check: string -> S.SafetyResult, a: I.ImpactAnalysis)
    requires files != []
    ensures var r := PlanChangesOf(files, description, true, check, Ok(LibraryImpact(a)));
      !r.success && r.exitCode == 255 && r.context == ErrorContext(MissingAttribute("ImpactAnalysis", "overall_risk"))
  {
  }

  /** `plan_changes`: the loop over the files, then the impact step and the verdict. */
  method PlanChanges(
    files: seq<string>, description: string, assessImpact: bool,
    check: string -> S.SafetyResult, impact: Result<ImpactView>) returns (r: HelperWorkflowResult)
    ensures r == PlanChangesOf(files, description, assessImpact, check, impact)
  {
    var maxRisk, critical := PlanSafety(files, check);
    var impactAdvice: seq<string> := [];
    if assessImpact && files != [] {
      if impact.Err? {
        return Failure("plan_changes", "Change planning failed", "Fix planning error before proceeding", impact.msg);
      }
      if impact.value.overallRisk.None? {
        return Failure("plan_changes", "Change planning failed", "Fix planning error before proceeding",
                       MissingAttribute("ImpactAnalysis", "overall_risk"));
      }
      impactAdvice := impact.value.recommendations[..Min(2, |impact.value.recommendations|)];
    }
    r := PlanReport(|files|, description, maxRisk, |critical|, impactAdvice);
  }

  // ------------------------------------------------------------ systematic_fix_workflow

  /** A match's file is safe to fix: safe to modify and at most MEDIUM. */
  function SafeAt(check: string -> S.SafetyResult): P.PatternMatch -> bool
  {
    (m: P.PatternMatch) => check(m.file).safeToModify && S.RiskValue(check(m.file).riskLevel) <= 1
  }

  /** A match's file is high-risk: not safe to fix, and HIGH or above. */
  function HighRiskAt(check: string -> S.SafetyResult): P.PatternMatch -> bool
  {
    (m: P.PatternMatch) => !SafeAt(check)(m) && S.RiskValue(check(m.file).riskLevel) >= 2
  }

  function FileOf(m: P.PatternMatch): string
  {
    m.file
  }

  /** The loop of `systematic_fix_workflow`: the safe files and the high-risk files, in order. */
  method ClassifyMatches(ms: seq<P.PatternMatch>, check: string -> S.SafetyResult)
    returns (safe: seq<string>, highRisk: seq<string>)
    ensures safe == Collect(ms, SafeAt(check), FileOf)
    ensures highRisk == Collect(ms, HighRiskAt(check), FileOf)
  {
    safe, highRisk := [], [];
    for i := 0 to |ms|
      invariant safe == Collect(ms[..i], SafeAt(check), FileOf)
      invariant highRisk == Collect(ms[..i], HighRiskAt(check), FileOf)
    {
      var m := ms[i];
      var safety := check(m.file);
      assert ms[..i + 1][..i] == ms[..i];
      if safety.safeToModify && S.RiskValue(safety.riskLevel) <= 1 {
        safe := safe + [m.file];
      } else if S.RiskValue(safety.riskLevel) >= 2 {
        highRisk := highRisk + [m.file];
      }
    }
    assert ms[..|ms|] == ms;
  }

  function FixAdvice(count: int, safe: nat, highRisk: nat): seq<string>
  {
    (if safe > 0 then ["Apply fix to " + NatToString(safe) + " safe files first"] else [])
    + (if highRisk > 0 then ["Review " + NatToString(highRisk) + " high-risk files manually"] else [])
    + (if count > 20 then ["Large pattern set - consider batch processing"] else [])
  }

  function FixSummary(count: int, safe: nat, highRisk: nat): string
  {
    "Found " + IntToString(count) + " similar patterns (" + NatToString(safe) + " safe, "
    + NatToString(highRisk) + " high-risk)"
  }

  const UniqueFixSummary := "No similar patterns found - fix appears unique"
  const IsolatedFixAdvice := "Fix is isolated - no further action needed"

  /** `systematic_fix_workflow`, given what the scan returned or raised and the checker. */
  function SystematicFixOf(fixedFile: string, fixedLine: int, scan: Result<P.PatternScanResult>,
                           check: string -> S.SafetyResult): HelperWorkflowResult
  {
    match scan
    case Err(e) => Failure("systematic_fix", "Systematic fix workflow failed", "Fix workflow error before proceeding", e)
    case Ok(pr) =>
      if pr.count == 0 then
        HelperWorkflowResult("systematic_fix", true, UniqueFixSummary, NoPatternsContext, [IsolatedFixAdvice], 0)
      else
        var safe := |Collect(pr.matches, SafeAt(check), FileOf)|;
        var high := |Collect(pr.matches, HighRiskAt(check), FileOf)|;
        HelperWorkflowResult(
          "systematic_fix", true, FixSummary(pr.count, safe, high),
          FixContext(pr.count, safe, high, fixedFile, fixedLine), FixAdvice(pr.count, safe, high),
          Min(pr.count, 254))
  }

  /** Every file in a list comes from a match of that class. */
  lemma CollectedFile(ms: seq<P.PatternMatch>, p: P.PatternMatch -> bool, f: string)
    requires f in Collect(ms, p, FileOf)
    ensures exists i :: 0 <= i < |ms| && p(ms[i]) && ms[i].file == f
  {
    var k :| 0 <= k < |Collect(ms, p, FileOf)| && Collect(ms, p, FileOf)[k] == f;
    CollectSource(ms, p, FileOf, k);
  }

  /**
   * A scan that raises fails with exit code 255; one without patterns succeeds with exit code
   * 0; otherwise the exit code is the count capped at 254 and the context counts the safe
   * and the high-risk files.
   */
  lemma SystematicFixSpec(fixedFile: string, fixedLine: int, scan: Result<P.PatternScanResult>,
                          check: string -> S.SafetyResult)
    ensures var r := SystematicFixOf(fixedFile, fixedLine, scan, check);
      && (r.success <==> scan.Ok?)
      && (scan.Err? ==> r.exitCode == 255 && r.context == ErrorContext(scan.msg))
      && (scan.Ok? && scan.value.count == 0 ==> r.exitCode == 0 && r.context == NoPatternsContext)
      && (scan.Ok? && scan.value.count != 0 ==>
            && r.exitCode == Min(scan.value.count, 254)
            && r.context.safeFiles == |Collect(scan.value.matches, SafeAt(check), FileOf)|
            && r.context.highRiskFiles == |Collect(scan.value.matches, HighRiskAt(check), FileOf)|
            && r.context.safeFiles + r.context.highRiskFiles <= |scan.value.matches|)
  {
    if scan.Ok? && scan.value.count != 0 {
      var ms := scan.value.matches;
      CollectCountDisjoint(ms, check);
    }
  }

  /** The two lists never hold more files than there are matches, since no match is in both. */
  lemma {:induction false} CollectCountDisjoint(ms: seq<P.PatternMatch>, check: string -> S.SafetyResult)
    ensures |Collect(ms, SafeAt(check), FileOf)| + |Collect(ms, HighRiskAt(check), FileOf)| <= |ms|
  {
    if ms != [] {
      CollectCountDisjoint(ms[..|ms| - 1], check);
    }
  }

  /**
   * A file is listed as safe exactly when some match is in it and its check says safe to
   * modify and at most MEDIUM, as high-risk exactly when some match is in it and its check
   * is otherwise HIGH or above, and no file is in both lists.
   */
  lemma ClassificationSpec(ms: seq<P.PatternMatch>, check: string -> S.SafetyResult, f: string)
    ensures var cf := check(f);
      && (f in Collect(ms, SafeAt(check), FileOf) <==>
            (exists i :: 0 <= i < |ms| && ms[i].file == f) && cf.safeToModify && S.RiskValue(cf.riskLevel) <= 1)
      && (f in Collect(ms, HighRiskAt(check), FileOf) <==>
            (exists i :: 0 <= i < |ms| && ms[i].file == f) && !(cf.safeToModify && S.RiskValue(cf.riskLevel) <= 1) &&
            S.RiskValue(cf.riskLevel) >= 2)
      && !(f in Collect(ms, SafeAt(check), FileOf) && f in Collect(ms, HighRiskAt(check), FileOf))
  {
    if f in Collect(ms, SafeAt(check), FileOf) {
      CollectedFile(ms, SafeAt(check), f);
    }
    if f in Collect(ms, HighRiskAt(check), FileOf) {
      CollectedFile(ms, HighRiskAt(check), f);
    }
    if exists i :: 0 <= i < |ms| && ms[i].file == f {
      var i :| 0 <= i < |ms| && ms[i].file == f;
      assert SafeAt(check)(ms[i]) == SafeAt(check)(ms[i]);
    }
  }

  /** With the library checker every match is either safe or high-risk. */
  lemma {:induction false} LibraryClassifiesAll(ms: seq<P.PatternMatch>, fs: string -> S.FileState)
    ensures var check := (p: string) => S.CheckResult(S.DefaultConfig, p, fs(p));
      |Collect(ms, SafeAt(check), FileOf)| + |Collect(ms, HighRiskAt(check), FileOf)| == |ms|
  {
    if ms != [] {
      var n := |ms| - 1;
      LibraryClassifiesAll(ms[..n], fs);
      var f := ms[n].file;
      S.CheckResultSpec(S.DefaultConfig, f, fs(f));
    }
  }

  /** `systematic_fix_workflow`: the early return, the loop over the matches, then the report. */
  method SystematicFixWorkflow(fixedFile: string, fixedLine: int, scan: Result<P.PatternScanResult>,
                               check: string -> S.SafetyResult) returns (r: HelperWorkflowResult)
    ensures r == SystematicFixOf(fixedFile, fixedLine, scan, check)
  {
    if scan.Err? {
      return Failure("systematic_fix", "Systematic fix workflow failed", "Fix workflow error before proceeding", scan.msg);
    }
    var pr := scan.value;
    if pr.count == 0 {
      return HelperWorkflowResult("systematic_fix", true, UniqueFixSummary, NoPatternsContext, [IsolatedFixAdvice], 0);
    }
    var safe, highRisk := ClassifyMatches(pr.matches, check);
    r := HelperWorkflowResult(
      "systematic_fix", true, FixSummary(pr.count, |safe|, |highRisk|),
      FixContext(pr.count, |safe|, |highRisk|, fixedFile, fixedLine), FixAdvice(pr.count, |safe|, |highRisk|),
      Min(pr.count, 254));
  }

  // ------------------------------------------------------------ compare_configurations

  predicate IsMajor(d: D.FileDifference)
  {
    d.significance == D.Major
  }

  function CompareAdvice(diffCount: nat, semantic: nat): seq<string>
  {
    if diffCount > 0 then
      ["Found " + NatToString(diffCount) + " differences"]
      + (if semantic > 0 then [NatToString(semantic) + " major changes detected"] else [])
      + ["Review differences carefully before applying"]
    else ["Files are identical"]
  }

  /** The successful comparison report, from the number of differences and of MAJOR ones. */
  function CompareReport(file1: string, file2: string, n: nat, semantic: nat): HelperWorkflowResult
  {
    HelperWorkflowResult(
      "compare_configurations", true, "Compared " + file1 + " vs " + file2 + ": " + NatToString(n) + " differences",
      CompareContext(file1, file2, n, semantic), CompareAdvice(n, semantic), Min(n, 254))
  }

  /** `compare_configurations`, given what the file comparison returned or raised. */
  function CompareConfigurationsOf(file1: string, file2: string, diff: Result<D.DifferenceAnalysis>): HelperWorkflowResult
  {
    match diff
    case Err(e) => Failure("compare_configurations", "Configuration comparison failed",
                           "Fix comparison error before proceeding", e)
    case Ok(a) =>
      var n := |a.differences|;
      CompareReport(file1, file2, n, if n > 0 then CountWhere(a.differences, IsMajor) else 0)
  }

  /** "Files are identical" is the whole advice exactly when there are no differences. */
  lemma CompareAdviceSpec(n: nat, semantic: nat)
    ensures CompareAdvice(n, semantic) == ["Files are identical"] <==> n == 0
    ensures n > 0 ==> |CompareAdvice(n, semantic)| == (if semantic > 0 then 3 else 2)
  {
  }

  /**
   * A comparison that runs exits with the number of differences capped at 254, counts the
   * MAJOR differences among them, and recommends "Files are identical" exactly when there are
   * none; one that raises exits with 255.
   */
  lemma CompareConfigurationsSpec(file1: string, file2: string, diff: Result<D.DifferenceAnalysis>)
    ensures var r := CompareConfigurationsOf(file1, file2, diff);
      && (diff.Err? ==> !r.success && r.exitCode == 255 && r.context == ErrorContext(diff.msg))
      && (diff.Ok? ==>
            && r.success && 0 <= r.exitCode <= 254
            && r.exitCode == Min(|diff.value.differences|, 254)
            && r.context.semanticChanges <= r.context.differencesFound == |diff.value.differences|
            && (r.context.semanticChanges > 0 <==> exists i :: 0 <= i < |diff.value.differences| && IsMajor(diff.value.differences[i]))
            && (r.recommendations == ["Files are identical"] <==> diff.value.differences == []))
  {
    if diff.Ok? {
      var ds := diff.value.differences;
      var semantic := if |ds| > 0 then CountWhere(ds, IsMajor) else 0;
      CompareAdviceSpec(|ds|, semantic);
      if exists i :: 0 <= i < |ds| && IsMajor(ds[i]) {
        var i :| 0 <= i < |ds| && IsMajor(ds[i]);
        CountWhereMember(ds, IsMajor, i);
      } else {
        CountWhereNone(ds, IsMajor);
      }
    }
  }
}
