/**
 * The agent layer over the pattern scanner and the safety checker. After a fix it classifies
 * every similar match by the safety of its file, recommends what to do next and reports a
 * count as its exit code. It also aggregates the risk of a list of files to be changed.
 * The scanner's outcome and the checker arrive as parameters. The checker hands back an
 * object whose `warnings` attribute may be missing, and the library's `SafetyResult` has none.
 */
module AiAgent {
  import opened Common
  import S = SafetyChecker
  import P = PatternScanner

  /**
   * What `check_file_safety` hands back, as far as the agent reads it: the safety result,
   * and its `warnings` attribute when the object has one.
   */
  datatype Inspection = Inspection(safety: S.SafetyResult, warnings: Option<seq<string>>)

  type Checker = string -> Inspection

  /** The library checker over a file system: its results carry no `warnings`. */
  function LibraryChecker(fs: string -> S.FileState): Checker
  {
    p => Inspection(S.CheckResult(S.DefaultConfig, p, fs(p)), None)
  }

  // ------------------------------------------------------ classifying matches

  /** `risk_level in [RiskLevel.HIGH, RiskLevel.CRITICAL]`. */
  predicate IsHighRisk(l: S.RiskLevel)
  {
    l == S.High || l == S.Critical
  }

  /** One entry of `safety_results`. */
  datatype MatchSafety = MatchSafety(file: string, line: int, riskLevel: string, safeToModify: bool, confidence: real)

  function MatchSafetyOf(m: P.PatternMatch, check: Checker): MatchSafety
  {
    var s := check(m.file).safety;
    MatchSafety(m.file, m.line, S.RiskName(s.riskLevel), s.safeToModify, m.confidence)
  }

  /** The safety entries of the matches, in order. */
  function Details(ms: seq<P.PatternMatch>, check: Checker): (r: seq<MatchSafety>)
    ensures |r| == |ms|
  {
    if ms == [] then [] else Details(ms[..|ms| - 1], check) + [MatchSafetyOf(ms[|ms| - 1], check)]
  }

  /** A match goes to `high_risk_files`. */
  function HighRiskAt(check: Checker): P.PatternMatch -> bool
  {
    (m: P.PatternMatch) => IsHighRisk(check(m.file).safety.riskLevel)
  }

  /** A match goes to `safe_files`: not high-risk, and safe to modify. */
  function SafeAt(check: Checker): P.PatternMatch -> bool
  {
    (m: P.PatternMatch) => !IsHighRisk(check(m.file).safety.riskLevel) && check(m.file).safety.safeToModify
  }

  function FileOf(m: P.PatternMatch): string
  {
    m.file
  }

  function HighRiskFiles(ms: seq<P.PatternMatch>, check: Checker): seq<string>
  {
    Collect(ms, HighRiskAt(check), FileOf)
  }

  function SafeFiles(ms: seq<P.PatternMatch>, check: Checker): seq<string>
  {
    Collect(ms, SafeAt(check), FileOf)
  }

  /** Every file in a list comes from a match of that class. */
  lemma CollectedFile(ms: seq<P.PatternMatch>, p: P.PatternMatch -> bool, f: string)
    requires f in Collect(ms, p, FileOf)
    ensures exists i :: 0 <= i < |ms| && p(ms[i]) && ms[i].file == f
  {
    var k :| 0 <= k < |Collect(ms, p, FileOf)| && Collect(ms, p, FileOf)[k] == f;
    CollectSource(ms, p, FileOf, k);
  }

  /**
   * A file is listed as high-risk exactly when some match in it is HIGH or CRITICAL, and as
   * safe exactly when some match in it is neither and safe to modify; so no file is in both.
   */
  lemma ClassificationSpec(ms: seq<P.PatternMatch>, check: Checker, f: string)
    ensures f in HighRiskFiles(ms, check) <==>
      exists i :: 0 <= i < |ms| && ms[i].file == f && IsHighRisk(check(f).safety.riskLevel)
    ensures f in SafeFiles(ms, check) <==>
      exists i :: 0 <= i < |ms| && ms[i].file == f && !IsHighRisk(check(f).safety.riskLevel) && check(f).safety.safeToModify
    ensures !(f in HighRiskFiles(ms, check) && f in SafeFiles(ms, check))
  {
    if f in HighRiskFiles(ms, check) {
      CollectedFile(ms, HighRiskAt(check), f);
    }
    if f in SafeFiles(ms, check) {
      CollectedFile(ms, SafeAt(check), f);
    }
    if exists i :: 0 <= i < |ms| && ms[i].file == f && IsHighRisk(check(f).safety.riskLevel) {
      var i :| 0 <= i < |ms| && ms[i].file == f && IsHighRisk(check(f).safety.riskLevel);
      assert HighRiskAt(check)(ms[i]);
    }
    if exists i :: 0 <= i < |ms| && ms[i].file == f && !IsHighRisk(check(f).safety.riskLevel) && check(f).safety.safeToModify {
      var i :| 0 <= i < |ms| && ms[i].file == f && !IsHighRisk(check(f).safety.riskLevel) && check(f).safety.safeToModify;
      assert SafeAt(check)(ms[i]);
    }
  }

  /** With the library checker every match lands in exactly one of the two lists. */
  lemma {:induction false} LibraryClassifiesAll(ms: seq<P.PatternMatch>, fs: string -> S.FileState)
    ensures |HighRiskFiles(ms, LibraryChecker(fs))| + |SafeFiles(ms, LibraryChecker(fs))| == |ms|
  {
    if ms != [] {
      var n := |ms| - 1;
      LibraryClassifiesAll(ms[..n], fs);
      var f := ms[n].file;
      S.CheckResultSpec(S.DefaultConfig, f, fs(f));
    }
  }

  /** The loop of `fix_and_propagate_workflow` over the matches. */
  method AssessMatches(ms: seq<P.PatternMatch>, check: Checker)
    returns (details: seq<MatchSafety>, highRisk: seq<string>, safe: seq<string>)
    ensures details == Details(ms, check)
    ensures highRisk == HighRiskFiles(ms, check)
    ensures safe == SafeFiles(ms, check)
  {
    details, highRisk, safe := [], [], [];
    for i := 0 to |ms|
      invariant details == Details(ms[..i], check)
      invariant highRisk == HighRiskFiles(ms[..i], check)
      invariant safe == SafeFiles(ms[..i], check)
    {
      var m := ms[i];
      var s := check(m.file).safety;
      assert ms[..i + 1][..i] == ms[..i];
      details := details + [MatchSafetyOf(m, check)];
      if s.riskLevel in [S.High, S.Critical] {
        highRisk := highRisk + [m.file];
      } else if s.safeToModify {
        safe := safe + [m.file];
      }
    }
    assert ms[..|ms|] == ms;
  }

  // ------------------------------------------------------ recommendations

  /** The messages the workflow recommends. */
  datatype Advice =
    | NoPatterns
    | ApplyToSafe(safe: nat)
    | ReviewHighRisk(highRisk: nat)
    | Backups
    | BatchProcessing
    | NixPackages
    | HomebrewPackages
    | WorkflowError

  function AdviceText(a: Advice): string
  {
    match a
    case NoPatterns => "No similar patterns found - fix may be unique"
    case ApplyToSafe(n) => "Apply fix to " + NatToString(n) + " safe files first"
    case ReviewHighRisk(n) => "Review " + NatToString(n) + " high-risk files manually"
    case Backups => "Consider creating backups before modifying critical files"
    case BatchProcessing => "Large number of patterns found - consider batch processing"
    case NixPackages => "Nix home-manager package pattern - verify package availability"
    case HomebrewPackages => "Homebrew configuration - check package names and availability"
    case WorkflowError => "Fix workflow error before proceeding"
  }

  function SafePart(safe: nat): seq<Advice>
  {
    if safe > 0 then [ApplyToSafe(safe)] else []
  }

  function HighRiskPart(highRisk: nat): seq<Advice>
  {
    if highRisk > 0 then [ReviewHighRisk(highRisk), Backups] else []
  }

  function BatchPart(count: int): seq<Advice>
  {
    if count > 10 then [BatchProcessing] else []
  }

  function TypePart(t: P.PatternType): seq<Advice>
  {
    if t == P.MkifHomePackages then [NixPackages] else if t == P.HomebrewList then [HomebrewPackages] else []
  }

  /**
   * `_generate_recommendations`, from the count, the pattern type and the two list lengths.
   * No patterns give the one message; otherwise the safe-files advice is there exactly when
   * there are safe files, the review and backup advice exactly when there are high-risk files,
   * the batch advice exactly when there are more than ten patterns, and there are at most five
   * messages.
   */
  function Recommendations(count: int, t: P.PatternType, highRisk: nat, safe: nat): (r: seq<Advice>)
    ensures count == 0 ==> r == [NoPatterns]
    ensures count != 0 ==> (ApplyToSafe(safe) in r <==> safe > 0)
    ensures count != 0 ==> (Backups in r <==> highRisk > 0) && (ReviewHighRisk(highRisk) in r <==> highRisk > 0)
    ensures count != 0 ==> (BatchProcessing in r <==> count > 10)
    ensures count != 0 ==> NoPatterns !in r && |r| <= 5
  {
    if count == 0 then [NoPatterns]
    else SafePart(safe) + HighRiskPart(highRisk) + BatchPart(count) + TypePart(t)
  }

  /** `_generate_recommendations`, appending message by message. */
  method GenerateRecommendations(count: int, t: P.PatternType, highRisk: nat, safe: nat) returns (recs: seq<Advice>)
    ensures recs == Recommendations(count, t, highRisk, safe)
  {
    recs := [];
    if count == 0 {
      recs := recs + [NoPatterns];
      return;
    }
    if safe > 0 {
      recs := recs + [ApplyToSafe(safe)];
    }
    assert recs == SafePart(safe);
    if highRisk > 0 {
      recs := recs + [ReviewHighRisk(highRisk)];
      recs := recs + [Backups];
    }
    assert recs == SafePart(safe) + HighRiskPart(highRisk);
    if count > 10 {
      recs := recs + [BatchProcessing];
    }
    assert recs == SafePart(safe) + HighRiskPart(highRisk) + BatchPart(count);
    if t == P.MkifHomePackages {
      recs := recs + [NixPackages];
    } else if t == P.HomebrewList {
      recs := recs + [HomebrewPackages];
    }
  }

  // ------------------------------------------------------ the workflow summary

  const NoPatternsSummary := "No similar patterns found in codebase"

  function FoundText(total: int): string
  {
    "Found " + IntToString(total) + " similar patterns"
  }

  function SafeText(safe: nat): string
  {
    " (" + NatToString(safe) + " safe to modify"
  }

  function HighRiskText(highRisk: nat): string
  {
    ", " + NatToString(highRisk) + " high-risk"
  }

  /** `_create_workflow_summary`. */
  function WorkflowSummary(total: int, safe: nat, highRisk: nat): string
  {
    if total == 0 then NoPatternsSummary else FoundText(total) + SummaryTail(safe, highRisk)
  }

  /** What follows the count: the safe part, the high-risk part and the closing bracket. */
  function SummaryTail(safe: nat, highRisk: nat): string
  {
    (if safe > 0 then SafeText(safe) else "") + (if highRisk > 0 then HighRiskText(highRisk) else "")
    + (if safe > 0 then ")" else "")
  }

  /** The characters of a number's text are digits and the sign. */
  lemma NumberMarks(n: int, c: char)
    requires c == '(' || c == ')' || c == ','
    ensures Count(IntToString(n), c) == 0
  {
    if n >= 0 {
      CountZero(NatToString(n), c);
    } else {
      CountZero(NatToString(-n), c);
      CountConcat("-", NatToString(-n), c);
    }
  }

  lemma FoundMarks(total: int, c: char)
    requires c == '(' || c == ')' || c == ','
    ensures Count(FoundText(total), c) == 0
  {
    NumberMarks(total, c);
    CountZero("Found ", c);
    CountZero(" similar patterns", c);
    CountConcat("Found ", IntToString(total), c);
    CountConcat("Found " + IntToString(total), " similar patterns", c);
  }

  lemma SafeMarks(safe: nat, c: char)
    requires c == '(' || c == ')' || c == ','
    ensures Count(SafeText(safe), c) == (if c == '(' then 1 else 0)
  {
    var n := NatToString(safe);
    NumberMarks(safe, c);
    OpenMarks(c);
    CountZero(" safe to modify", c);
    CountConcat(" (", n, c);
    CountConcat(" (" + n, " safe to modify", c);
  }

  lemma OpenMarks(c: char)
    requires c == '(' || c == ')' || c == ','
    ensures Count(" (", c) == (if c == '(' then 1 else 0)
  {
    assert " ("[..1] == " ";
    assert " "[..0] == "";
  }

  lemma HighRiskMarks(highRisk: nat, c: char)
    requires c == '(' || c == ')' || c == ','
    ensures Count(HighRiskText(highRisk), c) == (if c == ',' then 1 else 0)
  {
    NumberMarks(highRisk, c);
    CountZero(" high-risk", c);
    CountConcat(", ", NatToString(highRisk), c);
    CountConcat(", " + NatToString(highRisk), " high-risk", c);
  }

  /** The count of one of the three marks in a summary with patterns. */
  lemma SummaryMarks(total: int, safe: nat, highRisk: nat, ch: char)
    requires total != 0 && (ch == '(' || ch == ')' || ch == ',')
    ensures Count(WorkflowSummary(total, safe, highRisk), ch) ==
      (if ch == ',' then (if highRisk > 0 then 1 else 0) else if safe > 0 then 1 else 0)
  {
    var b := if safe > 0 then SafeText(safe) else "";
    var c := if highRisk > 0 then HighRiskText(highRisk) else "";
    var d := if safe > 0 then ")" else "";
    CountConcat(FoundText(total), SummaryTail(safe, highRisk), ch);
    CountConcat(b, c, ch);
    CountConcat(b + c, d, ch);
    FoundMarks(total, ch);
    if safe > 0 {
      SafeMarks(safe, ch);
    }
    if highRisk > 0 {
      HighRiskMarks(highRisk, ch);
    }
  }

  /**
   * With patterns, the summary starts with the count, holds one opening and one closing
   * bracket exactly when there are safe files, and one comma exactly when there are
   * high-risk files; so the "(k safe to modify … )" part and the ", h high-risk" part are there
   * exactly in those cases.
   */
  lemma WorkflowSummarySpec(total: int, safe: nat, highRisk: nat)
    ensures total == 0 ==> WorkflowSummary(total, safe, highRisk) == NoPatternsSummary
    ensures total != 0 ==> StartsWith(WorkflowSummary(total, safe, highRisk), FoundText(total))
    ensures total != 0 ==> Count(WorkflowSummary(total, safe, highRisk), '(') == (if safe > 0 then 1 else 0)
    ensures total != 0 ==> Count(WorkflowSummary(total, safe, highRisk), ')') == (if safe > 0 then 1 else 0)
    ensures total != 0 ==> Count(WorkflowSummary(total, safe, highRisk), ',') == (if highRisk > 0 then 1 else 0)
  {
    if total != 0 {
      SummaryStart(total, safe, highRisk);
      SummaryMarks(total, safe, highRisk, '(');
      SummaryMarks(total, safe, highRisk, ')');
      SummaryMarks(total, safe, highRisk, ',');
    }
  }

  lemma SummaryStart(total: int, safe: nat, highRisk: nat)
    requires total != 0
    ensures StartsWith(WorkflowSummary(total, safe, highRisk), FoundText(total))
  {
    var a, rest := FoundText(total), SummaryTail(safe, highRisk);
    assert (a + rest)[..|a|] == a;
  }

  /** `_create_workflow_summary`, extending the text part by part. */
  method CreateWorkflowSummary(total: int, safe: nat, highRisk: nat) returns (summary: string)
    ensures summary == WorkflowSummary(total, safe, highRisk)
  {
    if total == 0 {
      return NoPatternsSummary;
    }
    summary := FoundText(total);
    if safe > 0 {
      summary := summary + SafeText(safe);
    }
    if highRisk > 0 {
      summary := summary + HighRiskText(highRisk);
    }
    if safe > 0 {
      summary := summary + ")";
    }
    Appends(FoundText(total), SafeText(safe), HighRiskText(highRisk), safe > 0, highRisk > 0);
  }

  /** Appending the optional parts one by one appends their concatenation. */
  lemma Appends(a: string, b: string, c: string, p: bool, q: bool)
    ensures (if p then (if q then a + b + c + ")" else a + b + ")") else if q then a + c else a) ==
      a + ((if p then b else "") + (if q then c else "") + (if p then ")" else ""))
  {
    if p && q {
      assert a + b + c + ")" == a + (b + c + ")");
    } else if p {
      assert b + "" + ")" == b + ")";
      assert a + b + ")" == a + (b + ")");
    } else if q {
      assert "" + c + "" == c;
    } else {
      assert "" + "" + "" == "";
      assert a + "" == a;
    }
  }

  // ------------------------------------------------------ fix_and_propagate_workflow

  /** The `similar_patterns` dict; the pattern type is absent after a failure. */
  datatype Patterns = Patterns(count: int, matches: seq<P.PatternMatch>, patternType: Option<string>)

  /** The `safety_assessment` dict. */
  datatype SafetyAssessment =
    | Assessed(safeFiles: nat, highRiskFiles: nat, totalAssessed: nat, details: seq<MatchSafety>)
    | AssessmentError(error: string)

  datatype WorkflowResult = WorkflowResult(
    workflowType: string,
    success: bool,
    summary: string,
    patterns: Patterns,
    safety: SafetyAssessment,
    recommendations: seq<Advice>,
    exitCode: int)

  const FixAndPropagate := "fix_and_propagate"

  /** The `except` branch, with `str(e)` of what the scan raised. */
  function WorkflowFailure(e: string): WorkflowResult
  {
    WorkflowResult(FixAndPropagate, false, "Workflow failed: " + e, Patterns(0, [], None), AssessmentError(e),
                   [WorkflowError], 255)
  }

  /** `fix_and_propagate_workflow`, given what the scan returned or raised. */
  function FixAndPropagateOf(scan: Result<P.PatternScanResult>, check: Checker): WorkflowResult
  {
    match scan
    case Err(e) => WorkflowFailure(e)
    case Ok(pr) =>
      var high := HighRiskFiles(pr.matches, check);
      var safe := SafeFiles(pr.matches, check);
      var success := |pr.matches| > 0;
      WorkflowResult(
        FixAndPropagate, success, WorkflowSummary(pr.count, |safe|, |high|),
        Patterns(pr.count, pr.matches, Some(P.TypeValue(pr.patternType))),
        Assessed(|safe|, |high|, |pr.matches|, Details(pr.matches, check)),
        Recommendations(pr.count, pr.patternType, |high|, |safe|),
        if success then Min(pr.count, 254) else 255)
  }

  /**
   * The workflow succeeds exactly when the scan found a match, and then exits with the count
   * capped at 254; with no match, or when the scan raised, it exits with 255. Every match is
   * assessed.
   */
  lemma FixAndPropagateSpec(scan: Result<P.PatternScanResult>, check: Checker)
    ensures var r := FixAndPropagateOf(scan, check);
      && (r.success <==> scan.Ok? && scan.value.matches != [])
      && (r.success ==> r.exitCode == Min(scan.value.count, 254) && r.exitCode <= 254)
      && (!r.success ==> r.exitCode == 255)
      && (scan.Ok? ==> r.safety.Assessed? && r.safety.totalAssessed == |scan.value.matches| &&
                       r.safety.safeFiles + r.safety.highRiskFiles <= |scan.value.matches|)
  {
    if scan.Ok? {
      var ms := scan.value.matches;
      CollectCount(ms, HighRiskAt(check), FileOf);
      CollectCount(ms, SafeAt(check), FileOf);
      var either := (m: P.PatternMatch) => HighRiskAt(check)(m) || SafeAt(check)(m);
      CountWhereDisjoint(ms, HighRiskAt(check), SafeAt(check), either);
    }
  }

  /** As many files are collected as elements pass. */
  lemma {:induction false} CollectCount<T, U>(xs: seq<T>, p: T -> bool, f: T -> U)
    ensures |Collect(xs, p, f)| == CountWhere(xs, p)
  {
    if xs != [] {
      CollectCount(xs[..|xs| - 1], p, f);
    }
  }

  /** With the library scanner, which finds nothing, the workflow never succeeds and exits 255. */
  lemma LibraryScanFails(
    targetFile: string, read: Result<seq<string>>, targetLine: int, exts: seq<string>,
    files: seq<P.SourceFile>, sameFile: string -> bool, maxResults: int, check: Checker)
    ensures var pr := P.ScanResult(targetFile, read, targetLine, None, exts, files, sameFile, maxResults);
      var r := FixAndPropagateOf(Ok(pr), check);
      !r.success && r.exitCode == 255 && r.recommendations == [NoPatterns] && r.summary == NoPatternsSummary
  {
    P.ScanFindsNothing(targetFile, read, targetLine, None, exts, files, sameFile, maxResults);
  }

  /** `fix_and_propagate_workflow`: assess every match, then recommend and summarise. */
  method FixAndPropagateWorkflow(scan: Result<P.PatternScanResult>, check: Checker) returns (r: WorkflowResult)
    ensures r == FixAndPropagateOf(scan, check)
  {
    if scan.Err? {
      return WorkflowFailure(scan.msg);
    }
    var pr := scan.value;
    var details, highRisk, safe := AssessMatches(pr.matches, check);
    var recommendations := GenerateRecommendations(pr.count, pr.patternType, |highRisk|, |safe|);
    var success := |pr.matches| > 0;
    var exitCode := if success then Min(pr.count, 254) else 255;
    var summary := CreateWorkflowSummary(pr.count, |safe|, |highRisk|);
    r := WorkflowResult(
      FixAndPropagate, success, summary, Patterns(pr.count, pr.matches, Some(P.TypeValue(pr.patternType))),
      Assessed(|safe|, |highRisk|, |details|, details), recommendations, exitCode);
  }

  // ------------------------------------------------------ assess_change_safety

  /** One entry of `safety_results`. */
  datatype FileSafety = FileSafety(file: string, riskLevel: string, safeToModify: bool, warnings: seq<string>)

  /** The lists the loop builds: the entries, the risk values, the CRITICAL files and the warnings. */
  datatype Survey = Survey(entries: seq<FileSafety>, risks: seq<nat>, critical: seq<string>, warnings: seq<string>)

  const NoWarningsError := "'SafetyResult' object has no attribute 'warnings'"

  /** The loop over the files: the first result without `warnings` raises. */
  function SurveyOf(files: seq<string>, check: Checker): Result<Survey>
  {
    if files == [] then Ok(Survey([], [], [], []))
    else
      match SurveyOf(files[..|files| - 1], check)
      case Err(e) => Err(e)
      case Ok(s) =>
        var f := files[|files| - 1];
        var c := check(f);
        if c.warnings.None? then Err(NoWarningsError)
        else
          var level := c.safety.riskLevel;
          Ok(Survey(s.entries + [FileSafety(f, S.RiskName(level), c.safety.safeToModify, c.warnings.value)],
                    s.risks + [S.RiskValue(level)],
                    if level == S.Critical then s.critical + [f] else s.critical,
                    s.warnings + c.warnings.value))
  }

  /** The report `assess_change_safety` returns, or its `except` branch. */
  datatype ChangeSafety =
    | ChangeSafety(
        safeToProceed: bool,
        riskLevel: string,
        maxRiskValue: nat,
        warnings: set<string>,
        criticalFiles: seq<string>,
        fileAssessments: seq<FileSafety>,
        totalFiles: nat,
        exitCode: int)
    | SafetyFailure(safeToProceed: bool, riskLevel: string, error: string, messages: seq<string>,
                    criticalFiles: seq<string>, exitCode: int)

  /** `assess_change_safety`. */
  function ChangeSafetyOf(files: seq<string>, check: Checker): ChangeSafety
  {
    match SurveyOf(files, check)
    case Err(e) => SafetyFailure(false, "error", e, ["Safety assessment failed: " + e], [], 255)
    case Ok(s) =>
      var m := SeqMax(s.risks);
      ChangeSafety(m <= 1 && |s.critical| == 0, S.RiskWord(m), m, (set w | w in s.warnings), s.critical,
                   s.entries, |files|, m)
  }

  function RiskOf(check: Checker, f: string): nat
  {
    S.RiskValue(check(f).safety.riskLevel)
  }

  function IsCriticalAt(check: Checker): string -> bool
  {
    f => check(f).safety.riskLevel == S.Critical
  }

  /**
   * The loop raises exactly when some file's result has no `warnings`; otherwise it records
   * one risk value per file and the CRITICAL files in order.
   */
  lemma {:induction false} SurveySpec(files: seq<string>, check: Checker)
    ensures SurveyOf(files, check).Ok? <==> forall i :: 0 <= i < |files| ==> check(files[i]).warnings.Some?
    ensures SurveyOf(files, check).Err? ==> SurveyOf(files, check).msg == NoWarningsError
    ensures SurveyOf(files, check).Ok? ==>
      var s := SurveyOf(files, check).value;
      && |s.risks| == |files| && |s.entries| == |files|
      && (forall i :: 0 <= i < |files| ==> s.risks[i] == RiskOf(check, files[i]))
      && s.critical == Filter(files, IsCriticalAt(check))
  {
    if files != [] {
      var n := |files| - 1;
      SurveySpec(files[..n], check);
      assert forall i :: 0 <= i < n ==> files[..n][i] == files[i];
    }
  }

  /** Once the loop over a prefix raises, so does the loop over all files. */
  lemma {:induction false} SurveyErr(files: seq<string>, check: Checker, k: nat)
    requires k <= |files| && SurveyOf(files[..k], check).Err?
    ensures SurveyOf(files, check) == SurveyOf(files[..k], check)
    decreases |files| - k
  {
    if k < |files| {
      assert files[..k + 1][..k] == files[..k];
      SurveyErr(files, check, k + 1);
    } else {
      assert files[..k] == files;
    }
  }

  /** No critical file is collected when every risk is at most MEDIUM. */
  lemma {:induction false} NoCriticals(files: seq<string>, check: Checker)
    requires forall i :: 0 <= i < |files| ==> RiskOf(check, files[i]) <= 1
    ensures Filter(files, IsCriticalAt(check)) == []
  {
    if files != [] {
      NoCriticals(files[..|files| - 1], check);
    }
  }

  /**
   * The report is the failure branch exactly when some result lacks `warnings`; otherwise the
   * maximum risk is the largest per-file value (0 for no files), the exit code is that maximum,
   * and the change is safe to proceed exactly when every file's risk is at most MEDIUM, which
   * rules out CRITICAL files.
   */
  lemma ChangeSafetySpec(files: seq<string>, check: Checker)
    ensures var r := ChangeSafetyOf(files, check);
      && (r.SafetyFailure? <==> exists i :: 0 <= i < |files| && check(files[i]).warnings.None?)
      && (r.SafetyFailure? ==> r.exitCode == 255 && !r.safeToProceed && r.error == NoWarningsError)
      && (r.ChangeSafety? ==>
            && (forall i :: 0 <= i < |files| ==> RiskOf(check, files[i]) <= r.maxRiskValue)
            && (files == [] ==> r.maxRiskValue == 0)
            && (files != [] ==> exists i :: 0 <= i < |files| && RiskOf(check, files[i]) == r.maxRiskValue)
            && r.exitCode == r.maxRiskValue <= 3
            && r.totalFiles == |files|
            && r.criticalFiles == Filter(files, IsCriticalAt(check))
            && (r.safeToProceed <==> forall i :: 0 <= i < |files| ==> RiskOf(check, files[i]) <= 1))
  {
    SurveySpec(files, check);
    var sv := SurveyOf(files, check);
    if sv.Ok? {
      MaxRiskSpec(files, check, sv.value.risks);
      if forall i :: 0 <= i < |files| ==> RiskOf(check, files[i]) <= 1 {
        NoCriticals(files, check);
      }
    }
  }

  /** The maximum of the recorded risk values bounds every file's risk and is one of them. */
  lemma MaxRiskSpec(files: seq<string>, check: Checker, risks: seq<nat>)
    requires |risks| == |files| && forall i :: 0 <= i < |files| ==> risks[i] == RiskOf(check, files[i])
    ensures forall i :: 0 <= i < |files| ==> RiskOf(check, files[i]) <= SeqMax(risks)
    ensures files == [] ==> SeqMax(risks) == 0
    ensures files != [] ==> exists i :: 0 <= i < |files| && RiskOf(check, files[i]) == SeqMax(risks)
    ensures SeqMax(risks) <= 3
  {
    var m := SeqMax(risks);
    forall i | 0 <= i < |files| ensures RiskOf(check, files[i]) <= m {
      assert risks[i] <= m;
    }
    if files != [] {
      var k :| 0 <= k < |risks| && risks[k] == m;
      assert RiskOf(check, files[k]) == m;
    }
  }

  /** With the library checker any non-empty list of files ends in the failure branch. */
  lemma LibraryAssessmentFails(files: seq<string>, fs: string -> S.FileState)
    requires files != []
    ensures var r := ChangeSafetyOf(files, LibraryChecker(fs));
      r.SafetyFailure? && r.exitCode == 255 && !r.safeToProceed && r.riskLevel == "error"
  {
    ChangeSafetySpec(files, LibraryChecker(fs));
    assert LibraryChecker(fs)(files[0]).warnings.None?;
  }

  /** `assess_change_safety`: the loop over the files, then the verdict. */
  method AssessChangeSafety(files: seq<string>, check: Checker) returns (r: ChangeSafety)
    ensures r == ChangeSafetyOf(files, check)
  {
    var entries: seq<FileSafety> := [];
    var risks: seq<nat> := [];
    var critical: seq<string> := [];
    var warnings: seq<string> := [];
    for i := 0 to |files|
      invariant SurveyOf(files[..i], check) == Ok(Survey(entries, risks, critical, warnings))
    {
      var f := files[i];
      var c := check(f);
      assert files[..i + 1][..i] == files[..i];
      if c.warnings.None? {
        SurveyErr(files, check, i + 1);
        return SafetyFailure(false, "error", NoWarningsError, ["Safety assessment failed: " + NoWarningsError], [], 255);
      }
      var level := c.safety.riskLevel;
      entries := entries + [FileSafety(f, S.RiskName(level), c.safety.safeToModify, c.warnings.value)];
      risks := risks + [S.RiskValue(level)];
      warnings := warnings + c.warnings.value;
      if level == S.Critical {
        critical := critical + [f];
      }
      assert SurveyOf(files[..i + 1], check) == Ok(Survey(entries, risks, critical, warnings));
    }
    assert files[..|files|] == files;
    var maxRisk := SeqMax(risks);
    r := ChangeSafety(maxRisk <= 1 && |critical| == 0, S.RiskWord(maxRisk), maxRisk, (set w | w in warnings),
                      critical, entries, |files|, maxRisk);
  }
}
