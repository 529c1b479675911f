/**
 * The standalone safety-check script: the same analysis as the library checker, run inline
 * with a single read of the file, and the risk level as the process's exit code.
 */
module StandaloneSafetyCheck {
  import opened Common
  import opened SafetyChecker

  /** The markers the script spells: U+1F6D1, U+1F6A8, U+26A0 U+FE0F and U+2705. */
  const ScriptMarks: Marks := Marks("\U{1F6D1}", "\U{1F6A8}", "\U{26A0}\U{FE0F}", "\U{2705}")

  /** `check_file_safety` of the script: `read` is the outcome of its only read of the file. */
  function ScriptResult(cfg: Config, path: string, present: bool, read: Result<string>): SafetyResult
  {
    if !present then SafetyResult(Critical, ["File does not exist"], false, ["Check file path"])
    else
      var name := FileName(path);
      var a := Analyze(cfg, ScriptMarks, name, Suffix(name), read);
      SafetyResult(a.level, a.reasons, RiskValue(a.level) <= RiskValue(Medium), a.recommendations)
  }

  /** The script's inline `check_file_safety`: existence, name and suffix tests, the pattern loops and the closing advice. */
  method CheckFileSafety(cfg: Config, path: string, present: bool, read: Result<string>) returns (r: SafetyResult)
    ensures r == ScriptResult(cfg, path, present, read)
  {
    if !present {
      return SafetyResult(Critical, ["File does not exist"], false, ["Check file path"]);
    }
    var name := FileName(path);
    var suffix := Suffix(name);
    var level, reasons, recommendations := ClassifyName(cfg, ScriptMarks, name, suffix);
    ghost var s := Assessment(level, reasons, recommendations);
    match read {
      case Ok(content) =>
        level, reasons, recommendations := ScanHigh(ScriptMarks, content, cfg.highRiskPatterns, level, reasons, recommendations);
        if RiskValue(level) < RiskValue(High) {
          level, reasons := ScanMedium(ScriptMarks, content, cfg.mediumRiskPatterns, level, reasons, recommendations);
        }
      case Err(e) =>
        reasons := reasons + ["Could not read file: " + e];
        if level == Safe {
          level := Medium;
        }
    }
    assert Assessment(level, reasons, recommendations) == ContentStep(cfg, ScriptMarks, s, read);
    var safeToModify := RiskValue(level) <= RiskValue(Medium);
    recommendations := recommendations + [Closing(ScriptMarks, level)];
    r := SafetyResult(level, reasons, safeToModify, recommendations);
  }

  /** `sys.exit(result.risk_level.value)`. */
  function ExitCode(r: SafetyResult): nat
  {
    RiskValue(r.riskLevel)
  }

  /**
   * The exit code is the risk level, 0 to 3; the script's `value <= MEDIUM` test is the
   * library's SAFE-or-MEDIUM test, so a caller can read "safe to modify" off `code <= 1`.
   */
  lemma ExitCodeSpec(cfg: Config, path: string, present: bool, read: Result<string>)
    ensures var r := ScriptResult(cfg, path, present, read);
      && ExitCode(r) <= 3
      && RiskOfValue(ExitCode(r)) == Some(r.riskLevel)
      && (r.safeToModify <==> ExitCode(r) <= 1)
      && (r.safeToModify <==> SafeToModify(r.riskLevel))
      && (!present ==> ExitCode(r) == 3)
  {
    var r := ScriptResult(cfg, path, present, read);
    match r.riskLevel
    case Safe =>
    case Medium =>
    case High =>
    case Critical =>
  }

  /**
   * On a file that exists and reads the same both times, the script and the library agree on
   * the level and on whether the file is safe to modify (their messages differ only in markers).
   */
  lemma AgreesWithLibrary(cfg: Config, path: string, c: string)
    ensures var s := ScriptResult(cfg, path, true, Ok(c));
      var l := CheckResult(cfg, path, FileState(true, Ok(c), Ok(c)));
      s.riskLevel == l.riskLevel && s.safeToModify == l.safeToModify
  {
    var name := FileName(path);
    AnalyzeLevel(cfg, ScriptMarks, name, Suffix(name), Ok(c));
    AnalyzeLevel(cfg, LibraryMarks, name, Suffix(name), Ok(c));
    CheckResultSpec(cfg, path, FileState(true, Ok(c), Ok(c)));
  }

  /**
   * They part on an unreadable file: the library stops at HIGH, not safe; the script notes the
   * failure and an unlisted file with an unlisted suffix becomes MEDIUM, still safe to modify.
   */
  lemma UnreadableFileDiffers(cfg: Config, path: string, e: string, e2: string)
    requires var n := FileName(path);
      n !in cfg.criticalFiles && n !in cfg.highRiskFiles && Suffix(n) !in cfg.mediumRiskExtensions
    ensures var s := ScriptResult(cfg, path, true, Err(e));
      s.riskLevel == Medium && s.safeToModify && ExitCode(s) == 1
    ensures var l := CheckResult(cfg, path, FileState(true, Err(e), Err(e2)));
      l.riskLevel == High && !l.safeToModify
  {
    var name := FileName(path);
    AnalyzeLevel(cfg, ScriptMarks, name, Suffix(name), Err(e));
  }

  /** The script's markers cannot start an advice text, and its four closing texts differ. */
  lemma ScriptMarksDistinct()
    ensures DistinctMarks(ScriptMarks)
    ensures forall l, l' :: Closing(ScriptMarks, l) == Closing(ScriptMarks, l') ==> l == l'
  {
  }
}
