/**
 * The safety checker: a risk level per file, from the file's name and suffix and from
 * patterns in its text. The level only ever rises while a file is analysed; it is the join
 * of a level given by the name and suffix and a level given by the content.
 */
module SafetyChecker {
  import opened Common

  datatype RiskLevel = Safe | Medium | High | Critical

  function RiskValue(l: RiskLevel): nat
  {
    match l
    case Safe => 0
    case Medium => 1
    case High => 2
    case Critical => 3
  }

  function RiskName(l: RiskLevel): string
  {
    match l
    case Safe => "SAFE"
    case Medium => "MEDIUM"
    case High => "HIGH"
    case Critical => "CRITICAL"
  }

  /** The level with a given value, as `RiskLevel(v)` looks it up. */
  function RiskOfValue(v: int): Option<RiskLevel>
  {
    if v == 0 then Some(Safe) else if v == 1 then Some(Medium)
    else if v == 2 then Some(High) else if v == 3 then Some(Critical) else None
  }

  /**
   * The lower-case names the agent layers give risk values, as
   * `{0: "safe", 1: "medium", 2: "high", 3: "critical"}.get(v, "unknown")` looks them up.
   */
  function RiskWord(v: int): (r: string)
    ensures 0 <= v <= 3 <==> r != "unknown"
  {
    if v == 0 then "safe" else if v == 1 then "medium" else if v == 2 then "high"
    else if v == 3 then "critical" else "unknown"
  }

  /** The higher of two levels. */
  function Join(a: RiskLevel, b: RiskLevel): (r: RiskLevel)
    ensures RiskValue(r) == Max(RiskValue(a), RiskValue(b))
    ensures r == a || r == b
  {
    if RiskValue(a) >= RiskValue(b) then a else b
  }

  /** `risk_level in [RiskLevel.SAFE, RiskLevel.MEDIUM]`. */
  predicate SafeToModify(l: RiskLevel)
  {
    l == Safe || l == Medium
  }

  datatype SafetyResult = SafetyResult(riskLevel: RiskLevel, reasons: seq<string>, safeToModify: bool,
                                       recommendations: seq<string>)

  // ------------------------------------------------------------ serialisation

  /** `SafetyResult.to_dict`. */
  datatype ResultDict = ResultDict(riskLevel: nat, riskName: string, safeToModify: bool, reasons: seq<string>,
                                   recommendations: seq<string>)

  function ToDict(r: SafetyResult): ResultDict
  {
    ResultDict(RiskValue(r.riskLevel), RiskName(r.riskLevel), r.safeToModify, r.reasons, r.recommendations)
  }

  /** `SafetyResult.to_ai_format`: keys "r" and "s" always; "reasons" and "recs" only when non-empty. */
  datatype AiFormat = AiFormat(r: nat, s: bool, reasons: Option<seq<string>>, recs: Option<seq<string>>)

  function ToAiFormat(res: SafetyResult): AiFormat
  {
    AiFormat(RiskValue(res.riskLevel), res.safeToModify,
             if res.reasons != [] then Some(res.reasons) else None,
             if res.recommendations != [] then Some(res.recommendations) else None)
  }

  /** A reader of the compact format that takes a missing list as empty. */
  function FromAiFormat(f: AiFormat): Option<SafetyResult>
  {
    match RiskOfValue(f.r)
    case None => None
    case Some(l) =>
      Some(SafetyResult(l, match f.reasons case Some(rs) => rs case None => [], f.s,
                        match f.recs case Some(rs) => rs case None => []))
  }

  /**
   * The compact format keeps "r" and "s", omits exactly the empty lists, and loses nothing: a
   * reader that takes a missing list as empty gets the result back.
   */
  lemma AiFormatRoundTrip(res: SafetyResult)
    ensures var f := ToAiFormat(res);
      && f.r == RiskValue(res.riskLevel) && f.s == res.safeToModify
      && (f.reasons.Some? <==> res.reasons != []) && (f.recs.Some? <==> res.recommendations != [])
      && FromAiFormat(f) == Some(res)
  {
    match res.riskLevel
    case Safe =>
    case Medium =>
    case High =>
    case Critical =>
  }

  /** The value and the name in `to_dict` each determine the level. */
  lemma ToDictDeterminesLevel(a: SafetyResult, b: SafetyResult)
    ensures ToDict(a).riskLevel == ToDict(b).riskLevel <==> a.riskLevel == b.riskLevel
    ensures ToDict(a).riskName == ToDict(b).riskName <==> a.riskLevel == b.riskLevel
    ensures RiskOfValue(ToDict(a).riskLevel) == Some(a.riskLevel)
  {
    if RiskName(a.riskLevel) == RiskName(b.riskLevel) {
      assert RiskName(a.riskLevel)[0] == RiskName(b.riskLevel)[0];
    }
  }

  // ------------------------------------------------------------ configuration

  /** The lists `SafetyChecker.__init__` sets up. */
  datatype Config = Config(criticalFiles: set<string>, highRiskFiles: set<string>, highRiskPatterns: seq<string>,
                           mediumRiskExtensions: set<string>, mediumRiskPatterns: seq<string>)

  const DefaultConfig: Config :=
    Config({"flake.nix", "flake.lock"}, {"configuration.nix", "hardware-configuration.nix"},
           ["system.stateVersion", "ids.gids", "ids.uids", "boot.loader", "networking.hostName"],
           {".nix", ".toml", ".json", ".yml", ".yaml"},
           ["environment.systemPackages", "services.", "programs."])

  /**
   * The four markers that open the messages: stop, siren, caution and check mark. The library
   * file spells them as the Mac Roman reading of the emoji's UTF-8 bytes; the standalone
   * script spells the emoji themselves.
   */
  datatype Marks = Marks(stop: string, siren: string, caution: string, check: string)

  const LibraryMarks: Marks :=
    Marks("\U{F8FF}\U{FC}\U{F5}\U{EB}", "\U{F8FF}\U{FC}\U{F6}\U{AE}", "\U{201A}\U{F6}\U{2020}\U{D4}\U{220F}\U{E8}",
          "\U{201A}\U{FA}\U{D6}")

  // ---------------------------------------------------------------- analysis

  /** The level and the two lists `_analyze_file_content` builds up. */
  datatype Assessment = Assessment(level: RiskLevel, reasons: seq<string>, recommendations: seq<string>)

  /** The file-name test: a critical file, a high-risk file, or a SAFE start. */
  function NameStep(cfg: Config, marks: Marks, name: string): Assessment
  {
    if name in cfg.criticalFiles then
      Assessment(Critical, [marks.stop + " Critical system file: " + name], ["Create backup and test in VM first"])
    else if name in cfg.highRiskFiles then
      Assessment(High, [marks.siren + " High-risk system file: " + name], ["Make backup before modifying"])
    else Assessment(Safe, [], [])
  }

  /** A configuration suffix lifts SAFE to MEDIUM. */
  function SuffixStep(cfg: Config, marks: Marks, a: Assessment, suffix: string): Assessment
  {
    if suffix in cfg.mediumRiskExtensions && a.level == Safe then
      a.(level := Medium, reasons := a.reasons + [marks.caution + " Configuration file: " + suffix])
    else a
  }

  /** The high-risk pattern loop: each pattern in the text adds a reason and a recommendation and lifts the level to HIGH. */
  function HighScan(marks: Marks, c: string, ps: seq<string>, a: Assessment): Assessment
  {
    if ps == [] then a
    else
      var b := HighScan(marks, c, ps[..|ps| - 1], a);
      var p := ps[|ps| - 1];
      if Contains(c, p) then
        Assessment(if RiskValue(b.level) < RiskValue(High) then High else b.level,
                   b.reasons + [marks.siren + " Contains critical pattern: " + p],
                   b.recommendations + ["Be very careful when modifying " + p])
      else b
  }

  /** The medium-risk pattern loop: each pattern in the text adds a reason and lifts SAFE to MEDIUM. */
  function MediumScan(marks: Marks, c: string, ps: seq<string>, a: Assessment): Assessment
  {
    if ps == [] then a
    else
      var b := MediumScan(marks, c, ps[..|ps| - 1], a);
      var p := ps[|ps| - 1];
      if Contains(c, p) then
        b.(level := if b.level == Safe then Medium else b.level,
           reasons := b.reasons + [marks.caution + " Contains system pattern: " + p])
      else b
  }

  /** Reading the file again: the pattern loops on its text, or a reason and SAFE lifted to MEDIUM on failure. */
  function ContentStep(cfg: Config, marks: Marks, a: Assessment, read: Result<string>): Assessment
  {
    match read
    case Ok(c) =>
      var h := HighScan(marks, c, cfg.highRiskPatterns, a);
      if RiskValue(h.level) < RiskValue(High) then MediumScan(marks, c, cfg.mediumRiskPatterns, h) else h
    case Err(e) =>
      a.(level := if a.level == Safe then Medium else a.level, reasons := a.reasons + ["Could not read file: " + e])
  }

  /** The closing recommendation for a level. */
  function Closing(marks: Marks, l: RiskLevel): string
  {
    match l
    case Safe => marks.check + " Safe to modify"
    case Medium => marks.caution + " Proceed with caution, test changes"
    case High => marks.siren + " High risk - make backups, test thoroughly"
    case Critical => marks.stop + " Critical risk - consider alternative approach"
  }

  /** `_analyze_file_content`, `read` the outcome of opening and decoding the file once more. */
  function Analyze(cfg: Config, marks: Marks, name: string, suffix: string, read: Result<string>): Assessment
  {
    var a := ContentStep(cfg, marks, SuffixStep(cfg, marks, NameStep(cfg, marks, name), suffix), read);
    a.(recommendations := a.recommendations + [Closing(marks, a.level)])
  }

  // ------------------------------------------------------- the risk lattice

  /** The level the name and suffix give. */
  function BaseLevel(cfg: Config, name: string, suffix: string): RiskLevel
  {
    if name in cfg.criticalFiles then Critical
    else if name in cfg.highRiskFiles then High
    else if suffix in cfg.mediumRiskExtensions then Medium
    else Safe
  }

  /** The level the text gives: HIGH for a high-risk pattern, MEDIUM for a medium one or a failed read. */
  function ContentLevel(cfg: Config, read: Result<string>): RiskLevel
  {
    match read
    case Err(_) => Medium
    case Ok(c) =>
      if ContainsAny(c, cfg.highRiskPatterns) then High
      else if ContainsAny(c, cfg.mediumRiskPatterns) then Medium
      else Safe
  }

  /** A recommendation other than a closing one starts with 'C', 'M' or 'B'. */
  predicate Advice(s: string)
  {
    |s| > 0 && (s[0] == 'C' || s[0] == 'M' || s[0] == 'B')
  }

  predicate AllAdvice(recs: seq<string>)
  {
    forall k :: 0 <= k < |recs| ==> Advice(recs[k])
  }

  /** Markers that no advice text can be confused with. */
  predicate DistinctMarks(marks: Marks)
  {
    && |marks.stop| > 0 && |marks.siren| > 0 && |marks.caution| > 0 && |marks.check| > 0
    && !Advice(marks.stop) && !Advice(marks.siren) && !Advice(marks.caution) && !Advice(marks.check)
  }

  /**
   * The high-risk loop joins the level with HIGH exactly when some pattern occurs, and adds to
   * both lists (advice only) exactly then.
   */
  lemma {:induction false} HighScanSpec(marks: Marks, c: string, ps: seq<string>, a: Assessment)
    ensures var r := HighScan(marks, c, ps, a);
      && r.level == (if ContainsAny(c, ps) then Join(a.level, High) else a.level)
      && |r.reasons| >= |a.reasons| && r.reasons[..|a.reasons|] == a.reasons
      && |r.recommendations| >= |a.recommendations| && r.recommendations[..|a.recommendations|] == a.recommendations
      && (|r.reasons| > |a.reasons| <==> ContainsAny(c, ps))
      && (AllAdvice(a.recommendations) ==> AllAdvice(r.recommendations))
  {
    if ps != [] {
      var init := ps[..|ps| - 1];
      HighScanSpec(marks, c, init, a);
      var b := HighScan(marks, c, init, a);
      var p := ps[|ps| - 1];
      if Contains(c, p) {
        assert (b.reasons + [marks.siren + " Contains critical pattern: " + p])[..|a.reasons|] == b.reasons[..|a.reasons|];
        assert (b.recommendations + ["Be very careful when modifying " + p])[..|a.recommendations|]
            == b.recommendations[..|a.recommendations|];
        assert ("Be very careful when modifying " + p)[0] == 'B';
      }
    }
  }

  /** The medium-risk loop lifts SAFE to MEDIUM exactly when some pattern occurs, adds reasons exactly then, and no recommendation. */
  lemma {:induction false} MediumScanSpec(marks: Marks, c: string, ps: seq<string>, a: Assessment)
    ensures var r := MediumScan(marks, c, ps, a);
      && r.level == (if ContainsAny(c, ps) && a.level == Safe then Medium else a.level)
      && |r.reasons| >= |a.reasons| && r.reasons[..|a.reasons|] == a.reasons
      && r.recommendations == a.recommendations
      && (|r.reasons| > |a.reasons| <==> ContainsAny(c, ps))
  {
    if ps != [] {
      var init := ps[..|ps| - 1];
      MediumScanSpec(marks, c, init, a);
      var b := MediumScan(marks, c, init, a);
      var p := ps[|ps| - 1];
      if Contains(c, p) {
        assert (b.reasons + [marks.caution + " Contains system pattern: " + p])[..|a.reasons|] == b.reasons[..|a.reasons|];
      }
    }
  }

  /** The final level is the join of the name-and-suffix level and the content level. */
  lemma AnalyzeLevel(cfg: Config, marks: Marks, name: string, suffix: string, read: Result<string>)
    ensures Analyze(cfg, marks, name, suffix, read).level == Join(BaseLevel(cfg, name, suffix), ContentLevel(cfg, read))
  {
    var s := SuffixStep(cfg, marks, NameStep(cfg, marks, name), suffix);
    assert s.level == BaseLevel(cfg, name, suffix);
    if read.Ok? {
      var c := read.value;
      HighScanSpec(marks, c, cfg.highRiskPatterns, s);
      var h := HighScan(marks, c, cfg.highRiskPatterns, s);
      if RiskValue(h.level) < RiskValue(High) {
        MediumScanSpec(marks, c, cfg.mediumRiskPatterns, h);
      }
    }
  }

  /** The level never falls: it is at least what the name and suffix give and at least what the text gives. */
  lemma AnalyzeMonotone(cfg: Config, marks: Marks, name: string, suffix: string, read: Result<string>)
    ensures var l := RiskValue(Analyze(cfg, marks, name, suffix, read).level);
      l >= RiskValue(BaseLevel(cfg, name, suffix)) && l >= RiskValue(ContentLevel(cfg, read))
  {
    AnalyzeLevel(cfg, marks, name, suffix, read);
  }

  /** A file is SAFE exactly when no reason is given. */
  lemma SafeIffNoReasons(cfg: Config, marks: Marks, name: string, suffix: string, read: Result<string>)
    ensures var a := Analyze(cfg, marks, name, suffix, read);
      a.level == Safe <==> a.reasons == []
  {
    var n := NameStep(cfg, marks, name);
    var s := SuffixStep(cfg, marks, n, suffix);
    assert s.level == Safe <==> s.reasons == [];
    if read.Ok? {
      var c := read.value;
      HighScanSpec(marks, c, cfg.highRiskPatterns, s);
      var h := HighScan(marks, c, cfg.highRiskPatterns, s);
      if RiskValue(h.level) < RiskValue(High) {
        MediumScanSpec(marks, c, cfg.mediumRiskPatterns, h);
      }
    }
  }

  /** The last recommendation is the one closing the final level, and no earlier one is a closing one. */
  lemma ClosingLastAndOnce(cfg: Config, marks: Marks, name: string, suffix: string, read: Result<string>)
    requires DistinctMarks(marks)
    ensures var a := Analyze(cfg, marks, name, suffix, read);
      && |a.recommendations| > 0 && a.recommendations[|a.recommendations| - 1] == Closing(marks, a.level)
      && forall k, l :: 0 <= k < |a.recommendations| - 1 ==> a.recommendations[k] != Closing(marks, l)
  {
    var n := NameStep(cfg, marks, name);
    var s := SuffixStep(cfg, marks, n, suffix);
    assert ("Create backup and test in VM first")[0] == 'C';
    assert ("Make backup before modifying")[0] == 'M';
    assert AllAdvice(s.recommendations);
    var a := ContentStep(cfg, marks, s, read);
    if read.Ok? {
      var c := read.value;
      HighScanSpec(marks, c, cfg.highRiskPatterns, s);
      var h := HighScan(marks, c, cfg.highRiskPatterns, s);
      if RiskValue(h.level) < RiskValue(High) {
        MediumScanSpec(marks, c, cfg.mediumRiskPatterns, h);
      }
    }
    assert AllAdvice(a.recommendations);
    forall l: RiskLevel ensures !Advice(Closing(marks, l)) {
      match l
      case Safe => assert Closing(marks, l)[0] == marks.check[0];
      case Medium => assert Closing(marks, l)[0] == marks.caution[0];
      case High => assert Closing(marks, l)[0] == marks.siren[0];
      case Critical => assert Closing(marks, l)[0] == marks.stop[0];
    }
  }

  /** The library's markers cannot start an advice text, and its four closing texts differ. */
  lemma LibraryMarksDistinct()
    ensures DistinctMarks(LibraryMarks)
    ensures forall l, l' :: Closing(LibraryMarks, l) == Closing(LibraryMarks, l') ==> l == l'
  {
  }

  /** The imperative high-risk loop of `_analyze_file_content`. */
  method ScanHigh(marks: Marks, c: string, ps: seq<string>, level0: RiskLevel, reasons0: seq<string>, recs0: seq<string>)
    returns (level: RiskLevel, reasons: seq<string>, recommendations: seq<string>)
    ensures Assessment(level, reasons, recommendations) == HighScan(marks, c, ps, Assessment(level0, reasons0, recs0))
  {
    level, reasons, recommendations := level0, reasons0, recs0;
    for i := 0 to |ps|
      invariant Assessment(level, reasons, recommendations) == HighScan(marks, c, ps[..i], Assessment(level0, reasons0, recs0))
    {
      assert ps[..i + 1][..i] == ps[..i];
      var pattern := ps[i];
      if Contains(c, pattern) {
        reasons := reasons + [marks.siren + " Contains critical pattern: " + pattern];
        recommendations := recommendations + ["Be very careful when modifying " + pattern];
        if RiskValue(level) < RiskValue(High) {
          level := High;
        }
      }
    }
    assert ps[..|ps|] == ps;
  }

  /** The imperative medium-risk loop of `_analyze_file_content`. */
  method ScanMedium(marks: Marks, c: string, ps: seq<string>, level0: RiskLevel, reasons0: seq<string>, recs: seq<string>)
    returns (level: RiskLevel, reasons: seq<string>)
    ensures Assessment(level, reasons, recs) == MediumScan(marks, c, ps, Assessment(level0, reasons0, recs))
  {
    level, reasons := level0, reasons0;
    for i := 0 to |ps|
      invariant Assessment(level, reasons, recs) == MediumScan(marks, c, ps[..i], Assessment(level0, reasons0, recs))
    {
      assert ps[..i + 1][..i] == ps[..i];
      var pattern := ps[i];
      if Contains(c, pattern) {
        reasons := reasons + [marks.caution + " Contains system pattern: " + pattern];
        if level == Safe {
          level := Medium;
        }
      }
    }
    assert ps[..|ps|] == ps;
  }

  /** The file-name and suffix tests that open `_analyze_file_content`. */
  method ClassifyName(cfg: Config, marks: Marks, name: string, suffix: string)
    returns (level: RiskLevel, reasons: seq<string>, recommendations: seq<string>)
    ensures Assessment(level, reasons, recommendations) == SuffixStep(cfg, marks, NameStep(cfg, marks, name), suffix)
  {
    reasons := [];
    recommendations := [];
    if name in cfg.criticalFiles {
      reasons := reasons + [marks.stop + " Critical system file: " + name];
      recommendations := recommendations + ["Create backup and test in VM first"];
      level := Critical;
    } else if name in cfg.highRiskFiles {
      reasons := reasons + [marks.siren + " High-risk system file: " + name];
      recommendations := recommendations + ["Make backup before modifying"];
      level := High;
    } else {
      level := Safe;
    }
    if suffix in cfg.mediumRiskExtensions && level == Safe {
      level := Medium;
      reasons := reasons + [marks.caution + " Configuration file: " + suffix];
    }
  }

  /** `_analyze_file_content`: the file-name test, the suffix test, the pattern loops on a second read, the closing recommendation. */
  method AnalyzeFileContent(cfg: Config, marks: Marks, name: string, suffix: string, read: Result<string>)
    returns (level: RiskLevel, reasons: seq<string>, recommendations: seq<string>)
    ensures Assessment(level, reasons, recommendations) == Analyze(cfg, marks, name, suffix, read)
  {
    level, reasons, recommendations := ClassifyName(cfg, marks, name, suffix);
    ghost var s := Assessment(level, reasons, recommendations);
    match read {
      case Ok(content) =>
        level, reasons, recommendations := ScanHigh(marks, content, cfg.highRiskPatterns, level, reasons, recommendations);
        if RiskValue(level) < RiskValue(High) {
          level, reasons := ScanMedium(marks, content, cfg.mediumRiskPatterns, level, reasons, recommendations);
        }
      case Err(e) =>
        reasons := reasons + ["Could not read file: " + e];
        if level == Safe {
          level := Medium;
        }
    }
    assert Assessment(level, reasons, recommendations) == ContentStep(cfg, marks, s, read);
    recommendations := recommendations + [Closing(marks, level)];
  }

  // ------------------------------------------------------- check_file_safety

  /** What the file system says about a path: whether it exists and how the two reads of it went. */
  datatype FileState = FileState(present: bool, firstRead: Result<string>, secondRead: Result<string>)

  /** `check_file_safety` of the library checker. */
  function CheckResult(cfg: Config, path: string, fs: FileState): SafetyResult
  {
    if !fs.present then
      SafetyResult(Critical, ["File does not exist"], false, ["Ensure file exists before modification"])
    else if fs.firstRead.Err? then
      SafetyResult(High, ["Cannot read file: " + fs.firstRead.msg], false, ["Fix file access issues before modification"])
    else
      var name := FileName(path);
      var a := Analyze(cfg, LibraryMarks, name, Suffix(name), fs.secondRead);
      SafetyResult(a.level, a.reasons, SafeToModify(a.level), a.recommendations)
  }

  method CheckFileSafety(cfg: Config, path: string, fs: FileState) returns (r: SafetyResult)
    ensures r == CheckResult(cfg, path, fs)
  {
    if !fs.present {
      return SafetyResult(Critical, ["File does not exist"], false, ["Ensure file exists before modification"]);
    }
    if fs.firstRead.Err? {
      return SafetyResult(High, ["Cannot read file: " + fs.firstRead.msg], false, ["Fix file access issues before modification"]);
    }
    var name := FileName(path);
    var level, reasons, recommendations := AnalyzeFileContent(cfg, LibraryMarks, name, Suffix(name), fs.secondRead);
    r := SafetyResult(level, reasons, level in [Safe, Medium], recommendations);
  }

  /**
   * A missing file is CRITICAL and an unreadable one HIGH, neither safe to modify; otherwise
   * the level is the join of the two levels; and a file is safe to modify exactly when its
   * level is SAFE or MEDIUM.
   */
  lemma CheckResultSpec(cfg: Config, path: string, fs: FileState)
    ensures var r := CheckResult(cfg, path, fs);
      && (r.safeToModify <==> SafeToModify(r.riskLevel))
      && (!fs.present ==> r.riskLevel == Critical)
      && (fs.present && fs.firstRead.Err? ==> r.riskLevel == High)
      && (fs.present && fs.firstRead.Ok? ==>
            r.riskLevel == Join(BaseLevel(cfg, FileName(path), Suffix(FileName(path))), ContentLevel(cfg, fs.secondRead)))
  {
    if fs.present && fs.firstRead.Ok? {
      var name := FileName(path);
      AnalyzeLevel(cfg, LibraryMarks, name, Suffix(name), fs.secondRead);
    }
  }

  /** `flake.nix` and `flake.lock` are CRITICAL whatever they hold. */
  lemma FlakeIsCritical(path: string, fs: FileState)
    requires FileName(path) in {"flake.nix", "flake.lock"}
    ensures fs.present && fs.firstRead.Ok? ==> CheckResult(DefaultConfig, path, fs).riskLevel == Critical
  {
    CheckResultSpec(DefaultConfig, path, fs);
  }

  /** `configuration.nix` mentioning `boot.loader` is HIGH. */
  lemma BootLoaderIsHigh(path: string, c: string)
    requires FileName(path) == "configuration.nix" && Contains(c, "boot.loader")
    ensures CheckResult(DefaultConfig, path, FileState(true, Ok(c), Ok(c))).riskLevel == High
  {
    CheckResultSpec(DefaultConfig, path, FileState(true, Ok(c), Ok(c)));
    ContainsAnySpec(c, DefaultConfig.highRiskPatterns);
    assert DefaultConfig.highRiskPatterns[3] == "boot.loader";
  }

  /** A `.nix` module with a medium pattern and no high-risk one is MEDIUM. */
  lemma NixModuleIsMedium(path: string, c: string)
    requires Suffix(FileName(path)) == ".nix" && FileName(path) !in {"flake.nix", "configuration.nix", "hardware-configuration.nix"}
    requires !ContainsAny(c, DefaultConfig.highRiskPatterns)
    ensures CheckResult(DefaultConfig, path, FileState(true, Ok(c), Ok(c))).riskLevel == Medium
  {
    CheckResultSpec(DefaultConfig, path, FileState(true, Ok(c), Ok(c)));
  }

  /** A file with an unlisted name and suffix and no pattern in its text is SAFE. */
  lemma PlainFileIsSafe(path: string, c: string)
    requires var n := FileName(path);
      n !in DefaultConfig.criticalFiles && n !in DefaultConfig.highRiskFiles && Suffix(n) !in DefaultConfig.mediumRiskExtensions
    requires !ContainsAny(c, DefaultConfig.highRiskPatterns) && !ContainsAny(c, DefaultConfig.mediumRiskPatterns)
    ensures CheckResult(DefaultConfig, path, FileState(true, Ok(c), Ok(c))).riskLevel == Safe
  {
    CheckResultSpec(DefaultConfig, path, FileState(true, Ok(c), Ok(c)));
  }
}
