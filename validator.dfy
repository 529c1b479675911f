/**
 * Project validation: syntax, structure, dependency and security checks over a project's
 * files, collected as issues with a severity level, an exit code and a one-line summary.
 * The file system, the Python and JSON parsers and the TOML reader are inputs.
 */
module Validator {
  import opened Common

  datatype ValidationLevel = Pass | Warning | Error | Critical

  function LevelValue(l: ValidationLevel): nat
  {
    match l
    case Pass => 0
    case Warning => 1
    case Error => 2
    case Critical => 3
  }

  function LevelName(l: ValidationLevel): string
  {
    match l
    case Pass => "PASS"
    case Warning => "WARNING"
    case Error => "ERROR"
    case Critical => "CRITICAL"
  }

  /** `level.lower()` of the names the summary lists. */
  function LevelLowerName(l: ValidationLevel): string
  {
    match l
    case Pass => "pass"
    case Warning => "warning"
    case Error => "error"
    case Critical => "critical"
  }

  datatype ValidationIssue = ValidationIssue(
    level: ValidationLevel,
    category: string,
    message: string,
    filePath: Option<string>,
    lineNumber: Option<int>,
    suggestion: Option<string>)

  datatype ValidationResult = ValidationResult(
    isValid: bool,
    issues: seq<ValidationIssue>,
    summary: string,
    totalFilesChecked: nat)

  // ------------------------------------------------------------ exit code

  function MaxLevel(issues: seq<ValidationIssue>): nat
  {
    if issues == [] then 0
    else Max(MaxLevel(issues[..|issues| - 1]), LevelValue(issues[|issues| - 1].level))
  }

  lemma {:induction false} MaxLevelSpec(issues: seq<ValidationIssue>)
    ensures MaxLevel(issues) <= 3
    ensures forall k :: 0 <= k < |issues| ==> LevelValue(issues[k].level) <= MaxLevel(issues)
    ensures issues != [] ==> exists k :: 0 <= k < |issues| && LevelValue(issues[k].level) == MaxLevel(issues)
  {
    if issues != [] {
      var init := issues[..|issues| - 1];
      MaxLevelSpec(init);
      assert forall k :: 0 <= k < |init| ==> init[k] == issues[k];
      if init != [] && MaxLevel(init) >= LevelValue(issues[|issues| - 1].level) {
        var k :| 0 <= k < |init| && LevelValue(init[k].level) == MaxLevel(init);
        assert issues[k] == init[k];
      }
    }
  }

  /** `ValidationResult.get_exit_code`. */
  function ExitCode(issues: seq<ValidationIssue>): nat
  {
    if issues == [] then 0 else Min(MaxLevel(issues), 3)
  }

  /**
   * The exit code is the highest level among the issues (0 with none): every issue is at or
   * below it, some issue reaches it, and it is 0 exactly when every issue is PASS.
   */
  lemma ExitCodeSpec(issues: seq<ValidationIssue>)
    ensures ExitCode(issues) <= 3
    ensures forall k :: 0 <= k < |issues| ==> LevelValue(issues[k].level) <= ExitCode(issues)
    ensures issues != [] ==> exists k :: 0 <= k < |issues| && LevelValue(issues[k].level) == ExitCode(issues)
    ensures ExitCode(issues) == 0 <==> forall k :: 0 <= k < |issues| ==> issues[k].level == Pass
  {
    MaxLevelSpec(issues);
    if issues != [] && ExitCode(issues) == 0 {
      forall k | 0 <= k < |issues| ensures issues[k].level == Pass {
        assert LevelValue(issues[k].level) <= 0;
      }
    }
  }

  // ------------------------------------------------------------- validity

  predicate Blocking(i: ValidationIssue)
  {
    i.level == Error || i.level == Critical
  }

  /** The `is_valid` rule of `validate_project`: no ERROR and no CRITICAL issue. */
  predicate IsValid(issues: seq<ValidationIssue>)
  {
    forall k :: 0 <= k < |issues| ==> !Blocking(issues[k])
  }

  /** A project is valid exactly when its exit code is at most 1 (PASS or WARNING). */
  lemma ValidIffLowExitCode(issues: seq<ValidationIssue>)
    ensures IsValid(issues) <==> ExitCode(issues) <= 1
  {
    ExitCodeSpec(issues);
    if IsValid(issues) && issues != [] {
      var k :| 0 <= k < |issues| && LevelValue(issues[k].level) == ExitCode(issues);
      assert !Blocking(issues[k]);
    }
    if !IsValid(issues) {
      var k :| 0 <= k < |issues| && Blocking(issues[k]);
      assert LevelValue(issues[k].level) >= 2;
    }
  }

  // ------------------------------------------------------------ to_dict

  function LevelCount(issues: seq<ValidationIssue>, l: ValidationLevel): nat
  {
    CountWhere(issues, (i: ValidationIssue) => i.level == l)
  }

  const AllLevels: seq<ValidationLevel> := [Pass, Warning, Error, Critical]

  /** The counting part of `ValidationResult.to_dict`. */
  datatype ResultCounts = ResultCounts(isValid: bool, totalIssues: nat, issuesByLevel: seq<(string, nat)>,
                                       summary: string, totalFilesChecked: nat)

  function ToDict(r: ValidationResult): ResultCounts
  {
    ResultCounts(r.isValid, |r.issues|,
                 seq(|AllLevels|, k requires 0 <= k < |AllLevels| => (LevelName(AllLevels[k]), LevelCount(r.issues, AllLevels[k]))),
                 r.summary, r.totalFilesChecked)
  }

  function SumSecond(xs: seq<(string, nat)>): nat
  {
    if xs == [] then 0 else SumSecond(xs[..|xs| - 1]) + xs[|xs| - 1].1
  }

  lemma {:induction false} LevelCountsTotal(issues: seq<ValidationIssue>)
    ensures LevelCount(issues, Pass) + LevelCount(issues, Warning) + LevelCount(issues, Error)
            + LevelCount(issues, Critical) == |issues|
  {
    if issues != [] {
      LevelCountsTotal(issues[..|issues| - 1]);
    }
  }

  /** `issues_by_level` has one entry per level, in declaration order, summing to `total_issues`. */
  lemma ToDictCounts(r: ValidationResult)
    ensures var d := ToDict(r);
      && |d.issuesByLevel| == 4
      && (forall k :: 0 <= k < 4 ==> d.issuesByLevel[k].0 == LevelName(AllLevels[k]))
      && SumSecond(d.issuesByLevel) == d.totalIssues == |r.issues|
  {
    var d: seq<(string, nat)> := ToDict(r).issuesByLevel;
    LevelCountsTotal(r.issues);
    assert d[..4] == d;
    assert d[..4][..3] == d[..3] && d[..3][..2] == d[..2] && d[..2][..1] == d[..1] && d[..1][..0] == [];
    assert SumSecond(d[..1]) == d[0].1;
    assert SumSecond(d[..2]) == d[0].1 + d[1].1;
    assert SumSecond(d[..3]) == d[0].1 + d[1].1 + d[2].1;
    assert SumSecond(d) == d[0].1 + d[1].1 + d[2].1 + d[3].1;
  }

  // -------------------------------------------------------------- summary

  /** The levels the summary lists, in the order CRITICAL, ERROR, WARNING, each with its count. */
  function Listed(issues: seq<ValidationIssue>, order: seq<ValidationLevel>): seq<(ValidationLevel, nat)>
  {
    if order == [] then []
    else
      var l := order[|order| - 1];
      Listed(issues, order[..|order| - 1]) + (if LevelCount(issues, l) > 0 then [(l, LevelCount(issues, l))] else [])
  }

  const SummaryOrder: seq<ValidationLevel> := [Critical, Error, Warning]

  function PartText(e: (ValidationLevel, nat)): string
  {
    IntToString(e.1) + " " + LevelLowerName(e.0)
  }

  function Parts(listed: seq<(ValidationLevel, nat)>): (r: seq<string>)
    ensures |r| == |listed|
  {
    seq(|listed|, k requires 0 <= k < |listed| => PartText(listed[k]))
  }

  function PassedSentence(filesChecked: nat): string
  {
    "Project validation passed - " + IntToString(filesChecked) + " files checked"
  }

  /** `_generate_summary`. */
  function Summary(issues: seq<ValidationIssue>, filesChecked: nat): string
  {
    if issues == [] then PassedSentence(filesChecked)
    else FoundSentence(|issues|, Join(Parts(Listed(issues, SummaryOrder)), ", "), filesChecked)
  }

  function FoundSentence(count: nat, listing: string, filesChecked: nat): string
  {
    "Found " + IntToString(count) + " issues (" + listing + ") in " + IntToString(filesChecked) + " files"
  }

  lemma ListedStep(issues: seq<ValidationIssue>, order: seq<ValidationLevel>, n: int)
    requires 0 <= n < |order|
    ensures Listed(issues, order[..n + 1])
            == Listed(issues, order[..n]) + (if LevelCount(issues, order[n]) > 0 then [(order[n], LevelCount(issues, order[n]))] else [])
  {
    assert order[..n + 1][..n] == order[..n];
  }

  /** A listed entry names a level from `order` with a positive count, and every level with issues is listed. */
  lemma {:induction false} ListedSpec(issues: seq<ValidationIssue>, order: seq<ValidationLevel>)
    ensures forall e :: e in Listed(issues, order) ==> e.0 in order && e.1 == LevelCount(issues, e.0) > 0
    ensures forall l :: l in order && LevelCount(issues, l) > 0 ==> (l, LevelCount(issues, l)) in Listed(issues, order)
  {
    if order != [] {
      ListedSpec(issues, order[..|order| - 1]);
      assert order == order[..|order| - 1] + [order[|order| - 1]];
    }
  }

  /**
   * The summary lists exactly the CRITICAL, ERROR and WARNING levels that occur, each with its
   * count; PASS is never listed, so the listed counts and the PASS count add up to the total.
   */
  lemma SummaryListing(issues: seq<ValidationIssue>)
    ensures var listed := Listed(issues, SummaryOrder);
      && (forall e :: e in listed ==> e.0 != Pass && e.1 == LevelCount(issues, e.0) > 0)
      && (forall l :: l != Pass && LevelCount(issues, l) > 0 ==> (l, LevelCount(issues, l)) in listed)
      && SumCounts(listed) + LevelCount(issues, Pass) == |issues|
  {
    ListedLevels(issues);
    LevelCountsTotal(issues);
    ListedThree(issues, Critical, Error, Warning);
  }

  lemma ListedLevels(issues: seq<ValidationIssue>)
    ensures var listed := Listed(issues, SummaryOrder);
      && (forall e :: e in listed ==> e.0 != Pass && e.1 == LevelCount(issues, e.0) > 0)
      && (forall l :: l != Pass && LevelCount(issues, l) > 0 ==> (l, LevelCount(issues, l)) in listed)
  {
    ListedSpec(issues, SummaryOrder);
    assert forall l :: l in SummaryOrder <==> l != Pass;
  }

  function ListedOne(issues: seq<ValidationIssue>, l: ValidationLevel): seq<(ValidationLevel, nat)>
  {
    if LevelCount(issues, l) > 0 then [(l, LevelCount(issues, l))] else []
  }

  /** The listing over three levels is the three single listings, and its counts add up. */
  lemma ListedThree(issues: seq<ValidationIssue>, a: ValidationLevel, b: ValidationLevel, c: ValidationLevel)
    ensures Listed(issues, [a, b, c]) == ListedOne(issues, a) + ListedOne(issues, b) + ListedOne(issues, c)
    ensures SumCounts(Listed(issues, [a, b, c])) == LevelCount(issues, a) + LevelCount(issues, b) + LevelCount(issues, c)
  {
    var order := [a, b, c];
    assert order[..2] == [a, b];
    assert [a, b][..1] == [a];
    assert [a][..0] == [];
    var l0, l1, l2 := ListedOne(issues, a), ListedOne(issues, b), ListedOne(issues, c);
    assert Listed(issues, [a]) == l0;
    assert Listed(issues, [a, b]) == l0 + l1;
    SumCountsConcat(l0, l1);
    SumCountsConcat(l0 + l1, l2);
    SumCountsOne(issues, a);
    SumCountsOne(issues, b);
    SumCountsOne(issues, c);
  }

  lemma SumCountsOne(issues: seq<ValidationIssue>, l: ValidationLevel)
    ensures SumCounts(ListedOne(issues, l)) == LevelCount(issues, l)
  {
    if LevelCount(issues, l) > 0 {
      var one := [(l, LevelCount(issues, l))];
      assert one[..0] == [];
      assert SumCounts(one) == SumCounts(one[..0]) + one[0].1;
    }
  }

  function SumCounts(listed: seq<(ValidationLevel, nat)>): nat
  {
    if listed == [] then 0 else SumCounts(listed[..|listed| - 1]) + listed[|listed| - 1].1
  }

  lemma {:induction false} SumCountsConcat(a: seq<(ValidationLevel, nat)>, b: seq<(ValidationLevel, nat)>)
    ensures SumCounts(a + b) == SumCounts(a) + SumCounts(b)
    decreases |b|
  {
    if b == [] {
      assert a + b == a;
    } else {
      assert (a + b)[..|a + b| - 1] == a + b[..|b| - 1];
      SumCountsConcat(a, b[..|b| - 1]);
    }
  }

  /** The summary is the "passed" sentence exactly when there are no issues. */
  lemma SummaryPassedIffNoIssues(issues: seq<ValidationIssue>, filesChecked: nat)
    ensures Summary(issues, filesChecked) == PassedSentence(filesChecked) <==> issues == []
    ensures issues != [] ==> Summary(issues, filesChecked)[0] == 'F'
  {
    if issues != [] {
      assert PassedSentence(filesChecked)[0] == 'P';
    }
  }

  /** Issues that are all PASS are counted in the total but list nothing. */
  lemma PassOnlySummary(issues: seq<ValidationIssue>, filesChecked: nat)
    requires issues != []
    requires forall k :: 0 <= k < |issues| ==> issues[k].level == Pass
    ensures Summary(issues, filesChecked) == FoundSentence(|issues|, "", filesChecked)
  {
    NoneCounted(issues, Critical);
    NoneCounted(issues, Error);
    NoneCounted(issues, Warning);
    ListedThree(issues, Critical, Error, Warning);
    assert Listed(issues, SummaryOrder) == [];
    var none: seq<string> := [];
    assert Parts(Listed(issues, SummaryOrder)) == none;
    assert Join(none, ", ") == "";
  }

  lemma {:induction false} NoneCounted(issues: seq<ValidationIssue>, l: ValidationLevel)
    requires l != Pass
    requires forall k :: 0 <= k < |issues| ==> issues[k].level == Pass
    ensures LevelCount(issues, l) == 0
  {
    if issues != [] {
      NoneCounted(issues[..|issues| - 1], l);
    }
  }

  /** The `by_level` loop of `_generate_summary`: a count per level name that occurs. */
  method CountByLevel(issues: seq<ValidationIssue>) returns (byLevel: map<string, nat>)
    ensures forall l :: LevelName(l) in byLevel <==> LevelCount(issues, l) > 0
    ensures forall l :: LevelName(l) in byLevel ==> byLevel[LevelName(l)] == LevelCount(issues, l)
  {
    byLevel := map[];
    for i := 0 to |issues|
      invariant forall l :: LevelName(l) in byLevel <==> LevelCount(issues[..i], l) > 0
      invariant forall l :: LevelName(l) in byLevel ==> byLevel[LevelName(l)] == LevelCount(issues[..i], l)
    {
      assert issues[..i + 1][..i] == issues[..i];
      var name := LevelName(issues[i].level);
      var current := if name in byLevel then byLevel[name] else 0;
      byLevel := byLevel[name := current + 1];
      forall l ensures LevelName(l) == name <==> l == issues[i].level {
        LevelNameInjective(l, issues[i].level);
      }
    }
    assert issues[..|issues|] == issues;
  }

  lemma LevelNameInjective(a: ValidationLevel, b: ValidationLevel)
    ensures LevelName(a) == LevelName(b) <==> a == b
  {
  }

  /** The parts loop of `_generate_summary` over `order`. */
  method PartsAmong(issues: seq<ValidationIssue>, byLevel: map<string, nat>, order: seq<ValidationLevel>)
    returns (parts: seq<string>)
    requires forall l :: LevelName(l) in byLevel <==> LevelCount(issues, l) > 0
    requires forall l :: LevelName(l) in byLevel ==> byLevel[LevelName(l)] == LevelCount(issues, l)
    ensures parts == Parts(Listed(issues, order))
  {
    parts := [];
    for j := 0 to |order|
      invariant parts == Parts(Listed(issues, order[..j]))
    {
      ListedStep(issues, order, j);
      var l := order[j];
      if LevelName(l) in byLevel {
        parts := parts + [IntToString(byLevel[LevelName(l)]) + " " + LevelLowerName(l)];
      }
    }
    assert order[..|order|] == order;
  }

  // ------------------------------------------------------------ skip list

  const SkipPatterns: seq<string> :=
    [".git/", "__pycache__/", ".pytest_cache/", "node_modules/", ".venv/", "venv/", ".env/", "build/", "dist/", ".tox/"]

  /** `_should_skip_file`: a plain substring test of the path against the skip list. */
  predicate ShouldSkip(path: string)
  {
    ContainsAny(path, SkipPatterns)
  }

  /**
   * The test is a substring test, not a directory-name test: any path holding a skip entry
   * anywhere is skipped, so `src/rebuild/x.py` is skipped via `build/` and `myvenv/x.py` via `venv/`.
   */
  lemma SkipIsSubstringTest(pre: string, k: nat, post: string)
    requires k < |SkipPatterns|
    ensures ShouldSkip(pre + SkipPatterns[k] + post)
  {
    var path := pre + SkipPatterns[k] + post;
    assert path[|pre|..|pre| + |SkipPatterns[k]|] == SkipPatterns[k];
    OccursFromWitness(path, 0, SkipPatterns[k], |pre|);
    ContainsAnySpec(path, SkipPatterns);
  }

  // ------------------------------------------------------------- inputs

  /** What `ast.parse` made of a decoded Python file. */
  datatype PyParse = Parsed | SyntaxErr(msg: string, line: Option<int>) | ParseFailed(msg: string)

  /**
   * A Python file from the recursive walk: the path string the skip test sees, the path
   * relative to the project root, the decoded text (Err when opening or decoding raised) and
   * the parser's verdict on it.
   */
  datatype PyFile = PyFile(path: string, relPath: string, content: Result<string>, parse: PyParse)

  /** What `json.load` did with a JSON file; only a decode error is caught, anything else escapes. */
  datatype JsonLoad = JsonOk | JsonDecodeErr(msg: string, line: int) | JsonRaises

  datatype JsonFile = JsonFile(path: string, relPath: string, load: JsonLoad)

  /** `package.json` as loaded: the truthiness of `name` and `version`, and `main` (default "index.js"). */
  datatype PackageData = PackageData(hasName: bool, hasVersion: bool, main: string)

  /** `pyproject.toml`'s `[project]` table: the truthiness of `name` and `version`. */
  datatype ProjectMeta = ProjectMeta(hasName: bool, hasVersion: bool)

  /**
   * The project as the validator sees it: the walks, the paths relative to the root that exist, whether
   * `*.py` matches anything in the root, and the parsed manifests (None or Err where loading
   * raised).
   */
  datatype Project = Project(
    pyFiles: seq<PyFile>,
    jsonFiles: seq<JsonFile>,
    existing: set<string>,
    pyFilesInRoot: bool,
    packageJson: Option<PackageData>,
    hasTomllib: bool,
    pyproject: Result<ProjectMeta>,
    requirements: Result<seq<string>>)

  datatype Checks = Checks(syntax: bool, structure: bool, dependencies: bool, security: bool)

  // ------------------------------------------------------------ syntax

  function PySyntaxIssue(f: PyFile): Option<ValidationIssue>
  {
    match f.content
    case Err(e) =>
      Some(ValidationIssue(Warning, "syntax", "Could not parse Python file: " + e, Some(f.relPath), None, None))
    case Ok(_) =>
      match f.parse
      case Parsed => None
      case SyntaxErr(msg, line) =>
        Some(ValidationIssue(Error, "syntax", "Python syntax error: " + msg, Some(f.relPath), line,
                             Some("Fix syntax error before proceeding")))
      case ParseFailed(msg) =>
        Some(ValidationIssue(Warning, "syntax", "Could not parse Python file: " + msg, Some(f.relPath), None, None))
  }

  function OptSeq<T>(o: Option<T>): seq<T>
  {
    if o.Some? then [o.value] else []
  }

  /** The issues of the Python loop of `_validate_syntax`, skipped files left out. */
  function PySyntaxIssues(files: seq<PyFile>): seq<ValidationIssue>
  {
    if files == [] then []
    else
      var f := files[|files| - 1];
      PySyntaxIssues(files[..|files| - 1]) + (if ShouldSkip(f.path) then [] else OptSeq(PySyntaxIssue(f)))
  }

  /** The number of files a walk counts: those the skip test lets through. */
  function Checked<T>(files: seq<T>, path: T -> string): nat
  {
    CountWhere(files, (f: T) => !ShouldSkip(path(f)))
  }

  /** The state of the JSON loop: its issues, the files counted, and whether an exception escaped. */
  datatype JsonScan = JsonScan(issues: seq<ValidationIssue>, checked: nat, raised: bool)

  function JsonStep(s: JsonScan, f: JsonFile): JsonScan
  {
    if s.raised || ShouldSkip(f.path) then s
    else match f.load
      case JsonOk => JsonScan(s.issues, s.checked + 1, false)
      case JsonDecodeErr(msg, line) =>
        JsonScan(s.issues + [ValidationIssue(Error, "syntax", "JSON syntax error: " + msg, Some(f.relPath), Some(line),
                                             Some("Fix JSON syntax error"))], s.checked + 1, false)
      case JsonRaises => JsonScan(s.issues, s.checked + 1, true)
  }

  function ScanJson(files: seq<JsonFile>): JsonScan
  {
    if files == [] then JsonScan([], 0, false) else JsonStep(ScanJson(files[..|files| - 1]), files[|files| - 1])
  }

  /** Once an exception escapes the JSON loop, later files change nothing. */
  lemma {:induction false} ScanJsonStops(files: seq<JsonFile>, n: nat)
    requires n <= |files| && ScanJson(files[..n]).raised
    ensures ScanJson(files) == ScanJson(files[..n])
    decreases |files| - n
  {
    if n < |files| {
      assert files[..n + 1][..n] == files[..n];
      ScanJsonStops(files, n + 1);
    } else {
      assert files[..n] == files;
    }
  }

  /**
   * The JSON loop counts every file up to and including the one that raised, and reports one
   * ERROR per decode error; with no escaping exception it counts every file that is not skipped.
   */
  lemma {:induction false} ScanJsonSpec(files: seq<JsonFile>)
    ensures var s := ScanJson(files);
      && s.checked <= |files|
      && (!s.raised ==> s.checked == Checked(files, (f: JsonFile) => f.path))
      && (s.raised <==> exists k :: 0 <= k < |files| && !ShouldSkip(files[k].path) && files[k].load == JsonRaises)
      && (forall k :: 0 <= k < |s.issues| ==> s.issues[k].level == Error && s.issues[k].category == "syntax")
  {
    if files != [] {
      var init := files[..|files| - 1];
      var f := files[|files| - 1];
      ScanJsonSpec(init);
      var s := ScanJson(init);
      assert forall k :: 0 <= k < |init| ==> init[k] == files[k];
      if s.raised {
        var k :| 0 <= k < |init| && !ShouldSkip(init[k].path) && init[k].load == JsonRaises;
        assert files[k] == init[k];
      }
    }
  }

  // --------------------------------------------------------- structure

  function Warn(category: string, message: string, suggestion: string): ValidationIssue
  {
    ValidationIssue(Warning, category, message, None, None, Some(suggestion))
  }

  /** `expected_files`, in the dict's order. */
  const ExpectedFiles: seq<(string, string)> :=
    [("README.md", "Add README.md for project documentation"), (".gitignore", "Add .gitignore to exclude unwanted files")]

  function MissingExpected(existing: set<string>, expected: seq<(string, string)>): seq<ValidationIssue>
  {
    if expected == [] then []
    else
      var e := expected[|expected| - 1];
      MissingExpected(existing, expected[..|expected| - 1])
        + (if e.0 in existing then [] else [Warn("structure", "Missing " + e.0, e.1)])
  }

  /** `_validate_python_structure`. */
  function PythonStructureIssues(p: Project): seq<ValidationIssue>
  {
    var hasSrc := "src" in p.existing || "lib" in p.existing;
    var hasTests := "tests" in p.existing || "test" in p.existing;
    (if !hasSrc && p.pyFilesInRoot
     then [Warn("structure", "Python files in project root, consider using src/ directory",
                "Move Python modules to src/ directory for better organization")]
     else [])
    + (if !hasTests then [Warn("structure", "No tests directory found", "Add tests/ directory with test files")] else [])
  }

  /** `_validate_js_structure`; a `package.json` that fails to load adds nothing. */
  function JsStructureIssues(p: Project): seq<ValidationIssue>
  {
    match p.packageJson
    case None => []
    case Some(data) =>
      if data.main in p.existing then []
      else [ValidationIssue(Error, "structure", "Main entry point " + data.main + " not found", None, None,
                            Some("Create " + data.main + " or update package.json main field"))]
  }

  /** `_validate_structure`. */
  function StructureIssues(p: Project): seq<ValidationIssue>
  {
    MissingExpected(p.existing, ExpectedFiles)
    + (if "pyproject.toml" in p.existing || "setup.py" in p.existing then PythonStructureIssues(p) else [])
    + (if "package.json" in p.existing then JsStructureIssues(p) else [])
  }

  /** The only ERROR structure validation can raise is a missing `main` entry point of `package.json`. */
  lemma StructureErrors(p: Project)
    ensures forall i :: i in StructureIssues(p) && i.level != Warning ==>
      i.level == Error && "package.json" in p.existing && p.packageJson.Some? && p.packageJson.value.main !in p.existing
  {
    MissingExpectedWarnings(p.existing, ExpectedFiles);
    var m := MissingExpected(p.existing, ExpectedFiles);
    var py := if "pyproject.toml" in p.existing || "setup.py" in p.existing then PythonStructureIssues(p) else [];
    var js := if "package.json" in p.existing then JsStructureIssues(p) else [];
    assert StructureIssues(p) == m + py + js;
    PythonStructureWarnings(p);
    JsStructureErrors(p);
  }

  lemma PythonStructureWarnings(p: Project)
    ensures forall i :: i in PythonStructureIssues(p) ==> i.level == Warning
  {
  }

  lemma JsStructureErrors(p: Project)
    ensures forall i :: i in JsStructureIssues(p) ==> i.level == Error && p.packageJson.Some? && p.packageJson.value.main !in p.existing
  {
  }

  lemma {:induction false} MissingExpectedWarnings(existing: set<string>, expected: seq<(string, string)>)
    ensures forall i :: i in MissingExpected(existing, expected) ==> i.level == Warning
  {
    if expected != [] {
      MissingExpectedWarnings(existing, expected[..|expected| - 1]);
    }
  }

  // ------------------------------------------------------ dependencies

  /** `[a-zA-Z0-9_-]`. */
  predicate IsNameChar(c: char)
  {
    ('a' <= c <= 'z') || ('A' <= c <= 'Z') || ('0' <= c <= '9') || c == '_' || c == '-'
  }

  /** `[><=!]`. */
  predicate IsOpChar(c: char)
  {
    c == '>' || c == '<' || c == '=' || c == '!'
  }

  /** `[0-9.]`. */
  predicate IsVersionChar(c: char)
  {
    ('0' <= c <= '9') || c == '.'
  }

  /** `re.match(r"^[a-zA-Z0-9_-]+([><=!]+[0-9.]+)?$", token)`. */
  predicate ValidRequirement(t: string)
  {
    var k := RunEnd(t, 0, IsNameChar);
    k > 0 && (k == |t| ||
      var j := RunEnd(t, k, IsOpChar);
      j > k && var m := RunEnd(t, j, IsVersionChar); m > j && m == |t|)
  }

  predicate All(s: string, p: char -> bool)
  {
    forall q :: 0 <= q < |s| ==> p(s[q])
  }

  /** A name, or a name, a run of comparison characters and a version, each part non-empty. */
  predicate RequirementShape(t: string)
  {
    || (|t| > 0 && All(t, IsNameChar))
    || (exists k, j :: 0 < k < j < |t| && All(t[..k], IsNameChar) && All(t[k..j], IsOpChar) && All(t[j..], IsVersionChar))
  }

  /**
   * The requirement pattern read as a language: a non-empty name, optionally followed by a
   * non-empty run of comparison characters and a non-empty version. The character classes are
   * disjoint where they meet, so the greedy scan decides it.
   */
  lemma ValidRequirementSpec(t: string)
    ensures ValidRequirement(t) <==> RequirementShape(t)
  {
    if ValidRequirement(t) {
      ValidRequirementSound(t);
    }
    if RequirementShape(t) {
      ValidRequirementComplete(t);
    }
  }

  lemma ValidRequirementSound(t: string)
    requires ValidRequirement(t)
    ensures RequirementShape(t)
  {
    var k := RunEnd(t, 0, IsNameChar);
    if k < |t| {
      var j := RunEnd(t, k, IsOpChar);
      assert All(t[..k], IsNameChar) && All(t[k..j], IsOpChar) && All(t[j..], IsVersionChar);
    }
  }

  lemma ValidRequirementComplete(t: string)
    requires RequirementShape(t)
    ensures ValidRequirement(t)
  {
    if |t| > 0 && All(t, IsNameChar) {
      RunEndAt(t, 0, |t|, IsNameChar);
    } else {
      var k, j :| 0 < k < j < |t| && All(t[..k], IsNameChar) && All(t[k..j], IsOpChar) && All(t[j..], IsVersionChar);
      AllSlice(t, 0, k, IsNameChar);
      AllSlice(t, k, j, IsOpChar);
      AllSlice(t, j, |t|, IsVersionChar);
      assert IsOpChar(t[k]) && IsVersionChar(t[j]);
      RunEndAt(t, 0, k, IsNameChar);
      RunEndAt(t, k, j, IsOpChar);
      RunEndAt(t, j, |t|, IsVersionChar);
    }
  }

  /** A run that holds from `i` to `j` and stops there ends at `j`. */
  lemma {:induction false} RunEndAt(s: string, i: nat, j: nat, p: char -> bool)
    requires i <= j <= |s|
    requires forall q :: i <= q < j ==> p(s[q])
    requires j < |s| ==> !p(s[j])
    ensures RunEnd(s, i, p) == j
    decreases j - i
  {
    if i < j {
      RunEndAt(s, i + 1, j, p);
    }
  }

  lemma AllSlice(s: string, a: nat, b: nat, p: char -> bool)
    requires a <= b <= |s| && All(s[a..b], p)
    ensures forall q :: a <= q < b ==> p(s[q])
  {
    forall q | a <= q < b
      ensures p(s[q])
    {
      assert s[a..b][q - a] == s[q];
    }
  }

  /** `line.split()[0]`: the text up to the first whitespace. */
  function FirstToken(l: string): string
  {
    l[..RunEnd(l, 0, c => !IsSpace(c))]
  }

  /** The per-line issue of `_validate_requirements_txt`, `n` the 1-based line number. */
  function RequirementIssue(raw: string, n: int): seq<ValidationIssue>
  {
    var l := Strip(raw);
    if l != [] && !StartsWith(l, "#") && !ValidRequirement(FirstToken(l)) then
      [ValidationIssue(Warning, "dependencies", "Potentially invalid requirement format: " + l,
                       Some("requirements.txt"), Some(n), Some("Check requirement format"))]
    else []
  }

  function RequirementIssues(lines: seq<string>): seq<ValidationIssue>
  {
    if lines == [] then []
    else RequirementIssues(lines[..|lines| - 1]) + RequirementIssue(lines[|lines| - 1], |lines|)
  }

  /** Each requirement warning cites a line in range, and blank and comment lines are never flagged. */
  lemma {:induction false} RequirementIssuesSpec(lines: seq<string>)
    ensures forall i :: i in RequirementIssues(lines) ==> Flagged(i, lines)
  {
    if lines != [] {
      var init := lines[..|lines| - 1];
      RequirementIssuesSpec(init);
      forall i | i in RequirementIssues(init) ensures Flagged(i, lines) {
        assert Flagged(i, init);
        assert init[i.lineNumber.value - 1] == lines[i.lineNumber.value - 1];
      }
    }
  }

  /** A requirement warning for a line in range whose first token the pattern rejects. */
  predicate Flagged(i: ValidationIssue, lines: seq<string>)
  {
    && i.level == Warning
    && i.lineNumber.Some? && 1 <= i.lineNumber.value <= |lines|
    && var l := Strip(lines[i.lineNumber.value - 1]);
       l != [] && !StartsWith(l, "#") && !ValidRequirement(FirstToken(l))
  }

  function ErrorIssue(category: string, message: string, suggestion: string): ValidationIssue
  {
    ValidationIssue(Error, category, message, None, None, Some(suggestion))
  }

  /** `_validate_python_dependencies`. */
  function PyprojectIssues(hasTomllib: bool, pyproject: Result<ProjectMeta>): seq<ValidationIssue>
  {
    if !hasTomllib then
      [Warn("dependencies", "Cannot validate pyproject.toml - tomllib not available",
            "Upgrade to Python 3.11+ for full TOML validation")]
    else match pyproject
      case Err(e) => [ErrorIssue("dependencies", "Error reading pyproject.toml: " + e, "Fix pyproject.toml format")]
      case Ok(meta) =>
        (if meta.hasName then [] else [Warn("dependencies", "Missing project name in pyproject.toml", "Add project.name field")])
        + (if meta.hasVersion then [] else [Warn("dependencies", "Missing project version in pyproject.toml", "Add project.version field")])
  }

  /** `_validate_requirements_txt`. */
  function RequirementsIssues(requirements: Result<seq<string>>): seq<ValidationIssue>
  {
    match requirements
    case Err(e) => [ErrorIssue("dependencies", "Error reading requirements.txt: " + e, "Fix requirements.txt format")]
    case Ok(lines) => RequirementIssues(lines)
  }

  /** `_validate_npm_dependencies`; a `package.json` that fails to load adds nothing. */
  function NpmIssues(existing: set<string>, packageJson: Option<PackageData>): seq<ValidationIssue>
  {
    match packageJson
    case None => []
    case Some(data) =>
      (if data.hasName then [] else [Warn("dependencies", "Missing name in package.json", "Add name field to package.json")])
      + (if data.hasVersion then [] else [Warn("dependencies", "Missing version in package.json", "Add version field to package.json")])
      + (if "node_modules" in existing && "package-lock.json" !in existing
         then [Warn("dependencies", "node_modules exists but package-lock.json missing",
                    "Run 'npm install' to generate package-lock.json")]
         else [])
  }

  /** `_validate_dependencies`: `pyproject.toml` wins over `requirements.txt`. */
  function DependencyIssues(p: Project): seq<ValidationIssue>
  {
    (if "pyproject.toml" in p.existing then PyprojectIssues(p.hasTomllib, p.pyproject)
     else if "requirements.txt" in p.existing then RequirementsIssues(p.requirements)
     else [])
    + (if "package.json" in p.existing then NpmIssues(p.existing, p.packageJson) else [])
  }

  /** With a `pyproject.toml` present, `requirements.txt` is never read. */
  lemma PyprojectShadowsRequirements(p: Project, lines: seq<string>)
    requires "pyproject.toml" in p.existing
    ensures DependencyIssues(p) == DependencyIssues(p.(requirements := Ok(lines)))
  {
    var q := p.(requirements := Ok(lines));
    assert q.existing == p.existing && q.packageJson == p.packageJson;
    assert q.hasTomllib == p.hasTomllib && q.pyproject == p.pyproject;
  }

  // ---------------------------------------------------------- security

  /** `security_patterns`, in the dict's order: the key word of `kw\s*=\s*["'][^"']+["']` and its message. */
  const SecurityPatterns: seq<(string, string)> :=
    [("password", "Hardcoded password detected"), ("api_key", "Hardcoded API key detected"),
     ("secret", "Hardcoded secret detected"), ("token", "Hardcoded token detected")]

  /** `kw` at `i`, ignoring ASCII case (`kw` is lower case). */
  predicate OccursAtIgnoreCase(c: string, i: nat, kw: string)
  {
    i + |kw| <= |c| && forall q :: 0 <= q < |kw| ==> LowerChar(c[i + q]) == kw[q]
  }

  predicate IsQuote(ch: char)
  {
    ch == '"' || ch == '\''
  }

  /** The end of a match of `kw\s*=\s*["'][^"']+["']` starting at `i`, if one starts there. */
  function SecretMatchEnd(c: string, i: nat, kw: string): (r: Option<nat>)
    ensures r.Some? ==> i + |kw| < r.value <= |c|
  {
    if i > |c| || !OccursAtIgnoreCase(c, i, kw) then None
    else
      var a := SkipSpaces(c, i + |kw|);
      if a < |c| && c[a] == '=' then
        var b := SkipSpaces(c, a + 1);
        if b < |c| && IsQuote(c[b]) then
          var e := RunEnd(c, b + 1, ch => !IsQuote(ch));
          if e > b + 1 && e < |c| then Some(e + 1) else None
        else None
      else None
  }

  /** The start positions `re.finditer` reports from `pos` on: leftmost first, then after each match's end. */
  function MatchStarts(c: string, kw: string, pos: nat): seq<nat>
    decreases |c| - pos
  {
    if pos >= |c| then []
    else match SecretMatchEnd(c, pos, kw)
      case Some(e) => [pos] + MatchStarts(c, kw, e)
      case None => MatchStarts(c, kw, pos + 1)
  }

  /**
   * `finditer` is leftmost: no match starts between `pos` and the first reported start (or
   * the end, when none is reported), and after a match the search resumes at its end.
   */
  lemma {:induction false} MatchStartsFirst(c: string, kw: string, pos: nat)
    ensures var r := MatchStarts(c, kw, pos);
      && (forall i :: pos <= i < |c| && (r == [] || i < r[0]) ==> SecretMatchEnd(c, i, kw).None?)
      && (r != [] ==> && pos <= r[0] < |c| && SecretMatchEnd(c, r[0], kw).Some?
                      && r[1..] == MatchStarts(c, kw, SecretMatchEnd(c, r[0], kw).value))
    decreases |c| - pos
  {
    MatchStartsHead(c, kw, pos);
    MatchStartsLeftmost(c, kw, pos);
  }

  lemma {:induction false} MatchStartsLeftmost(c: string, kw: string, pos: nat)
    ensures var r := MatchStarts(c, kw, pos);
      forall i :: pos <= i < |c| && (r == [] || i < r[0]) ==> SecretMatchEnd(c, i, kw).None?
    decreases |c| - pos
  {
    if pos < |c| && SecretMatchEnd(c, pos, kw).None? {
      MatchStartsLeftmost(c, kw, pos + 1);
      assert MatchStarts(c, kw, pos) == MatchStarts(c, kw, pos + 1);
    }
  }

  /** Every reported start lies in the text at or after `pos`, starts a match, and lies at or after the end of the previous match. */
  lemma MatchStartsSpec(c: string, kw: string, pos: nat)
    ensures forall k :: 0 <= k < |MatchStarts(c, kw, pos)| ==> pos <= MatchStarts(c, kw, pos)[k] < |c|
    ensures MatchesFollow(c, kw, MatchStarts(c, kw, pos))
  {
    MatchStartsBounds(c, kw, pos);
    MatchStartsFollow(c, kw, pos);
  }

  lemma {:induction false} MatchStartsBounds(c: string, kw: string, pos: nat)
    ensures forall k :: 0 <= k < |MatchStarts(c, kw, pos)| ==> pos <= MatchStarts(c, kw, pos)[k] < |c|
    decreases |c| - pos
  {
    var r := MatchStarts(c, kw, pos);
    MatchStartsHead(c, kw, pos);
    if r != [] {
      var e := SecretMatchEnd(c, r[0], kw).value;
      assert pos <= r[0] < e;
      MatchStartsBounds(c, kw, e);
      BoundedCons(r, pos, e, |c|);
    }
  }

  lemma {:induction false} MatchStartsFollow(c: string, kw: string, pos: nat)
    ensures MatchesFollow(c, kw, MatchStarts(c, kw, pos))
    decreases |c| - pos
  {
    var r := MatchStarts(c, kw, pos);
    MatchStartsHead(c, kw, pos);
    if r != [] {
      var e := SecretMatchEnd(c, r[0], kw).value;
      MatchStartsFollow(c, kw, e);
      MatchStartsBounds(c, kw, e);
      assert |r| > 1 ==> r[1] == r[1..][0];
      FollowCons(c, kw, r);
    }
  }

  /** A reported start lies in the text at or after `pos`, starts a match, and the search resumes at its end. */
  lemma {:induction false} MatchStartsHead(c: string, kw: string, pos: nat)
    ensures var r := MatchStarts(c, kw, pos);
      r != [] ==> && pos <= r[0] < |c| && SecretMatchEnd(c, r[0], kw).Some?
                  && r[1..] == MatchStarts(c, kw, SecretMatchEnd(c, r[0], kw).value)
    decreases |c| - pos
  {
    if pos < |c| && SecretMatchEnd(c, pos, kw).None? {
      MatchStartsHead(c, kw, pos + 1);
    }
  }

  lemma BoundedCons(r: seq<nat>, lo: nat, mid: nat, hi: nat)
    requires r != [] && lo <= r[0] < hi && lo <= mid
    requires forall k :: 0 <= k < |r[1..]| ==> mid <= r[1..][k] < hi
    ensures forall k :: 0 <= k < |r| ==> lo <= r[k] < hi
  {
    forall k | 0 < k < |r|
      ensures lo <= r[k] < hi
    {
      assert r[k] == r[1..][k - 1];
    }
  }

  lemma FollowCons(c: string, kw: string, r: seq<nat>)
    requires r != [] && SecretMatchEnd(c, r[0], kw).Some? && MatchesFollow(c, kw, r[1..])
    requires |r| > 1 ==> SecretMatchEnd(c, r[0], kw).value <= r[1]
    ensures MatchesFollow(c, kw, r)
  {
    forall k | 0 < k < |r|
      ensures r[k] == r[1..][k - 1]
    {
    }
  }

  /** Each position starts a match, and each next position lies at or after the previous match's end. */
  predicate MatchesFollow(c: string, kw: string, r: seq<nat>)
  {
    && (forall k :: 0 <= k < |r| ==> SecretMatchEnd(c, r[k], kw).Some?)
    && (forall k :: 0 <= k < |r| - 1 ==> SecretMatchEnd(c, r[k], kw).Some? && SecretMatchEnd(c, r[k], kw).value <= r[k + 1])
  }

  /** When no match starts at or after `pos`, nothing is reported. */
  lemma {:induction false} MatchStartsNone(c: string, kw: string, pos: nat)
    requires forall i :: pos <= i < |c| ==> SecretMatchEnd(c, i, kw).None?
    ensures MatchStarts(c, kw, pos) == []
    decreases |c| - pos
  {
    if pos < |c| {
      MatchStartsNone(c, kw, pos + 1);
    }
  }

  /** `content[:start].count("\n") + 1`; a slice past the end is the whole text. */
  function LineOf(c: string, start: nat): nat
  {
    Count(c[..Min(start, |c|)], '\n') + 1
  }

  function SecurityIssue(f: PyFile, c: string, message: string, start: nat): ValidationIssue
  {
    ValidationIssue(Critical, "security", message, Some(f.relPath), Some(LineOf(c, start)),
                    Some("Use environment variables or secure configuration"))
  }

  function IssuesAt(f: PyFile, c: string, message: string, starts: seq<nat>): (r: seq<ValidationIssue>)
    ensures |r| == |starts|
  {
    seq(|starts|, k requires 0 <= k < |starts| => SecurityIssue(f, c, message, starts[k]))
  }

  function PatternIssues(f: PyFile, c: string, patterns: seq<(string, string)>): seq<ValidationIssue>
  {
    if patterns == [] then []
    else
      var pat := patterns[|patterns| - 1];
      PatternIssues(f, c, patterns[..|patterns| - 1]) + PatternHits(f, c, pat)
  }

  /** The issues of one pattern over one text: one per match, in match order. */
  function PatternHits(f: PyFile, c: string, pat: (string, string)): seq<ValidationIssue>
  {
    IssuesAt(f, c, pat.1, MatchStarts(c, pat.0, 0))
  }

  /** The security issues of one file: none when it is skipped or unreadable. */
  function FileSecurityIssues(f: PyFile, patterns: seq<(string, string)>): seq<ValidationIssue>
  {
    if ShouldSkip(f.path) then []
    else match f.content
      case Err(_) => []
      case Ok(c) => PatternIssues(f, c, patterns)
  }

  function SecurityIssues(files: seq<PyFile>, patterns: seq<(string, string)>): seq<ValidationIssue>
  {
    if files == [] then [] else SecurityIssues(files[..|files| - 1], patterns) + FileSecurityIssues(files[|files| - 1], patterns)
  }

  /** A security hit is CRITICAL and placed on line 1 + the number of newlines before the match. */
  lemma {:induction false} PatternIssuesSpec(f: PyFile, c: string, patterns: seq<(string, string)>)
    ensures forall i :: i in PatternIssues(f, c, patterns) ==> SecurityHit(i, f, c)
  {
    if patterns != [] {
      var pat := patterns[|patterns| - 1];
      PatternIssuesSpec(f, c, patterns[..|patterns| - 1]);
      var starts := MatchStarts(c, pat.0, 0);
      MatchStartsSpec(c, pat.0, 0);
      var tail := IssuesAt(f, c, pat.1, starts);
      forall k | 0 <= k < |tail| ensures SecurityHit(tail[k], f, c) {
        assert tail[k].lineNumber == Some(LineOf(c, starts[k]));
      }
    }
  }

  /** A CRITICAL security issue of file `f`, on the line of some position of its text. */
  predicate SecurityHit(i: ValidationIssue, f: PyFile, c: string)
  {
    && i.level == Critical && i.category == "security" && i.filePath == Some(f.relPath)
    && exists s :: 0 <= s < |c| && i.lineNumber == Some(LineOf(c, s))
  }

  /** The newline count before a position never decreases as the position moves right. */
  lemma {:induction false} LineOfMonotone(c: string, a: nat, b: nat)
    requires a <= b <= |c|
    ensures 1 <= LineOf(c, a) <= LineOf(c, b)
    decreases b - a
  {
    if a < b {
      LineOfMonotone(c, a, b - 1);
      assert c[..b][..b - 1] == c[..b - 1];
    }
  }

  /** In a file without newlines every hit is on line 1. */
  lemma SingleLineHits(c: string, start: nat)
    requires start <= |c| && '\n' !in c
    ensures LineOf(c, start) == 1
  {
    NoNewlineCount(c[..start]);
  }

  lemma {:induction false} NoNewlineCount(s: string)
    requires '\n' !in s
    ensures Count(s, '\n') == 0
  {
    if s != [] {
      assert s[|s| - 1] in s;
      NoNewlineCount(s[..|s| - 1]);
    }
  }

  lemma PySyntaxStep(files: seq<PyFile>, i: int)
    requires 0 <= i < |files|
    ensures PySyntaxIssues(files[..i + 1])
            == PySyntaxIssues(files[..i]) + (if ShouldSkip(files[i].path) then [] else OptSeq(PySyntaxIssue(files[i])))
    ensures Checked(files[..i + 1], (f: PyFile) => f.path)
            == Checked(files[..i], (f: PyFile) => f.path) + (if ShouldSkip(files[i].path) then 0 else 1)
  {
    assert files[..i + 1][..i] == files[..i];
  }

  lemma SecurityIssuesStep(files: seq<PyFile>, patterns: seq<(string, string)>, i: int)
    requires 0 <= i < |files|
    ensures SecurityIssues(files[..i + 1], patterns) == SecurityIssues(files[..i], patterns) + FileSecurityIssues(files[i], patterns)
  {
    assert files[..i + 1][..i] == files[..i];
  }

  lemma PatternIssuesStep(f: PyFile, c: string, patterns: seq<(string, string)>, j: int)
    requires 0 <= j < |patterns|
    ensures PatternIssues(f, c, patterns[..j + 1])
            == PatternIssues(f, c, patterns[..j]) + PatternHits(f, c, patterns[j])
  {
    assert patterns[..j + 1][..j] == patterns[..j];
  }

  lemma IssuesAtStep(f: PyFile, c: string, message: string, starts: seq<nat>, k: int)
    requires 0 <= k < |starts|
    ensures IssuesAt(f, c, message, starts[..k + 1]) == IssuesAt(f, c, message, starts[..k]) + [SecurityIssue(f, c, message, starts[k])]
  {
  }

  // ------------------------------------------------------------ validator

  /** `ProjectValidator`, its issue list and file counter. */
  class ProjectValidator {
    var issues: seq<ValidationIssue>
    var filesChecked: nat

    constructor ()
      ensures issues == [] && filesChecked == 0
    {
      issues := [];
      filesChecked := 0;
    }

    /** The Python loop of `_validate_syntax`. */
    method ValidatePySyntax(files: seq<PyFile>)
      modifies this
      ensures issues == old(issues) + PySyntaxIssues(files)
      ensures filesChecked == old(filesChecked) + Checked(files, (f: PyFile) => f.path)
    {
      for i := 0 to |files|
        invariant issues == old(issues) + PySyntaxIssues(files[..i])
        invariant filesChecked == old(filesChecked) + Checked(files[..i], (f: PyFile) => f.path)
      {
        PySyntaxStep(files, i);
        var f := files[i];
        if !ShouldSkip(f.path) {
          filesChecked := filesChecked + 1;
          var issue := PySyntaxIssue(f);
          if issue.Some? {
            issues := issues + [issue.value];
          }
        }
      }
      assert files[..|files|] == files;
    }

    /** The JSON loop of `_validate_syntax`; `raised` when an exception other than a decode error escapes. */
    method ValidateJsonSyntax(files: seq<JsonFile>) returns (raised: bool)
      modifies this
      ensures issues == old(issues) + ScanJson(files).issues
      ensures filesChecked == old(filesChecked) + ScanJson(files).checked
      ensures raised == ScanJson(files).raised
    {
      var i := 0;
      raised := false;
      while i < |files| && !raised
        invariant 0 <= i <= |files|
        invariant issues == old(issues) + ScanJson(files[..i]).issues
        invariant filesChecked == old(filesChecked) + ScanJson(files[..i]).checked
        invariant raised == ScanJson(files[..i]).raised
      {
        assert files[..i + 1][..i] == files[..i];
        var f := files[i];
        if !ShouldSkip(f.path) {
          filesChecked := filesChecked + 1;
          match f.load
          case JsonOk =>
          case JsonDecodeErr(msg, line) =>
            issues := issues + [ValidationIssue(Error, "syntax", "JSON syntax error: " + msg, Some(f.relPath), Some(line),
                                                Some("Fix JSON syntax error"))];
          case JsonRaises =>
            raised := true;
        }
        i := i + 1;
      }
      if raised {
        ScanJsonStops(files, i);
      } else {
        assert files[..i] == files;
      }
    }

    /** One issue per match of a pattern, in the order `finditer` reports them. */
    method ReportMatches(f: PyFile, c: string, message: string, starts: seq<nat>)
      modifies this
      ensures issues == old(issues) + IssuesAt(f, c, message, starts)
      ensures filesChecked == old(filesChecked)
    {
      for k := 0 to |starts|
        invariant issues == old(issues) + IssuesAt(f, c, message, starts[..k])
        invariant filesChecked == old(filesChecked)
      {
        IssuesAtStep(f, c, message, starts, k);
        issues := issues + [SecurityIssue(f, c, message, starts[k])];
      }
      assert starts[..|starts|] == starts;
    }

    /** `re.finditer` of one pattern over one text, reporting each match. */
    method ReportPattern(f: PyFile, c: string, pat: (string, string))
      modifies this
      ensures issues == old(issues) + PatternHits(f, c, pat)
      ensures filesChecked == old(filesChecked)
    {
      var starts := MatchStarts(c, pat.0, 0);
      ReportMatches(f, c, pat.1, starts);
    }

    /** The security scan of one readable text, pattern by pattern. */
    method ScanPatterns(f: PyFile, c: string, patterns: seq<(string, string)>)
      modifies this
      ensures issues == old(issues) + PatternIssues(f, c, patterns)
      ensures filesChecked == old(filesChecked)
    {
      for j := 0 to |patterns|
        invariant issues == old(issues) + PatternIssues(f, c, patterns[..j])
        invariant filesChecked == old(filesChecked)
      {
        PatternIssuesStep(f, c, patterns, j);
        var pat := patterns[j];
        ReportPattern(f, c, pat);
        Common.ConcatAssoc(old(issues), PatternIssues(f, c, patterns[..j]), PatternHits(f, c, pat));
      }
      assert patterns[..|patterns|] == patterns;
    }

    /** The security scan of one file: skipped and unreadable files add nothing. */
    method ScanFileSecurity(f: PyFile, patterns: seq<(string, string)>)
      modifies this
      ensures issues == old(issues) + FileSecurityIssues(f, patterns)
      ensures filesChecked == old(filesChecked)
    {
      if ShouldSkip(f.path) || f.content.Err? {
        return;
      }
      ScanPatterns(f, f.content.value, patterns);
    }

    /** `_validate_security`. */
    method ValidateSecurity(files: seq<PyFile>, patterns: seq<(string, string)>)
      modifies this
      ensures issues == old(issues) + SecurityIssues(files, patterns)
      ensures filesChecked == old(filesChecked)
    {
      for i := 0 to |files|
        invariant issues == old(issues) + SecurityIssues(files[..i], patterns)
        invariant filesChecked == old(filesChecked)
      {
        SecurityIssuesStep(files, patterns, i);
        ScanFileSecurity(files[i], patterns);
        Common.ConcatAssoc(old(issues), SecurityIssues(files[..i], patterns), FileSecurityIssues(files[i], patterns));
      }
      assert files[..|files|] == files;
    }

    /** `_generate_summary` over the current issues. */
    method GenerateSummary() returns (summary: string)
      ensures summary == Summary(issues, filesChecked)
    {
      if issues == [] {
        return "Project validation passed - " + IntToString(filesChecked) + " files checked";
      }
      var byLevel := CountByLevel(issues);
      var parts := PartsAmong(issues, byLevel, SummaryOrder);
      summary := "Found " + IntToString(|issues|) + " issues (" + Join(parts, ", ") + ") in "
                 + IntToString(filesChecked) + " files";
    }

    /** The structure check of `validate_project`. */
    method ValidateStructure(p: Project)
      modifies this
      ensures issues == old(issues) + StructureIssues(p)
      ensures filesChecked == old(filesChecked)
    {
      issues := issues + StructureIssues(p);
    }

    /** The dependency check of `validate_project`. */
    method ValidateDependencies(p: Project)
      modifies this
      ensures issues == old(issues) + DependencyIssues(p)
      ensures filesChecked == old(filesChecked)
    {
      issues := issues + DependencyIssues(p);
    }

    /** `_validate_syntax`: the Python files, then the JSON files. */
    method ValidateSyntax(p: Project) returns (raised: bool)
      modifies this
      ensures issues == old(issues) + SyntaxIssues(p)
      ensures filesChecked == old(filesChecked) + Checked(p.pyFiles, (f: PyFile) => f.path) + ScanJson(p.jsonFiles).checked
      ensures raised == ScanJson(p.jsonFiles).raised
    {
      ValidatePySyntax(p.pyFiles);
      raised := ValidateJsonSyntax(p.jsonFiles);
    }

    /**
     * `validate_project`: the issue list and counter start afresh, the enabled checks run in
     * order, and the result carries the validity rule and the summary. An exception escaping
     * the JSON loop ends the run (`Err`) with the issues gathered up to that point.
     */
    method ValidateProject(p: Project, checks: Checks) returns (r: Result<ValidationResult>)
      modifies this
      ensures issues == RunIssues(p, checks) && filesChecked == RunChecked(p, checks)
      ensures r.Err? <==> RunRaises(p, checks)
      ensures r.Ok? ==> r.value == ValidationResult(IsValid(issues), issues, Summary(issues, filesChecked), filesChecked)
    {
      issues := [];
      filesChecked := 0;
      var raised := RunChecks(p, checks);
      if raised {
        return Err("exception in JSON validation");
      }
      var summary := GenerateSummary();
      r := Ok(ValidationResult(IsValid(issues), issues, summary, filesChecked));
    }

    /** The enabled checks of `validate_project`, in order, until the JSON loop raises. */
    method RunChecks(p: Project, checks: Checks) returns (raised: bool)
      requires issues == [] && filesChecked == 0
      modifies this
      ensures issues == RunIssues(p, checks) && filesChecked == RunChecked(p, checks)
      ensures raised == RunRaises(p, checks)
    {
      raised := false;
      if checks.syntax {
        raised := ValidateSyntax(p);
        if raised {
          return;
        }
      }
      assert issues == SyntaxPhase(p, checks);
      if checks.structure {
        ValidateStructure(p);
      }
      assert issues == StructurePhase(p, checks);
      if checks.dependencies {
        ValidateDependencies(p);
      }
      assert issues == DependencyPhase(p, checks);
      if checks.security {
        ValidateSecurity(p.pyFiles, SecurityPatterns);
      }
    }
  }

  predicate RunRaises(p: Project, checks: Checks)
  {
    checks.syntax && ScanJson(p.jsonFiles).raised
  }

  function SyntaxIssues(p: Project): seq<ValidationIssue>
  {
    PySyntaxIssues(p.pyFiles) + ScanJson(p.jsonFiles).issues
  }

  /** `seq` when the check is enabled, and nothing otherwise. */
  function When(enabled: bool, s: seq<ValidationIssue>): seq<ValidationIssue>
  {
    if enabled then s else []
  }

  /** The issues after the syntax check. */
  function SyntaxPhase(p: Project, checks: Checks): seq<ValidationIssue>
  {
    When(checks.syntax, SyntaxIssues(p))
  }

  /** The issues after the structure check. */
  function StructurePhase(p: Project, checks: Checks): seq<ValidationIssue>
  {
    SyntaxPhase(p, checks) + When(checks.structure, StructureIssues(p))
  }

  /** The issues after the dependency check. */
  function DependencyPhase(p: Project, checks: Checks): seq<ValidationIssue>
  {
    StructurePhase(p, checks) + When(checks.dependencies, DependencyIssues(p))
  }

  /** The issues of a run, in the order the checks append them; a raised exception stops after the syntax check. */
  function RunIssues(p: Project, checks: Checks): seq<ValidationIssue>
  {
    if RunRaises(p, checks) then SyntaxPhase(p, checks)
    else DependencyPhase(p, checks) + When(checks.security, SecurityIssues(p.pyFiles, SecurityPatterns))
  }

  function RunChecked(p: Project, checks: Checks): nat
  {
    if checks.syntax then Checked(p.pyFiles, (f: PyFile) => f.path) + ScanJson(p.jsonFiles).checked else 0
  }

  /** Running the validator twice on the same project gives the same issues: nothing accumulates. */
  method ValidateTwice(v: ProjectValidator, p: Project, checks: Checks) returns (first: Result<ValidationResult>, second: Result<ValidationResult>)
    modifies v
    ensures first.Err? <==> second.Err?
    ensures first.Ok? ==> first == second
  {
    first := v.ValidateProject(p, checks);
    second := v.ValidateProject(p, checks);
  }

  /** With only security checking enabled, a project is valid exactly when no security pattern matches. */
  lemma SecurityOnlyValidity(p: Project)
    ensures var issues := RunIssues(p, Checks(false, false, false, true));
      IsValid(issues) <==> SecurityIssues(p.pyFiles, SecurityPatterns) == []
  {
    var s := SecurityIssues(p.pyFiles, SecurityPatterns);
    assert RunIssues(p, Checks(false, false, false, true)) == s;
    SecurityIssuesCritical(p.pyFiles, SecurityPatterns);
    if s != [] {
      assert s[0] in s;
      assert Blocking(s[0]);
    }
  }

  lemma {:induction false} SecurityIssuesCritical(files: seq<PyFile>, patterns: seq<(string, string)>)
    ensures forall i :: i in SecurityIssues(files, patterns) ==> i.level == Critical
  {
    if files != [] {
      var f := files[|files| - 1];
      SecurityIssuesCritical(files[..|files| - 1], patterns);
      if !ShouldSkip(f.path) && f.content.Ok? {
        PatternIssuesSpec(f, f.content.value, patterns);
      }
    }
  }
}
