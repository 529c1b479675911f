/**
 * Change impact assessment: which project files a change to one target file
 * affects, how severely, and the 0..254 severity score reported as exit code.
 * File listings and contents are inputs (the directory walk is not modelled).
 */
module ImpactAnalyzer {
  import opened Common

  datatype ImpactType =
    | NoImpact | DependencyImpact | ApiImpact | ConfigurationImpact
    | BuildImpact | TestImpact | BreakingChange

  /** `ImpactSeverity`, ordered SeverityNone < Low < Medium < High < Critical. */
  datatype Severity = SeverityNone | Low | Medium | High | Critical

  datatype ImpactedFile = ImpactedFile(
    path: string,
    impactType: ImpactType,
    severity: Severity,
    reason: string,
    lineNumbers: Option<seq<int>>,
    suggestions: seq<string>)

  datatype ImpactAnalysis = ImpactAnalysis(
    targetFile: string,
    totalImpactedFiles: int,
    severityScore: int,
    maxSeverity: Severity,
    impactedFiles: seq<ImpactedFile>,
    summary: string,
    recommendations: seq<Advice>)

  /**
   * One file of the project walk: its resolved path, its path relative to the
   * project root, its file name, and its lines (None when reading it raised).
   */
  datatype ProjectFile = ProjectFile(path: string, relPath: string, name: string, lines: Option<seq<string>>)

  datatype Target = Target(path: string, name: string)

  function TypeValue(t: ImpactType): string
  {
    match t
    case NoImpact => "no_impact"
    case DependencyImpact => "dependency_impact"
    case ApiImpact => "api_impact"
    case ConfigurationImpact => "configuration_impact"
    case BuildImpact => "build_impact"
    case TestImpact => "test_impact"
    case BreakingChange => "breaking_change"
  }

  function SeverityValue(s: Severity): string
  {
    match s
    case SeverityNone => "none"
    case Low => "low"
    case Medium => "medium"
    case High => "high"
    case Critical => "critical"
  }

  /** Position in `severity_order`. */
  function Rank(s: Severity): nat
  {
    match s
    case SeverityNone => 0
    case Low => 1
    case Medium => 2
    case High => 3
    case Critical => 4
  }

  const CodeExtensions: set<string> :=
    {".py", ".js", ".ts", ".jsx", ".tsx", ".rs", ".go", ".java", ".c", ".cpp",
     ".h", ".hpp", ".cs", ".php", ".rb", ".swift", ".nix"}

  const ConfigExtensions: set<string> := {".json", ".yaml", ".yml", ".toml", ".ini", ".cfg", ".conf"}

  const BuildFiles: set<string> :=
    {"Makefile", "makefile", "CMakeLists.txt", "build.gradle", "pom.xml", "package.json",
     "pyproject.toml", "setup.py", "Cargo.toml", "go.mod", "flake.nix", "default.nix", "shell.nix"}

  predicate IsCodeFile(name: string)
  {
    Lower(Suffix(name)) in CodeExtensions
  }

  predicate IsConfigFile(name: string)
  {
    Lower(Suffix(name)) in ConfigExtensions || name in BuildFiles
  }

  /** `re.match` of the name against one of the eight `TEST_PATTERNS`. */
  predicate IsTestFile(name: string)
  {
    || (StartsWith(name, "test_") && EndsWith(name, ".py") && |name| >= 8)
    || EndsWith(name, "_test.py")
    || EndsWith(name, ".test.js")
    || EndsWith(name, ".spec.js")
    || EndsWith(name, ".test.ts")
    || EndsWith(name, ".spec.ts")
    || (StartsWith(name, "test") && EndsWith(name, ".rs") && |name| >= 7)
    || EndsWith(name, "_test.go")
  }

  lemma TestFileNames(base: string)
    ensures IsTestFile("test_" + base + ".py") && IsTestFile(base + "_test.py") && IsTestFile(base + ".spec.ts")
  {
    assert ("test_" + base + ".py")[..5] == "test_";
    assert ("test_" + base + ".py")[|"test_" + base + ".py"| - 3..] == ".py";
    assert (base + "_test.py")[|base + "_test.py"| - 8..] == "_test.py";
    assert (base + ".spec.ts")[|base + ".spec.ts"| - 8..] == ".spec.ts";
  }

  // ------------------------------------------------------------ dependencies

  /** `kw\s+` starts at index `i` of `l`. */
  predicate KeywordSpaceAt(l: string, i: int, kw: string)
  {
    OccursAt(l, i, kw) && i + |kw| < |l| && IsSpace(l[i + |kw|])
  }

  predicate IsQuote(c: char)
  {
    c == '\'' || c == '"'
  }

  /** One of the five import patterns matches `l` (already lower-cased) at index `i`. */
  predicate ImportMatchAt(l: string, i: int, n: string)
    requires 0 <= i < |l|
  {
    // import\s+.*NAME
    || (KeywordSpaceAt(l, i, "import") && OccursFrom(l, i + 7, n))
    // from\s+.*NAME
    || (KeywordSpaceAt(l, i, "from") && OccursFrom(l, i + 5, n))
    // require\s*\(\s*['"].*NAME
    || (OccursAt(l, i, "require")
        && var k := SkipSpaces(l, i + 7);
           k < |l| && l[k] == '('
           && var m := SkipSpaces(l, k + 1);
              m < |l| && IsQuote(l[m]) && OccursFrom(l, m + 1, n))
    // import\s+.*from\s+['"].*NAME
    || (KeywordSpaceAt(l, i, "import")
        && exists j | i + 7 <= j < |l| ::
             KeywordSpaceAt(l, j, "from")
             && var m := SkipSpaces(l, j + 4);
                m < |l| && IsQuote(l[m]) && OccursFrom(l, m + 1, n))
    // #include\s+["<].*NAME
    || (KeywordSpaceAt(l, i, "#include")
        && var m := SkipSpaces(l, i + 8);
           m < |l| && (l[m] == '"' || l[m] == '<') && OccursFrom(l, m + 1, n))
  }

  /** `re.search(pattern, line, re.IGNORECASE)` for some import pattern built from `name`. */
  predicate ImportLine(line: string, name: string)
  {
    var l := Lower(line);
    exists i | 0 <= i < |l| :: ImportMatchAt(l, i, Lower(name))
  }

  function DependencyLines(lines: seq<string>, name: string): seq<int>
  {
    Positions(lines, line => ImportLine(line, name))
  }

  /** The entry `_analyze_dependency_impact` appends for one project file, if any. */
  function DependencyEntry(target: Target, f: ProjectFile): (r: seq<ImpactedFile>)
    ensures |r| <= 1
  {
    if f.path == target.path || f.lines.None? then []
    else
      var ln := DependencyLines(f.lines.value, Stem(target.name));
      if ln == [] then []
      else [ImpactedFile(f.relPath, DependencyImpact, if |ln| > 3 then Medium else Low,
                         "Imports or references " + target.name, Some(ln),
                         ["Review imports in " + f.relPath])]
  }

  /** Every dependency entry carries its matching lines, and is MEDIUM iff there are more than 3. */
  predicate DependencyShape(e: ImpactedFile)
  {
    && e.impactType == DependencyImpact
    && e.lineNumbers.Some? && e.lineNumbers.value != []
    && (e.severity == Medium <==> |e.lineNumbers.value| > 3)
    && (e.severity == Low <==> |e.lineNumbers.value| <= 3)
  }

  function DependencyEntries(target: Target, files: seq<ProjectFile>): (r: seq<ImpactedFile>)
    ensures |r| <= |files|
  {
    if files == [] then []
    else DependencyEntries(target, files[..|files| - 1]) + DependencyEntry(target, files[|files| - 1])
  }

  lemma DependencyEntriesStep(target: Target, files: seq<ProjectFile>, i: int)
    requires 0 <= i < |files|
    ensures DependencyEntries(target, files[..i + 1]) == DependencyEntries(target, files[..i]) + DependencyEntry(target, files[i])
  {
    assert files[..i + 1][..i] == files[..i];
  }

  lemma {:induction false} DependencyEntriesShape(target: Target, files: seq<ProjectFile>)
    ensures forall k :: 0 <= k < |DependencyEntries(target, files)| ==> DependencyShape(DependencyEntries(target, files)[k])
  {
    if files != [] {
      DependencyEntriesShape(target, files[..|files| - 1]);
    }
  }

  /** A file that imports the target yields an entry with its lines; the target itself never does. */
  lemma DependencyEntryChoice(target: Target, f: ProjectFile)
    ensures f.path == target.path ==> DependencyEntry(target, f) == []
    ensures f.path != target.path && f.lines.Some? && DependencyLines(f.lines.value, Stem(target.name)) != [] ==>
      DependencyEntry(target, f) != [] &&
      DependencyEntry(target, f)[0].path == f.relPath &&
      DependencyEntry(target, f)[0].lineNumbers == Some(DependencyLines(f.lines.value, Stem(target.name)))
  {
  }

  method AnalyzeDependencyImpact(target: Target, files: seq<ProjectFile>) returns (impacted: seq<ImpactedFile>)
    ensures impacted == DependencyEntries(target, files)
  {
    impacted := [];
    for i := 0 to |files|
      invariant impacted == DependencyEntries(target, files[..i])
    {
      DependencyEntriesStep(target, files, i);
      impacted := impacted + DependencyEntry(target, files[i]);
    }
    assert files[..|files|] == files;
  }

  // --------------------------------------------------------------------- API

  /** How many of the API names occur as whole words in the line (`\bname\b`). */
  function NameMatches(line: string, names: seq<string>): (r: nat)
    ensures r <= |names|
  {
    if names == [] then 0
    else NameMatches(line, names[..|names| - 1]) + (if HasWholeWord(line, names[|names| - 1]) then 1 else 0)
  }

  function Repeat(x: int, n: nat): (r: seq<int>)
    ensures |r| == n && forall k :: 0 <= k < n ==> r[k] == x
  {
    if n == 0 then [] else Repeat(x, n - 1) + [x]
  }

  /** `usage_lines`: line `i` once for every API name it mentions. */
  function UsageLines(lines: seq<string>, names: seq<string>): (r: seq<int>)
    ensures forall k :: 0 <= k < |r| ==> 1 <= r[k] <= |lines|
  {
    if lines == [] then []
    else
      var n := |lines|;
      UsageLines(lines[..n - 1], names) + Repeat(n, NameMatches(lines[n - 1], names))
  }

  function ApiEntry(target: Target, names: seq<string>, f: ProjectFile): (r: seq<ImpactedFile>)
    ensures |r| <= 1
  {
    if f.path == target.path || f.lines.None? then []
    else
      var usage := UsageLines(f.lines.value, names);
      if usage == [] then []
      else [ImpactedFile(f.relPath, ApiImpact, if |usage| > 5 then High else Medium,
                         "Uses APIs defined in " + target.name, Some(usage[..Min(10, |usage|)]),
                         ["Review API usage in " + f.relPath, "Check for breaking changes"])]
  }

  /** HIGH iff more than 5 usage lines (counted before truncation); at most 10 lines are kept. */
  predicate ApiShape(e: ImpactedFile)
  {
    && e.impactType == ApiImpact
    && (e.severity == High || e.severity == Medium)
    && e.lineNumbers.Some? && 1 <= |e.lineNumbers.value| <= 10
    && (|e.lineNumbers.value| > 5 ==> e.severity == High)
  }

  lemma ApiEntrySeverity(target: Target, names: seq<string>, f: ProjectFile)
    requires f.path != target.path && f.lines.Some? && UsageLines(f.lines.value, names) != []
    ensures var usage := UsageLines(f.lines.value, names);
      |ApiEntry(target, names, f)| == 1 &&
      (ApiEntry(target, names, f)[0].severity == High <==> |usage| > 5) &&
      ApiEntry(target, names, f)[0].lineNumbers == Some(usage[..Min(10, |usage|)])
  {
  }

  function ApiEntries(target: Target, names: seq<string>, files: seq<ProjectFile>): (r: seq<ImpactedFile>)
    ensures |r| <= |files|
  {
    if files == [] then []
    else ApiEntries(target, names, files[..|files| - 1]) + ApiEntry(target, names, files[|files| - 1])
  }

  lemma ApiEntriesStep(target: Target, names: seq<string>, files: seq<ProjectFile>, i: int)
    requires 0 <= i < |files|
    ensures ApiEntries(target, names, files[..i + 1]) == ApiEntries(target, names, files[..i]) + ApiEntry(target, names, files[i])
  {
    assert files[..i + 1][..i] == files[..i];
  }

  lemma {:induction false} ApiEntriesShape(target: Target, names: seq<string>, files: seq<ProjectFile>)
    ensures forall k :: 0 <= k < |ApiEntries(target, names, files)| ==> ApiShape(ApiEntries(target, names, files)[k])
  {
    if files != [] {
      ApiEntriesShape(target, names, files[..|files| - 1]);
      var f := files[|files| - 1];
      if f.path != target.path && f.lines.Some? && UsageLines(f.lines.value, names) != [] {
        ApiEntrySeverity(target, names, f);
      }
    }
  }

  /** The entries `_analyze_api_impact` returns. */
  function ApiPart(target: Target, names: seq<string>, files: seq<ProjectFile>): seq<ImpactedFile>
  {
    if !IsCodeFile(target.name) || names == [] then [] else ApiEntries(target, names, files)
  }

  /** `_analyze_api_impact`; `names` are the target's API definitions. */
  method AnalyzeApiImpact(target: Target, names: seq<string>, files: seq<ProjectFile>) returns (impacted: seq<ImpactedFile>)
    ensures !IsCodeFile(target.name) || names == [] ==> impacted == []
    ensures IsCodeFile(target.name) && names != [] ==> impacted == ApiEntries(target, names, files)
  {
    impacted := [];
    if !IsCodeFile(target.name) || names == [] {
      return;
    }
    for i := 0 to |files|
      invariant impacted == ApiEntries(target, names, files[..i])
    {
      ApiEntriesStep(target, names, files, i);
      impacted := impacted + ApiEntry(target, names, files[i]);
    }
    assert files[..|files|] == files;
  }

  // ----------------------------------------------------------- configuration

  function ConfigEntry(target: Target, f: ProjectFile): (r: seq<ImpactedFile>)
    ensures |r| <= 1
    ensures |r| == 1 ==> r[0].impactType == ConfigurationImpact && r[0].path == f.relPath
    ensures |r| == 1 ==> (r[0].severity == High <==> f.name in BuildFiles)
  {
    var entry := (sev: Severity, reason: string) =>
      [ImpactedFile(f.relPath, ConfigurationImpact, sev, reason, None,
                    ["Verify configuration compatibility in " + f.relPath])];
    if f.path == target.path then []
    else if f.name in BuildFiles then entry(High, "Build configuration dependency")
    else if IsCodeFile(f.name) && f.lines.Some?
            && (exists k | 0 <= k < |f.lines.value| :: HasWholeWord(Lower(f.lines.value[k]), Lower(Stem(target.name))))
    then entry(Medium, "References configuration")
    else []
  }

  function ConfigEntries(target: Target, files: seq<ProjectFile>): (r: seq<ImpactedFile>)
    ensures |r| <= |files|
  {
    if files == [] then []
    else ConfigEntries(target, files[..|files| - 1]) + ConfigEntry(target, files[|files| - 1])
  }

  lemma ConfigEntriesStep(target: Target, files: seq<ProjectFile>, i: int)
    requires 0 <= i < |files|
    ensures ConfigEntries(target, files[..i + 1]) == ConfigEntries(target, files[..i]) + ConfigEntry(target, files[i])
  {
    assert files[..i + 1][..i] == files[..i];
  }

  lemma {:induction false} ConfigEntriesShape(target: Target, files: seq<ProjectFile>)
    ensures forall k :: 0 <= k < |ConfigEntries(target, files)| ==>
              var e := ConfigEntries(target, files)[k];
              e.impactType == ConfigurationImpact && (e.severity == High || e.severity == Medium)
  {
    if files != [] {
      ConfigEntriesShape(target, files[..|files| - 1]);
    }
  }

  /** The entries `_analyze_configuration_impact` returns. */
  function ConfigPart(target: Target, files: seq<ProjectFile>): seq<ImpactedFile>
  {
    if !IsConfigFile(target.name) then [] else ConfigEntries(target, files)
  }

  method AnalyzeConfigurationImpact(target: Target, files: seq<ProjectFile>) returns (impacted: seq<ImpactedFile>)
    ensures !IsConfigFile(target.name) ==> impacted == []
    ensures IsConfigFile(target.name) ==> impacted == ConfigEntries(target, files)
  {
    impacted := [];
    if !IsConfigFile(target.name) {
      return;
    }
    for i := 0 to |files|
      invariant impacted == ConfigEntries(target, files[..i])
    {
      ConfigEntriesStep(target, files, i);
      impacted := impacted + ConfigEntry(target, files[i]);
    }
    assert files[..|files|] == files;
  }

  // ------------------------------------------------------------------- build

  /** The code files other than the target, in walk order. */
  function BuildAffected(target: Target, files: seq<ProjectFile>): (r: seq<ProjectFile>)
    ensures |r| <= |files|
  {
    if files == [] then []
    else
      var f := files[|files| - 1];
      BuildAffected(target, files[..|files| - 1]) + (if IsCodeFile(f.name) && f.path != target.path then [f] else [])
  }

  lemma {:induction false} BuildAffectedSpec(target: Target, files: seq<ProjectFile>)
    ensures forall k :: 0 <= k < |BuildAffected(target, files)| ==>
              var f := BuildAffected(target, files)[k];
              f in files && IsCodeFile(f.name) && f.path != target.path
  {
    if files != [] {
      BuildAffectedSpec(target, files[..|files| - 1]);
      assert forall g :: g in files[..|files| - 1] ==> g in files;
    }
  }

  function BuildEntry(f: ProjectFile): ImpactedFile
  {
    ImpactedFile(f.relPath, BuildImpact, Critical, "Build system change affects compilation/packaging", None,
                 ["Run full build and test suite", "Check for build errors"])
  }

  /** The loop of `_analyze_build_impact` that gathers the code files other than the target. */
  method CollectBuildAffected(target: Target, files: seq<ProjectFile>) returns (affected: seq<ProjectFile>)
    ensures affected == BuildAffected(target, files)
  {
    affected := [];
    for i := 0 to |files|
      invariant affected == BuildAffected(target, files[..i])
    {
      assert files[..i + 1][..i] == files[..i];
      if IsCodeFile(files[i].name) && files[i].path != target.path {
        affected := affected + [files[i]];
      }
    }
    assert files[..|files|] == files;
  }

  /** The loop of `_analyze_build_impact` over `affected_files[:20]`. */
  method BuildEntriesOf(affected: seq<ProjectFile>) returns (impacted: seq<ImpactedFile>)
    ensures |impacted| == Min(20, |affected|)
    ensures forall k :: 0 <= k < |impacted| ==> impacted[k] == BuildEntry(affected[k])
  {
    impacted := [];
    for k := 0 to Min(20, |affected|)
      invariant |impacted| == k
      invariant forall j :: 0 <= j < k ==> impacted[j] == BuildEntry(affected[j])
    {
      impacted := impacted + [BuildEntry(affected[k])];
    }
  }

  /** The entries `_analyze_build_impact` returns. */
  function BuildPart(target: Target, files: seq<ProjectFile>): seq<ImpactedFile>
  {
    if target.name !in BuildFiles then []
    else
      var affected := BuildAffected(target, files);
      seq(Min(20, |affected|), k requires 0 <= k < Min(20, |affected|) => BuildEntry(affected[k]))
  }

  /** `_analyze_build_impact`: at most 20 CRITICAL entries, one per affected code file, never the target. */
  method AnalyzeBuildImpact(target: Target, files: seq<ProjectFile>) returns (impacted: seq<ImpactedFile>)
    ensures target.name !in BuildFiles ==> impacted == []
    ensures target.name in BuildFiles ==>
      var affected := BuildAffected(target, files);
      |impacted| == Min(20, |affected|) &&
      forall k :: 0 <= k < |impacted| ==> impacted[k] == BuildEntry(affected[k])
    ensures impacted == BuildPart(target, files)
  {
    if target.name !in BuildFiles {
      return [];
    }
    var affected := CollectBuildAffected(target, files);
    impacted := BuildEntriesOf(affected);
  }

  /** Every build entry is CRITICAL, and they name code files other than the target. */
  lemma AnalyzeBuildImpactShape(target: Target, files: seq<ProjectFile>, impacted: seq<ImpactedFile>)
    requires target.name in BuildFiles
    requires |impacted| == Min(20, |BuildAffected(target, files)|)
    requires forall k :: 0 <= k < |impacted| ==> impacted[k] == BuildEntry(BuildAffected(target, files)[k])
    ensures |impacted| <= 20
    ensures forall k :: 0 <= k < |impacted| ==>
              impacted[k].impactType == BuildImpact && impacted[k].severity == Critical &&
              exists f :: f in files && IsCodeFile(f.name) && f.path != target.path && impacted[k].path == f.relPath
  {
    BuildAffectedSpec(target, files);
    forall k | 0 <= k < |impacted|
      ensures exists f :: f in files && IsCodeFile(f.name) && f.path != target.path && impacted[k].path == f.relPath
    {
      var f := BuildAffected(target, files)[k];
      assert impacted[k].path == f.relPath;
    }
  }

  // -------------------------------------------------------------------- tests

  /** `re.sub(r"^test_|_test$|\.test$|\.spec$", "", stem)`. */
  function TestedName(stem: string): (r: string)
    ensures |r| <= |stem|
  {
    var rest := if StartsWith(stem, "test_") then stem[5..] else stem;
    if EndsWith(rest, "_test") || EndsWith(rest, ".test") || EndsWith(rest, ".spec")
    then rest[..|rest| - 5]
    else rest
  }

  lemma TestedNameStrips(core: string)
    ensures TestedName("test_" + core + "_test") == core
    ensures TestedName(core + ".spec") == core || StartsWith(core + ".spec", "test_")
  {
    var s := "test_" + core + "_test";
    assert s[..5] == "test_" && s[5..] == core + "_test";
    assert (core + "_test")[|core + "_test"| - 5..] == "_test";
    assert (core + "_test")[..|core|] == core;
    var t := core + ".spec";
    assert t[|t| - 5..] == ".spec" && t[..|t| - 5] == core;
  }

  predicate IsTestedFile(f: ProjectFile, tested: string)
  {
    IsCodeFile(f.name) && Stem(f.name) == tested
  }

  /** The first file, in walk order, that `tested` names. */
  function FirstTested(tested: string, files: seq<ProjectFile>): Option<ProjectFile>
  {
    if files == [] then None
    else if IsTestedFile(files[0], tested) then Some(files[0])
    else FirstTested(tested, files[1..])
  }

  /** `_find_tested_file`: the first code file whose stem is the stripped test stem. */
  method FindTestedFile(testName: string, files: seq<ProjectFile>) returns (r: Option<ProjectFile>)
    ensures r == FirstTested(TestedName(Stem(testName)), files)
    ensures r.Some? ==> IsTestedFile(r.value, TestedName(Stem(testName)))
    ensures r.Some? ==> (exists k :: 0 <= k < |files| && files[k] == r.value &&
                                     forall j :: 0 <= j < k ==> !IsTestedFile(files[j], TestedName(Stem(testName))))
    ensures r.None? ==> forall k :: 0 <= k < |files| ==> !IsTestedFile(files[k], TestedName(Stem(testName)))
  {
    var tested := TestedName(Stem(testName));
    var i := 0;
    while i < |files|
      invariant 0 <= i <= |files|
      invariant forall j :: 0 <= j < i ==> !IsTestedFile(files[j], tested)
      invariant FirstTested(tested, files[i..]) == FirstTested(tested, files)
    {
      assert files[i..][1..] == files[i + 1..];
      if IsTestedFile(files[i], tested) {
        return Some(files[i]);
      }
      i := i + 1;
    }
    return None;
  }

  predicate TestsTarget(f: ProjectFile, targetName: string)
  {
    IsTestFile(f.name) && Contains(Stem(f.name), Stem(targetName))
  }

  /** `_find_test_files`: every test file whose stem contains the target's stem, in walk order. */
  function TestFilesFor(targetName: string, files: seq<ProjectFile>): (r: seq<ProjectFile>)
    ensures |r| <= |files|
  {
    if files == [] then []
    else
      var f := files[|files| - 1];
      TestFilesFor(targetName, files[..|files| - 1]) + (if TestsTarget(f, targetName) then [f] else [])
  }

  lemma {:induction false} TestFilesForSpec(targetName: string, files: seq<ProjectFile>)
    ensures forall f :: f in TestFilesFor(targetName, files) <==> f in files && TestsTarget(f, targetName)
  {
    if files != [] {
      var init := files[..|files| - 1];
      TestFilesForSpec(targetName, init);
      assert forall g :: g in files <==> g in init || g == files[|files| - 1];
    }
  }

  function TestedEntry(rel: string): ImpactedFile
  {
    ImpactedFile(rel, TestImpact, Medium, "Test file changes may indicate issues with tested code",
                 None, ["Review implementation in " + rel])
  }

  function TestEntry(f: ProjectFile): ImpactedFile
  {
    ImpactedFile(f.relPath, TestImpact, Medium, "Code changes may require test updates",
                 None, ["Update tests in " + f.relPath, "Run test suite"])
  }

  /** The loop of `_analyze_test_impact` over the test files of a code file. */
  method TestEntriesOf(tests: seq<ProjectFile>) returns (impacted: seq<ImpactedFile>)
    ensures |impacted| == |tests|
    ensures forall k :: 0 <= k < |tests| ==> impacted[k] == TestEntry(tests[k])
  {
    impacted := [];
    for k := 0 to |tests|
      invariant |impacted| == k
      invariant forall j :: 0 <= j < k ==> impacted[j] == TestEntry(tests[j])
    {
      impacted := impacted + [TestEntry(tests[k])];
    }
  }

  /** The entries `_analyze_test_impact` returns. */
  function TestPart(target: Target, files: seq<ProjectFile>): seq<ImpactedFile>
  {
    if IsTestFile(target.name) then
      match FirstTested(TestedName(Stem(target.name)), files)
      case Some(f) => [TestedEntry(f.relPath)]
      case None => []
    else if IsCodeFile(target.name) then
      var tests := TestFilesFor(target.name, files);
      seq(|tests|, k requires 0 <= k < |tests| => TestEntry(tests[k]))
    else []
  }

  /**
   * `_analyze_test_impact`: a changed test file points at the code file it tests, a changed code
   * file at every test file for it; everything else has no test impact.
   */
  method AnalyzeTestImpact(target: Target, files: seq<ProjectFile>) returns (impacted: seq<ImpactedFile>)
    ensures impacted == TestPart(target, files)
    ensures IsTestFile(target.name) ==> |impacted| <= 1
    ensures IsTestFile(target.name) && |impacted| == 1 ==>
      exists k :: 0 <= k < |files| && IsTestedFile(files[k], TestedName(Stem(target.name))) &&
                  impacted[0] == TestedEntry(files[k].relPath)
    ensures IsTestFile(target.name) && impacted == [] ==>
      forall k :: 0 <= k < |files| ==> !IsTestedFile(files[k], TestedName(Stem(target.name)))
    ensures !IsTestFile(target.name) && IsCodeFile(target.name) ==>
      var tests := TestFilesFor(target.name, files);
      |impacted| == |tests| && forall k :: 0 <= k < |tests| ==> impacted[k] == TestEntry(tests[k])
    ensures !IsTestFile(target.name) && !IsCodeFile(target.name) ==> impacted == []
  {
    impacted := [];
    if IsTestFile(target.name) {
      var tested := FindTestedFile(target.name, files);
      if tested.Some? {
        impacted := [TestedEntry(tested.value.relPath)];
      }
    } else if IsCodeFile(target.name) {
      var tests := TestFilesFor(target.name, files);
      impacted := TestEntriesOf(tests);
    }
  }

  // ----------------------------------------------------------------- scoring

  function Weight(s: Severity): nat
  {
    match s
    case SeverityNone => 0
    case Low => 1
    case Medium => 5
    case High => 15
    case Critical => 50
  }

  function WeightSum(files: seq<ImpactedFile>): nat
  {
    if files == [] then 0 else WeightSum(files[..|files| - 1]) + Weight(files[|files| - 1].severity)
  }

  /** `_calculate_severity_score`: severity weights plus a file-count bonus, capped at 254. */
  function SeverityScore(files: seq<ImpactedFile>): (r: int)
    ensures 0 <= r <= 254
    ensures r == 0 <==> files == []
  {
    if files == [] then 0
    else Min(254, WeightSum(files) + Min(50, |files| * 2))
  }

  lemma {:induction false} WeightSumAppend(files: seq<ImpactedFile>, more: seq<ImpactedFile>)
    ensures WeightSum(files) <= WeightSum(files + more)
    decreases |more|
  {
    if more != [] {
      var init := more[..|more| - 1];
      assert files + more == (files + init) + [more[|more| - 1]];
      assert (files + more)[..|files + more| - 1] == files + init;
      assert WeightSum(files + more) == WeightSum(files + init) + Weight(more[|more| - 1].severity);
      WeightSumAppend(files, init);
    } else {
      assert files + more == files;
    }
  }

  /** Appending impacted files never lowers the score. */
  lemma SeverityScoreMonotone(files: seq<ImpactedFile>, more: seq<ImpactedFile>)
    ensures SeverityScore(files) <= SeverityScore(files + more)
  {
    WeightSumAppend(files, more);
  }

  /** A single impacted file scores its severity's weight plus the two-point bonus for one file. */
  lemma SeverityScoreSingle(f: ImpactedFile)
    ensures f.severity == Critical ==> SeverityScore([f]) == 52
    ensures f.severity == High ==> SeverityScore([f]) == 17
    ensures f.severity == Medium ==> SeverityScore([f]) == 7
    ensures f.severity == Low ==> SeverityScore([f]) == 3
    ensures f.severity == SeverityNone ==> SeverityScore([f]) == 2
  {
    assert [f][..0] == [];
    assert WeightSum([f]) == Weight(f.severity);
  }

  /** `_get_max_severity`. */
  method GetMaxSeverity(files: seq<ImpactedFile>) returns (m: Severity)
    ensures forall f :: f in files ==> Rank(f.severity) <= Rank(m)
    ensures files == [] ==> m == SeverityNone
    ensures files != [] ==> exists f :: f in files && f.severity == m
  {
    if files == [] {
      return SeverityNone;
    }
    m := SeverityNone;
    for i := 0 to |files|
      invariant forall j :: 0 <= j < i ==> Rank(files[j].severity) <= Rank(m)
      invariant m == SeverityNone || exists j :: 0 <= j < i && files[j].severity == m
    {
      if Rank(files[i].severity) > Rank(m) {
        m := files[i].severity;
      }
    }
    if m == SeverityNone {
      assert files[0].severity == SeverityNone;
    }
  }

  // ------------------------------------------------------- summary and advice

  function TypeValues(files: seq<ImpactedFile>): (r: seq<string>)
    ensures |r| == |files|
  {
    seq(|files|, i requires 0 <= i < |files| => TypeValue(files[i].impactType))
  }

  function SeverityValues(files: seq<ImpactedFile>): (r: seq<string>)
    ensures |r| == |files|
  {
    seq(|files|, i requires 0 <= i < |files| => SeverityValue(files[i].severity))
  }

  /** The text `_generate_summary` returns. */
  function SummaryText(files: seq<ImpactedFile>, target: string): string
  {
    if files == [] then "No impact detected for changes to " + target
    else "Changes to " + target + " impact " + IntToString(|files|) + " files; Impact types: "
         + CountsText(TypeValues(files)) + "; Severity: " + CountsText(SeverityValues(files))
  }

  /** `_generate_summary`. */
  method GenerateSummary(files: seq<ImpactedFile>, target: string) returns (summary: string)
    ensures files == [] ==> summary == "No impact detected for changes to " + target
    ensures files != [] ==>
      summary == "Changes to " + target + " impact " + IntToString(|files|) + " files; Impact types: "
                 + CountsText(TypeValues(files)) + "; Severity: " + CountsText(SeverityValues(files))
    ensures summary == SummaryText(files, target)
  {
    if files == [] {
      return "No impact detected for changes to " + target;
    }
    var types := TallyText(TypeValues(files));
    var severities := TallyText(SeverityValues(files));
    summary := "Changes to " + target + " impact " + IntToString(|files|) + " files; Impact types: "
               + types + "; Severity: " + severities;
  }

  /** The type counts listed in the summary add up to the number of impacted files. */
  lemma SummaryCountsTotal(files: seq<ImpactedFile>)
    ensures SumCounts(TypeValues(files), Dedup(TypeValues(files))) == |files|
    ensures SumCounts(SeverityValues(files), Dedup(SeverityValues(files))) == |files|
  {
    TallyTotal(TypeValues(files));
    TallyTotal(SeverityValues(files));
  }

  predicate IsHighImpact(s: Severity)
  {
    s == High || s == Critical
  }

  function HighCount(files: seq<ImpactedFile>): (r: nat)
    ensures r <= |files|
  {
    if files == [] then 0
    else HighCount(files[..|files| - 1]) + (if IsHighImpact(files[|files| - 1].severity) then 1 else 0)
  }

  /** `high_impact_files` is nonempty exactly when some impacted file is HIGH or CRITICAL. */
  lemma {:induction false} HighCountPositive(files: seq<ImpactedFile>)
    ensures HighCount(files) > 0 <==> exists k :: 0 <= k < |files| && IsHighImpact(files[k].severity)
  {
    if files != [] {
      var init := files[..|files| - 1];
      HighCountPositive(init);
      assert forall k :: 0 <= k < |init| ==> init[k] == files[k];
    }
  }

  /** The sentences `_generate_recommendations` can emit. */
  datatype Advice =
    | Isolated | RunFullTests | MigrationGuide | ReviewApi | UpdateApiDocs
    | CheckImports | UpdateTests | VerifyConfig | PayAttention(n: nat)

  function AdviceText(a: Advice): string
  {
    match a
    case Isolated => "No specific actions required - isolated change"
    case RunFullTests => "Run full test suite before deploying"
    case MigrationGuide => "Consider creating a migration guide"
    case ReviewApi => "Review API compatibility and versioning"
    case UpdateApiDocs => "Update documentation for API changes"
    case CheckImports => "Check all import statements and dependencies"
    case UpdateTests => "Update and run affected tests"
    case VerifyConfig => "Verify configuration compatibility across environments"
    case PayAttention(n) => "Pay special attention to " + IntToString(n) + " high-impact files"
  }

  predicate HasType(files: seq<ImpactedFile>, t: ImpactType)
  {
    exists f :: f in files && f.impactType == t
  }

  /** The type-driven sentences, in the order `_generate_recommendations` appends them. */
  function TypeAdvice(build: bool, api: bool, dep: bool, test: bool, conf: bool): (r: seq<Advice>)
    ensures RunFullTests in r <==> build
    ensures ReviewApi in r <==> api
    ensures CheckImports in r <==> dep
    ensures UpdateTests in r <==> test
    ensures VerifyConfig in r <==> conf
    ensures forall a :: a in r ==> !a.PayAttention? && a != Isolated
  {
    var r1 := if build then [RunFullTests, MigrationGuide] else [];
    var r2 := if api then [ReviewApi, UpdateApiDocs] else [];
    var r3 := if dep then [CheckImports] else [];
    var r4 := if test then [UpdateTests] else [];
    var r5 := if conf then [VerifyConfig] else [];
    assert forall a :: a in r1 + r2 + r3 + r4 + r5 <==> a in r1 || a in r2 || a in r3 || a in r4 || a in r5;
    r1 + r2 + r3 + r4 + r5
  }

  /** `len(high_impact_files)`, counted in a loop. */
  method CountHighImpact(files: seq<ImpactedFile>) returns (high: nat)
    ensures high == HighCount(files)
  {
    high := 0;
    for i := 0 to |files|
      invariant high == HighCount(files[..i])
    {
      assert files[..i + 1][..i] == files[..i];
      if IsHighImpact(files[i].severity) {
        high := high + 1;
      }
    }
    assert files[..|files|] == files;
  }

  /** The type-driven sentences followed by the high-impact sentence when `high > 0`. */
  function AdviceList(build: bool, api: bool, dep: bool, test: bool, conf: bool, high: nat): seq<Advice>
  {
    TypeAdvice(build, api, dep, test, conf) + (if high > 0 then [PayAttention(high)] else [])
  }

  lemma AdviceListSpec(build: bool, api: bool, dep: bool, test: bool, conf: bool, high: nat)
    ensures var recs := AdviceList(build, api, dep, test, conf, high);
      && (RunFullTests in recs <==> build)
      && (ReviewApi in recs <==> api)
      && (CheckImports in recs <==> dep)
      && (UpdateTests in recs <==> test)
      && (VerifyConfig in recs <==> conf)
      && (high > 0 <==> PayAttention(high) in recs)
      && (high > 0 ==> recs[|recs| - 1] == PayAttention(high))
      && (forall k :: 0 <= k < |recs| - 1 ==> !recs[k].PayAttention?)
      && Isolated !in recs
  {
    var typed := TypeAdvice(build, api, dep, test, conf);
    var tail := if high > 0 then [PayAttention(high)] else [];
    ConcatParts(typed, tail);
  }

  lemma ConcatParts<T>(a: seq<T>, b: seq<T>)
    ensures forall x :: x in a + b <==> x in a || x in b
    ensures forall k :: 0 <= k < |a| ==> (a + b)[k] == a[k]
    ensures forall k :: |a| <= k < |a + b| ==> (a + b)[k] == b[k - |a|]
  {
  }

  /** The advice `_generate_recommendations` returns (rendered by `AdviceText`). */
  function Recommendations(files: seq<ImpactedFile>): seq<Advice>
  {
    if files == [] then [Isolated]
    else
      AdviceList(HasType(files, BreakingChange) || HasType(files, BuildImpact), HasType(files, ApiImpact),
                 HasType(files, DependencyImpact), HasType(files, TestImpact), HasType(files, ConfigurationImpact),
                 HighCount(files))
  }

  /** Which sentences appear, and that the high-impact sentence, when present, comes last. */
  lemma RecommendationsSpec(files: seq<ImpactedFile>)
    ensures files == [] ==> Recommendations(files) == [Isolated]
    ensures files != [] ==>
      var recs := Recommendations(files);
      && (RunFullTests in recs <==> HasType(files, BreakingChange) || HasType(files, BuildImpact))
      && (ReviewApi in recs <==> HasType(files, ApiImpact))
      && (CheckImports in recs <==> HasType(files, DependencyImpact))
      && (UpdateTests in recs <==> HasType(files, TestImpact))
      && (VerifyConfig in recs <==> HasType(files, ConfigurationImpact))
      && (HighCount(files) > 0 <==> PayAttention(HighCount(files)) in recs)
      && (HighCount(files) > 0 ==> recs[|recs| - 1] == PayAttention(HighCount(files)))
      && (forall k :: 0 <= k < |recs| - 1 ==> !recs[k].PayAttention?)
      && Isolated !in recs
  {
    if files != [] {
      var build := HasType(files, BreakingChange) || HasType(files, BuildImpact);
      var api, dep := HasType(files, ApiImpact), HasType(files, DependencyImpact);
      var test, conf := HasType(files, TestImpact), HasType(files, ConfigurationImpact);
      var high := HighCount(files);
      assert Recommendations(files) == AdviceList(build, api, dep, test, conf, high);
      AdviceListSpec(build, api, dep, test, conf, high);
    }
  }

  /** `_generate_recommendations`, with the high-impact files counted in a loop. */
  method GenerateRecommendations(files: seq<ImpactedFile>) returns (recs: seq<Advice>)
    ensures recs == Recommendations(files)
  {
    if files == [] {
      return [Isolated];
    }
    var build := HasType(files, BreakingChange) || HasType(files, BuildImpact);
    var api, dep := HasType(files, ApiImpact), HasType(files, DependencyImpact);
    var test, conf := HasType(files, TestImpact), HasType(files, ConfigurationImpact);
    var typed := TypeAdvice(build, api, dep, test, conf);
    var high := CountHighImpact(files);
    recs := typed + if high > 0 then [PayAttention(high)] else [];
    assert recs == AdviceList(build, api, dep, test, conf, high);
  }

  /** The impacted files of `analyze_file_impact`: the five analyses, in the order it extends the list. */
  function ImpactedOf(target: Target, apiNames: seq<string>, files: seq<ProjectFile>): seq<ImpactedFile>
  {
    DependencyEntries(target, files) + ApiPart(target, apiNames, files) + ConfigPart(target, files)
    + BuildPart(target, files) + TestPart(target, files)
  }

  /** `analyze_file_impact`; `exists` says whether the target path exists. */
  method AnalyzeFileImpact(target: Target, exists_: bool, relativeTarget: string,
                           apiNames: seq<string>, files: seq<ProjectFile>) returns (r: Result<ImpactAnalysis>)
    ensures !exists_ <==> r.Err?
    ensures r.Ok? ==>
      && r.value.totalImpactedFiles == |r.value.impactedFiles|
      && r.value.severityScore == SeverityScore(r.value.impactedFiles)
      && 0 <= r.value.severityScore <= 254
      && (forall f :: f in r.value.impactedFiles ==> Rank(f.severity) <= Rank(r.value.maxSeverity))
      && r.value.targetFile == relativeTarget
    ensures r.Ok? ==> r.value.impactedFiles == ImpactedOf(target, apiNames, files)
    ensures r.Ok? ==> (r.value.impactedFiles == [] ==> r.value.maxSeverity == SeverityNone)
    ensures r.Ok? ==> (r.value.impactedFiles != [] ==>
                         exists f :: f in r.value.impactedFiles && f.severity == r.value.maxSeverity)
    ensures r.Ok? ==> r.value.summary == SummaryText(r.value.impactedFiles, relativeTarget)
    ensures r.Ok? ==> r.value.recommendations == Recommendations(r.value.impactedFiles)
  {
    if !exists_ {
      return Err("Target file does not exist: " + target.path);
    }
    var dep := AnalyzeDependencyImpact(target, files);
    var api := AnalyzeApiImpact(target, apiNames, files);
    var conf := AnalyzeConfigurationImpact(target, files);
    var build := AnalyzeBuildImpact(target, files);
    var tests := AnalyzeTestImpact(target, files);
    var impacted := dep + api + conf + build + tests;
    var score := SeverityScore(impacted);
    var maxSeverity := GetMaxSeverity(impacted);
    var summary := GenerateSummary(impacted, relativeTarget);
    var recs := GenerateRecommendations(impacted);
    r := Ok(ImpactAnalysis(relativeTarget, |impacted|, score, maxSeverity, impacted, summary, recs));
  }
}
