/**
 * The project-context analyser: it votes on the project's language from
 * file names, picks a framework from content counts, reads dependencies
 * from requirements.txt, pyproject.toml and package.json, lists build
 * tools and test frameworks, and folds everything into a 0..254
 * complexity score.
 */
module ContextAnalyzer {
  import opened Common
  import J = JsonText

  datatype ProjectType = Python | JavaScript | TypeScript | Nix | Rust | Go | Java | Mixed | Unknown

  datatype FrameworkType =
    Django | Flask | FastApi | React | Vue | Angular | Express | NextJs | UnknownFramework

  /** The types `PROJECT_INDICATORS` scores, in enum order; MIXED and UNKNOWN always score 0. */
  const ScoredTypes: seq<ProjectType> := [Python, JavaScript, TypeScript, Nix, Rust, Go, Java]

  /** The frameworks `FRAMEWORK_INDICATORS` scores, in enum order. */
  const ScoredFrameworks: seq<FrameworkType> :=
    [Django, Flask, FastApi, React, Vue, Angular, Express, NextJs]

  /** A file the walk collected. `text` is its lines when it could be read;
      `packageJson` is the value `json.loads` gives when the file is read and parsed
      without one of the errors the dependency loop catches, whatever JSON value it is. */
  datatype ContextFile = ContextFile(
    path: string,
    name: string,
    relPath: string,
    depth: nat,
    text: Option<seq<string>>,
    packageJson: Option<J.Json>)

  /**
   * `DependencyInfo`. The version is the text after the name in requirements.txt, or the value a
   * package.json table holds for the name, whatever JSON value that is.
   */
  datatype Dependency = Dependency(name: string, version: Option<J.Json>, dev: bool, sourceFile: string)

  /** A direct child of the project directory. */
  datatype DirEntry = DirEntry(name: string, isDir: bool)

  datatype ProjectContext = ProjectContext(
    projectType: ProjectType,
    framework: FrameworkType,
    complexityScore: nat,
    totalFiles: nat,
    codeFiles: nat,
    configFiles: nat,
    dependencies: seq<Dependency>,
    entryPoints: seq<string>,
    buildTools: seq<BuildTool>,
    testFrameworks: seq<TestFramework>,
    keyDirectories: seq<string>)

  /** `any(indicator in name for indicator in indicators)`. */
  predicate AnyContained(name: string, indicators: seq<string>)
  {
    exists k | 0 <= k < |indicators| :: Contains(name, indicators[k])
  }

  // ------------------------------------------------------- project type

  function ProjectIndicators(t: ProjectType): seq<string>
  {
    match t
    case Python => ["pyproject.toml", "setup.py", "requirements.txt", "Pipfile"]
    case JavaScript => ["package.json", "yarn.lock", "npm-shrinkwrap.json"]
    case TypeScript => ["tsconfig.json", "package.json"]
    case Nix => ["flake.nix", "default.nix", "shell.nix"]
    case Rust => ["Cargo.toml", "Cargo.lock"]
    case Go => ["go.mod", "go.sum"]
    case Java => ["pom.xml", "build.gradle", "gradle.properties"]
    case _ => []
  }

  /** The type a lower-cased suffix votes for. */
  function SuffixVote(suffix: string): Option<ProjectType>
  {
    if suffix == ".py" then Some(Python)
    else if suffix == ".js" || suffix == ".jsx" then Some(JavaScript)
    else if suffix == ".ts" || suffix == ".tsx" then Some(TypeScript)
    else if suffix == ".nix" then Some(Nix)
    else if suffix == ".rs" then Some(Rust)
    else if suffix == ".go" then Some(Go)
    else if suffix == ".java" || suffix == ".kt" then Some(Java)
    else None
  }

  /** What one file adds to the score of `t`: an indicator hit and a suffix vote. */
  function FileVotes(name: string, t: ProjectType): (r: nat)
    ensures r <= 2
  {
    (if AnyContained(name, ProjectIndicators(t)) then 1 else 0)
    + (if SuffixVote(Lower(Suffix(name))) == Some(t) then 1 else 0)
  }

  function TypeScore(names: seq<string>, t: ProjectType): (r: nat)
    ensures r <= 2 * |names|
  {
    if names == [] then 0
    else TypeScore(names[..|names| - 1], t) + FileVotes(names[|names| - 1], t)
  }

  /** The scores of `ScoredTypes`, index by index. */
  function TypeScores(names: seq<string>): (r: seq<nat>)
    ensures |r| == |ScoredTypes|
    ensures forall k :: 0 <= k < |r| ==> r[k] == TypeScore(names, ScoredTypes[k])
  {
    seq(|ScoredTypes|, k requires 0 <= k < |ScoredTypes| => TypeScore(names, ScoredTypes[k]))
  }

  /** `s >= max_score * 0.7`, exactly, for integer scores. */
  predicate HighScore(s: nat, m: nat)
  {
    10 * s >= 7 * m
  }

  /** `len([t for t, s in scores if s >= m * 0.7])`. */
  function CountHigh(scores: seq<nat>, m: nat): nat
  {
    if scores == [] then 0
    else CountHigh(scores[..|scores| - 1], m) + (if HighScore(scores[|scores| - 1], m) then 1 else 0)
  }

  lemma {:induction false} CountHighOne(scores: seq<nat>, m: nat)
    ensures CountHigh(scores, m) >= 1 <==> exists i :: 0 <= i < |scores| && HighScore(scores[i], m)
  {
    if scores != [] {
      var init := scores[..|scores| - 1];
      CountHighOne(init, m);
      assert forall i :: 0 <= i < |init| ==> init[i] == scores[i];
    }
  }

  /** At least two entries reach 70% of `m` exactly when the count says so. */
  lemma {:induction false} CountHighPair(scores: seq<nat>, m: nat)
    ensures CountHigh(scores, m) >= 2 <==>
            exists i, j :: 0 <= i < j < |scores| && HighScore(scores[i], m) && HighScore(scores[j], m)
  {
    if scores != [] {
      var n := |scores|;
      var init := scores[..n - 1];
      CountHighPair(init, m);
      CountHighOne(init, m);
      assert forall i :: 0 <= i < |init| ==> init[i] == scores[i];
      if CountHigh(scores, m) >= 2 && CountHigh(init, m) < 2 {
        var i :| 0 <= i < |init| && HighScore(init[i], m);
        assert HighScore(scores[i], m) && HighScore(scores[n - 1], m);
      }
    }
  }

  /** The decision at the end of `_detect_project_type`, over the seven scores. */
  function ChooseProjectType(scores: seq<nat>): (r: ProjectType)
    requires |scores| == |ScoredTypes|
    ensures r == Unknown <==> forall k :: 0 <= k < |scores| ==> scores[k] == 0
    ensures r == Mixed <==>
            SeqMax(scores) > 0
            && exists i, j :: 0 <= i < j < |scores| && HighScore(scores[i], SeqMax(scores))
                                                 && HighScore(scores[j], SeqMax(scores))
    ensures r != Unknown && r != Mixed ==>
            (exists k :: 0 <= k < |scores| && r == ScoredTypes[k] && scores[k] == SeqMax(scores) > 0
                         && forall j :: 0 <= j < |scores| && j != k ==> scores[j] < scores[k])
  {
    var m := SeqMax(scores);
    CountHighPair(scores, m);
    if m == 0 then Unknown
    else if CountHigh(scores, m) > 1 then Mixed
    else
      var k := FirstArgMax(scores);
      assert HighScore(scores[k], m);
      assert forall j :: 0 <= j < |scores| && j != k ==> !HighScore(scores[j], m);
      ScoredTypes[k]
  }

  /** One more file's votes added to every score. */
  function AddVotes(scores: seq<nat>, name: string): (r: seq<nat>)
    requires |scores| == |ScoredTypes|
    ensures |r| == |ScoredTypes|
    ensures forall k :: 0 <= k < |r| ==> r[k] == scores[k] + FileVotes(name, ScoredTypes[k])
  {
    seq(|ScoredTypes|, k requires 0 <= k < |ScoredTypes| => scores[k] + FileVotes(name, ScoredTypes[k]))
  }

  lemma TypeScoreStep(names: seq<string>, i: nat, t: ProjectType)
    requires i < |names|
    ensures TypeScore(names[..i + 1], t) == TypeScore(names[..i], t) + FileVotes(names[i], t)
  {
    assert names[..i + 1][..i] == names[..i];
  }

  lemma TypeScoresStep(names: seq<string>, i: nat)
    requires i < |names|
    ensures TypeScores(names[..i + 1]) == AddVotes(TypeScores(names[..i]), names[i])
  {
    forall k | 0 <= k < |ScoredTypes|
      ensures TypeScores(names[..i + 1])[k] == AddVotes(TypeScores(names[..i]), names[i])[k]
    {
      TypeScoreStep(names, i, ScoredTypes[k]);
    }
  }

  /** `_detect_project_type`: accumulate every file's votes, then decide. */
  method DetectProjectType(names: seq<string>) returns (pt: ProjectType)
    ensures pt == ChooseProjectType(TypeScores(names))
  {
    var scores: seq<nat> := [0, 0, 0, 0, 0, 0, 0];
    assert scores == TypeScores(names[..0]);
    for i := 0 to |names|
      invariant scores == TypeScores(names[..i])
    {
      TypeScoresStep(names, i);
      scores := AddVotes(scores, names[i]);
    }
    assert names[..|names|] == names;
    pt := ChooseProjectType(scores);
  }

  // ---------------------------------------------------------- framework

  function FrameworkIndicators(f: FrameworkType): seq<string>
  {
    match f
    case Django => ["manage.py", "django", "Django"]
    case Flask => ["flask", "Flask"]
    case FastApi => ["fastapi", "FastAPI"]
    case React => ["react", "React"]
    case Vue => ["vue", "Vue"]
    case Angular => ["@angular", "angular"]
    case Express => ["express"]
    case NextJs => ["next", "Next.js"]
    case UnknownFramework => []
  }

  /** Python's `s.count(w)`: non-overlapping occurrences, scanning left to right. */
  function StrCount(s: string, w: string): nat
    requires w != []
    decreases |s|
  {
    if |s| < |w| then 0
    else if s[..|w|] == w then 1 + StrCount(s[|w|..], w)
    else StrCount(s[1..], w)
  }

  /** The count is positive exactly when `w in s`, so the source's `if indicator in content` guard changes nothing. */
  lemma {:induction false} StrCountPositive(s: string, w: string)
    requires w != []
    ensures StrCount(s, w) > 0 <==> Contains(s, w)
    decreases |s|
  {
    if |s| < |w| {
      NotContainsShort(s, w, 0);
    } else if s[..|w|] == w {
      assert OccursAt(s, 0, w);
    } else {
      StrCountPositive(s[1..], w);
      ContainsTail(s, w);
    }
  }

  lemma NotContainsShort(s: string, w: string, j: nat)
    requires |s| < |w|
    ensures !OccursFrom(s, j, w)
    decreases |s| - j
  {
    if j < |s| {
      NotContainsShort(s, w, j + 1);
    }
  }

  /** When `w` is not at the front of `s`, it is in `s` iff it is in `s[1..]`. */
  lemma ContainsTail(s: string, w: string)
    requires s != [] && !OccursAt(s, 0, w)
    ensures Contains(s, w) <==> Contains(s[1..], w)
  {
    if Contains(s, w) {
      var k := OccursIndex(s, 0, w);
      assert k >= 1;
      assert s[1..][k - 1..k - 1 + |w|] == s[k..k + |w|];
      OccursFromWitness(s[1..], 0, w, k - 1);
    }
    if Contains(s[1..], w) {
      var k := OccursIndex(s[1..], 0, w);
      assert s[k + 1..k + 1 + |w|] == s[1..][k..k + |w|];
      OccursFromWitness(s, 0, w, k + 1);
    }
  }

  lemma OccursIndex(s: string, j: nat, w: string) returns (k: int)
    requires OccursFrom(s, j, w)
    ensures j <= k && OccursAt(s, k, w)
    decreases |s| - j
  {
    if OccursAt(s, j, w) {
      k := j;
    } else {
      k := OccursIndex(s, j + 1, w);
    }
  }

  function IndicatorCount(line: string, indicators: seq<string>): nat
  {
    if indicators == [] then 0
    else
      var w := indicators[|indicators| - 1];
      IndicatorCount(line, indicators[..|indicators| - 1]) + (if w == [] then 0 else StrCount(line, w))
  }

  function LinesCount(lines: seq<string>, indicators: seq<string>): nat
  {
    if lines == [] then 0
    else LinesCount(lines[..|lines| - 1], indicators) + IndicatorCount(lines[|lines| - 1], indicators)
  }

  /** Only .json, .py, .js and .ts files are read for framework indicators. */
  predicate FrameworkSource(f: ContextFile)
  {
    Lower(Suffix(f.name)) in {".json", ".py", ".js", ".ts"} && f.text.Some?
  }

  function FileFrameworkScore(f: ContextFile, fw: FrameworkType): nat
  {
    if FrameworkSource(f) then LinesCount(f.text.value, FrameworkIndicators(fw)) else 0
  }

  function FrameworkScore(files: seq<ContextFile>, fw: FrameworkType): nat
  {
    if files == [] then 0
    else FrameworkScore(files[..|files| - 1], fw) + FileFrameworkScore(files[|files| - 1], fw)
  }

  function FrameworkScores(files: seq<ContextFile>): (r: seq<nat>)
    ensures |r| == |ScoredFrameworks|
    ensures forall k :: 0 <= k < |r| ==> r[k] == FrameworkScore(files, ScoredFrameworks[k])
  {
    seq(|ScoredFrameworks|, k requires 0 <= k < |ScoredFrameworks| => FrameworkScore(files, ScoredFrameworks[k]))
  }

  /** UNKNOWN when nothing scored, otherwise the first framework with the top score. */
  function ChooseFramework(scores: seq<nat>): (r: FrameworkType)
    requires |scores| == |ScoredFrameworks|
    ensures r == UnknownFramework <==> forall k :: 0 <= k < |scores| ==> scores[k] == 0
    ensures r != UnknownFramework ==>
            (exists k :: 0 <= k < |scores| && r == ScoredFrameworks[k] && scores[k] == SeqMax(scores) > 0
                         && forall j :: 0 <= j < k ==> scores[j] < scores[k])
  {
    if SeqMax(scores) == 0 then UnknownFramework
    else ScoredFrameworks[FirstArgMax(scores)]
  }

  function AddFrameworkScores(scores: seq<nat>, f: ContextFile): (r: seq<nat>)
    requires |scores| == |ScoredFrameworks|
    ensures |r| == |ScoredFrameworks|
    ensures forall k :: 0 <= k < |r| ==> r[k] == scores[k] + FileFrameworkScore(f, ScoredFrameworks[k])
  {
    seq(|ScoredFrameworks|, k requires 0 <= k < |ScoredFrameworks| => scores[k] + FileFrameworkScore(f, ScoredFrameworks[k]))
  }

  lemma FrameworkScoreStep(files: seq<ContextFile>, i: nat, fw: FrameworkType)
    requires i < |files|
    ensures FrameworkScore(files[..i + 1], fw) == FrameworkScore(files[..i], fw) + FileFrameworkScore(files[i], fw)
  {
    assert files[..i + 1][..i] == files[..i];
  }

  lemma FrameworkScoresStep(files: seq<ContextFile>, i: nat)
    requires i < |files|
    ensures FrameworkScores(files[..i + 1]) == AddFrameworkScores(FrameworkScores(files[..i]), files[i])
  {
    forall k | 0 <= k < |ScoredFrameworks|
      ensures FrameworkScores(files[..i + 1])[k] == AddFrameworkScores(FrameworkScores(files[..i]), files[i])[k]
    {
      FrameworkScoreStep(files, i, ScoredFrameworks[k]);
    }
  }

  /** `_detect_framework`: add up the indicator counts of the readable source files, then decide. */
  method DetectFramework(files: seq<ContextFile>) returns (fw: FrameworkType)
    ensures fw == ChooseFramework(FrameworkScores(files))
  {
    var scores: seq<nat> := [0, 0, 0, 0, 0, 0, 0, 0];
    assert scores == FrameworkScores(files[..0]);
    for i := 0 to |files|
      invariant scores == FrameworkScores(files[..i])
    {
      FrameworkScoresStep(files, i);
      scores := AddFrameworkScores(scores, files[i]);
    }
    assert files[..|files|] == files;
    fw := ChooseFramework(scores);
  }

  // ------------------------------------------------------- dependencies

  /** The character class `[a-zA-Z0-9_-]`. */
  predicate IsNameChar(c: char)
  {
    IsWordChar(c) || c == '-'
  }

  /** The longest prefix of name characters: what `([a-zA-Z0-9_-]+)` matches at the start. */
  function NameRun(s: string): (r: string)
    ensures |r| <= |s| && r == s[..|r|]
    ensures forall i :: 0 <= i < |r| ==> IsNameChar(r[i])
    ensures |r| < |s| ==> !IsNameChar(s[|r|])
    ensures r == [] <==> s == [] || !IsNameChar(s[0])
  {
    if s != [] && IsNameChar(s[0]) then [s[0]] + NameRun(s[1..]) else []
  }

  /** The character class `[>=<~!]`. */
  predicate IsOperatorChar(c: char)
  {
    c == '>' || c == '=' || c == '<' || c == '~' || c == '!'
  }

  /**
   * One line of requirements.txt: `re.match(r"([a-zA-Z0-9_-]+)([>=<~!]+.*)?", line)`
   * on the stripped line, skipping blank lines and comments.
   */
  function RequirementLine(line: string, source: string): (r: Option<Dependency>)
    ensures r.Some? ==> r.value.name != [] && !r.value.dev && r.value.sourceFile == source
  {
    var l := Strip(line);
    if l == [] || l[0] == '#' then None
    else
      var n := NameRun(l);
      if n == [] then None
      else
        var version := if |n| < |l| && IsOperatorChar(l[|n|]) then Some(J.Str(l[|n|..])) else None;
        Some(Dependency(n, version, false, source))
  }

  /**
   * A line yields a dependency exactly when its stripped form starts with a name character; the
   * name is the longest run of name characters, and the version is the rest when it starts with
   * an operator.
   */
  lemma RequirementLineSpec(line: string, source: string)
    ensures var r := RequirementLine(line, source);
      && (r.Some? <==> Strip(line) != [] && IsNameChar(Strip(line)[0]))
      && (r.Some? ==>
            var l, d := Strip(line), r.value;
            && StartsWith(l, d.name)
            && (forall i :: 0 <= i < |d.name| ==> IsNameChar(d.name[i]))
            && (|d.name| < |l| ==> !IsNameChar(l[|d.name|]))
            && (d.version.Some? <==> |d.name| < |l| && IsOperatorChar(l[|d.name|]))
            && (d.version.Some? ==> d.version.value.Str? && l == d.name + d.version.value.s))
  {
    var l := Strip(line);
    if l != [] && IsNameChar(l[0]) {
      var n := NameRun(l);
      assert l[0] != '#';
      assert StartsWith(l, n);
      if |n| < |l| && IsOperatorChar(l[|n|]) {
        assert l == n + l[|n|..];
      }
    }
  }

  function RequirementDeps(lines: seq<string>, source: string): (r: seq<Dependency>)
    ensures |r| <= |lines|
    ensures forall k :: 0 <= k < |r| ==> r[k].name != [] && !r[k].dev && r[k].sourceFile == source
  {
    if lines == [] then []
    else
      var init := RequirementDeps(lines[..|lines| - 1], source);
      match RequirementLine(lines[|lines| - 1], source)
      case Some(d) => init + [d]
      case None => init
  }

  /** The requirements.txt branch of `_analyze_dependencies`. */
  method ParseRequirements(lines: seq<string>, source: string) returns (deps: seq<Dependency>)
    ensures deps == RequirementDeps(lines, source)
  {
    deps := [];
    for i := 0 to |lines|
      invariant deps == RequirementDeps(lines[..i], source)
    {
      assert lines[..i + 1][..i] == lines[..i];
      var d := RequirementLine(lines[i], source);
      if d.Some? {
        deps := deps + [d.value];
      }
    }
    assert lines[..|lines|] == lines;
  }

  /** Which dependency table of pyproject.toml the scan is in. */
  datatype TomlState = TomlState(inPoetry: bool, inProject: bool)

  datatype TomlStep = TomlStep(state: TomlState, names: seq<string>)

  predicate Exclusive(st: TomlState)
  {
    !(st.inPoetry && st.inProject)
  }

  const ProjectDepsHeader: string := "dependencies = ["

  /** `[re.match(NAME, d.strip().strip("\"'")).group(1) for d in pieces]`, dropping pieces with no name. */
  function InlineNames(pieces: seq<string>): (r: seq<string>)
    ensures |r| <= |pieces|
    ensures forall k :: 0 <= k < |r| ==> r[k] != [] && forall i :: 0 <= i < |r[k]| ==> IsNameChar(r[k][i])
  {
    if pieces == [] then []
    else
      var n := NameRun(StripChars(Strip(pieces[|pieces| - 1]), {'"', '\''}));
      InlineNames(pieces[..|pieces| - 1]) + (if n != [] then [n] else [])
  }

  /** The names of an inline `dependencies = [a, b]` array. */
  function InlineArray(line: string): seq<string>
    requires StartsWith(line, ProjectDepsHeader)
  {
    var rest := RStripChars(line[|ProjectDepsHeader|..], {']'});
    if rest == [] then [] else InlineNames(SplitOn(rest, ','))
  }

  /** One iteration of the pyproject.toml scan, on the raw line. */
  function TomlLineStep(st: TomlState, raw: string): TomlStep
  {
    var line := Strip(raw);
    if line == "[tool.poetry.dependencies]" then TomlStep(TomlState(true, false), [])
    else if StartsWith(line, ProjectDepsHeader) then TomlStep(TomlState(false, true), InlineArray(line))
    else if StartsWith(line, "[") && (st.inPoetry || st.inProject) then TomlStep(TomlState(false, false), [])
    else if st.inProject && StartsWith(line, "\"") && EndsWith(line, "\",") then
      var n := NameRun(StripChars(line, {'"', ','}));
      TomlStep(st, if n != [] then [n] else [])
    else if st.inPoetry && '=' in line then TomlStep(st, PoetryEntry(line))
    else TomlStep(st, [])
  }

  /** The name a poetry dependency line records: the key before `=`, unquoted, unless it is `python`. */
  function PoetryEntry(line: string): seq<string>
  {
    ExceptPython(StripChars(Strip(SplitOn(line, '=')[0]), {'"'}))
  }

  /** A recorded name, dropped when it is `python`. */
  function ExceptPython(n: string): (r: seq<string>)
    ensures "python" !in r
    ensures n != "python" ==> r == [n]
  {
    if n != "python" then [n] else []
  }

  /** The scan never has both tables open. */
  lemma TomlStepExclusive(st: TomlState, raw: string)
    requires Exclusive(st)
    ensures Exclusive(TomlLineStep(st, raw).state)
  {
  }

  /** While the poetry table stays open, the `python` entry is never recorded. */
  lemma PoetryNeverRecordsPython(st: TomlState, raw: string)
    requires Exclusive(st)
    ensures TomlLineStep(st, raw).state.inPoetry ==> "python" !in TomlLineStep(st, raw).names
  {
    var line := Strip(raw);
    var step := TomlLineStep(st, raw);
    if line == "[tool.poetry.dependencies]" {
      assert step.names == [];
    } else if StartsWith(line, ProjectDepsHeader) {
      assert !step.state.inPoetry;
    } else if StartsWith(line, "[") && (st.inPoetry || st.inProject) {
      assert step.names == [];
    } else if st.inProject && StartsWith(line, "\"") && EndsWith(line, "\",") {
      assert step.state == st;
    } else if st.inPoetry && '=' in line {
      assert step.names == PoetryEntry(line);
    } else {
      assert step.names == [];
    }
  }

  /** Any other section header closes an open table and records nothing. */
  lemma OtherHeaderCloses(st: TomlState, raw: string)
    requires var line := Strip(raw);
             StartsWith(line, "[") && line != "[tool.poetry.dependencies]" && !StartsWith(line, ProjectDepsHeader)
    requires st.inPoetry || st.inProject
    ensures TomlLineStep(st, raw) == TomlStep(TomlState(false, false), [])
  {
  }

  /** Outside both tables only the two headers have any effect. */
  lemma ClosedTablesRecordOnlyInline(raw: string)
    ensures !StartsWith(Strip(raw), ProjectDepsHeader) ==> TomlLineStep(TomlState(false, false), raw).names == []
  {
  }

  /** The scan over the first lines: final state and every name recorded. */
  function TomlRun(lines: seq<string>): (r: TomlStep)
    ensures Exclusive(r.state)
  {
    if lines == [] then TomlStep(TomlState(false, false), [])
    else
      var prev := TomlRun(lines[..|lines| - 1]);
      TomlStepExclusive(prev.state, lines[|lines| - 1]);
      var s := TomlLineStep(prev.state, lines[|lines| - 1]);
      TomlStep(s.state, prev.names + s.names)
  }

  lemma TomlRunStep(lines: seq<string>, i: nat)
    requires i < |lines|
    ensures var prev := TomlRun(lines[..i]);
            var s := TomlLineStep(prev.state, lines[i]);
            TomlRun(lines[..i + 1]) == TomlStep(s.state, prev.names + s.names)
  {
    assert lines[..i + 1][..|lines[..i + 1]| - 1] == lines[..i];
  }

  /** Names found in pyproject.toml become dependencies with no version. */
  function NamedDependencies(names: seq<string>, source: string): (r: seq<Dependency>)
    ensures |r| == |names|
    ensures forall k :: 0 <= k < |r| ==> r[k] == Dependency(names[k], None, false, source)
  {
    seq(|names|, k requires 0 <= k < |names| => Dependency(names[k], None, false, source))
  }

  lemma NamedDependenciesAppend(a: seq<string>, b: seq<string>, source: string)
    ensures NamedDependencies(a + b, source) == NamedDependencies(a, source) + NamedDependencies(b, source)
  {
  }

  /** The pyproject.toml branch of `_analyze_dependencies`. */
  method ParsePyproject(lines: seq<string>, source: string) returns (deps: seq<Dependency>)
    ensures deps == NamedDependencies(TomlRun(lines).names, source)
  {
    deps := [];
    var st := TomlState(false, false);
    for i := 0 to |lines|
      invariant st == TomlRun(lines[..i]).state
      invariant deps == NamedDependencies(TomlRun(lines[..i]).names, source)
    {
      TomlRunStep(lines, i);
      var step := TomlLineStep(st, lines[i]);
      NamedDependenciesAppend(TomlRun(lines[..i]).names, step.names, source);
      st := step.state;
      deps := deps + NamedDependencies(step.names, source);
    }
    assert lines[..|lines|] == lines;
  }

  function PackageEntries(entries: seq<J.Entry>, dev: bool, source: string): (r: seq<Dependency>)
    ensures |r| == |entries|
    ensures forall k :: 0 <= k < |r| ==>
              r[k] == Dependency(entries[k].key, Some(entries[k].value), dev, source)
  {
    if entries == [] then []
    else
      var n := |entries| - 1;
      PackageEntries(entries[..n], dev, source) + [Dependency(entries[n].key, Some(entries[n].value), dev, source)]
  }

  /** The AttributeError of calling `.items()` on a value that is not a dictionary. */
  function NoItems(v: J.Json): string
  {
    "AttributeError: '" + J.TypeName(v) + "' object has no attribute 'items'"
  }

  /**
   * What a parsed package.json contributes: `content.get` on the two tables, defaulting to `{}`,
   * then `.items()` on each. Neither call is guarded, so a value that is not an object raises.
   */
  function PackageDependencies(content: J.Json, source: string): Result<seq<Dependency>>
  {
    if !content.Dict? then Err(J.NoGet(content))
    else
      var deps := J.GetOr(content.entries, "dependencies", J.Dict([]));
      var devDeps := J.GetOr(content.entries, "devDependencies", J.Dict([]));
      if !deps.Dict? then Err(NoItems(deps))
      else if !devDeps.Dict? then Err(NoItems(devDeps))
      else Ok(PackageEntries(deps.entries, false, source) + PackageEntries(devDeps.entries, true, source))
  }

  /**
   * A package.json that is not an object raises on `.get`, a table that is present but not an
   * object (`null`, a list, a string) raises on `.items()`, and a missing table adds nothing;
   * otherwise the regular entries come first, then the dev entries, one dependency each.
   */
  lemma PackageDependenciesCases(content: J.Json, source: string)
    ensures !content.Dict? ==> PackageDependencies(content, source) == Err(J.NoGet(content))
    ensures content.Dict? && J.HasKey(content.entries, "dependencies")
            && !J.Get(content.entries, "dependencies").Dict? ==>
              PackageDependencies(content, source) == Err(NoItems(J.Get(content.entries, "dependencies")))
    ensures content == J.Dict([]) ==> PackageDependencies(content, source) == Ok([])
    ensures PackageDependencies(content, source).Ok? ==>
              var r := PackageDependencies(content, source).value;
              && content.Dict?
              && var deps := J.GetOr(content.entries, "dependencies", J.Dict([]));
                 var devDeps := J.GetOr(content.entries, "devDependencies", J.Dict([]));
                 && deps.Dict? && devDeps.Dict?
                 && |r| == |deps.entries| + |devDeps.entries|
                 && forall k :: 0 <= k < |r| ==>
                      r[k].sourceFile == source
                      && (r[k].dev <==> k >= |deps.entries|)
                      && r[k] == (if k < |deps.entries| then Dependency(deps.entries[k].key, Some(deps.entries[k].value), false, source)
                                  else Dependency(devDeps.entries[k - |deps.entries|].key,
                                                  Some(devDeps.entries[k - |deps.entries|].value), true, source))
  {
    if content.Dict? {
      var deps := J.GetOr(content.entries, "dependencies", J.Dict([]));
      var devDeps := J.GetOr(content.entries, "devDependencies", J.Dict([]));
      if deps.Dict? && devDeps.Dict? {
        var a, b := PackageEntries(deps.entries, false, source), PackageEntries(devDeps.entries, true, source);
        assert PackageDependencies(content, source).value == a + b;
      }
    }
  }

  /**
   * What one file contributes; a file whose read or parse raises a caught error contributes
   * nothing, and a package.json of the wrong shape raises.
   */
  function FileDependencies(f: ContextFile, pt: ProjectType): Result<seq<Dependency>>
  {
    if f.name == "package.json" && (pt == JavaScript || pt == TypeScript) then
      match f.packageJson
      case Some(content) => PackageDependencies(content, f.path)
      case None => Ok([])
    else if f.name == "requirements.txt" && pt == Python then
      match f.text
      case Some(lines) => Ok(RequirementDeps(lines, f.path))
      case None => Ok([])
    else if f.name == "pyproject.toml" && pt == Python then
      match f.text
      case Some(lines) => Ok(NamedDependencies(TomlRun(lines).names, f.path))
      case None => Ok([])
    else Ok([])
  }

  /** The dependencies of the walked files in walk order; the first file that raises ends the loop. */
  function Dependencies(files: seq<ContextFile>, pt: ProjectType): Result<seq<Dependency>>
  {
    if files == [] then Ok([])
    else
      match Dependencies(files[..|files| - 1], pt)
      case Err(e) => Err(e)
      case Ok(init) =>
        match FileDependencies(files[|files| - 1], pt)
        case Err(e) => Err(e)
        case Ok(more) => Ok(init + more)
  }

  /** The loop raises exactly when some file raises, and then with the first such file's error. */
  lemma {:induction false} DependenciesErr(files: seq<ContextFile>, pt: ProjectType)
    ensures Dependencies(files, pt).Err? <==> exists i :: 0 <= i < |files| && FileDependencies(files[i], pt).Err?
    ensures Dependencies(files, pt).Err? ==>
              exists i :: 0 <= i < |files| && FileDependencies(files[i], pt) == Err(Dependencies(files, pt).msg)
                          && forall j :: 0 <= j < i ==> FileDependencies(files[j], pt).Ok?
  {
    if files != [] {
      var n := |files| - 1;
      DependenciesErr(files[..n], pt);
      assert forall i :: 0 <= i < n ==> files[..n][i] == files[i];
      if Dependencies(files[..n], pt).Err? {
        var i :| 0 <= i < n && FileDependencies(files[..n][i], pt) == Err(Dependencies(files[..n], pt).msg)
                 && forall j :: 0 <= j < i ==> FileDependencies(files[..n][j], pt).Ok?;
        assert FileDependencies(files[i], pt) == Err(Dependencies(files, pt).msg);
      } else if FileDependencies(files[n], pt).Err? {
        assert FileDependencies(files[n], pt) == Err(Dependencies(files, pt).msg);
      }
    }
  }

  /** Once a prefix of the walk raises, the whole loop raises with that error. */
  lemma {:induction false} DependenciesErrPrefix(files: seq<ContextFile>, pt: ProjectType, i: nat)
    requires i <= |files| && Dependencies(files[..i], pt).Err?
    ensures Dependencies(files, pt) == Dependencies(files[..i], pt)
    decreases |files| - i
  {
    if i < |files| {
      assert files[..i + 1][..i] == files[..i];
      DependenciesErrPrefix(files, pt, i + 1);
    } else {
      assert files[..i] == files;
    }
  }

  /** What one file contributes names that file as its source; only package.json gives dev dependencies. */
  lemma FileDependencySource(f: ContextFile, pt: ProjectType)
    ensures FileDependencies(f, pt).Ok? ==>
              forall k :: 0 <= k < |FileDependencies(f, pt).value| ==>
                FileDependencies(f, pt).value[k].sourceFile == f.path
                && (FileDependencies(f, pt).value[k].dev ==> f.name == "package.json")
  {
    var r := FileDependencies(f, pt);
    if f.name == "package.json" && (pt == JavaScript || pt == TypeScript) {
      if f.packageJson.Some? {
        PackageDependenciesCases(f.packageJson.value, f.path);
      }
    } else if f.name == "requirements.txt" && pt == Python {
      if f.text.Some? {
        assert r == Ok(RequirementDeps(f.text.value, f.path));
      }
    } else if f.name == "pyproject.toml" && pt == Python {
      if f.text.Some? {
        assert r == Ok(NamedDependencies(TomlRun(f.text.value).names, f.path));
      }
    } else {
      assert r == Ok([]);
    }
  }

  /** Each dependency comes from a file of the walk, and dev dependencies only from package.json. */
  lemma {:induction false} DependencySources(files: seq<ContextFile>, pt: ProjectType)
    ensures Dependencies(files, pt).Ok? ==>
              forall k :: 0 <= k < |Dependencies(files, pt).value| ==>
                exists i :: 0 <= i < |files| && Dependencies(files, pt).value[k].sourceFile == files[i].path
                            && (Dependencies(files, pt).value[k].dev ==> files[i].name == "package.json")
  {
    if files != [] && Dependencies(files, pt).Ok? {
      var n := |files| - 1;
      var init := Dependencies(files[..n], pt).value;
      var more := FileDependencies(files[n], pt).value;
      DependencySources(files[..n], pt);
      FileDependencySource(files[n], pt);
      assert forall i :: 0 <= i < n ==> files[..n][i] == files[i];
      var all: seq<Dependency> := init + more;
      assert Dependencies(files, pt).value == all;
      forall k | 0 <= k < |all|
        ensures exists i :: 0 <= i < |files| && all[k].sourceFile == files[i].path
                            && (all[k].dev ==> files[i].name == "package.json")
      {
        if k < |init| {
          var i :| 0 <= i < n && init[k].sourceFile == files[..n][i].path
                   && (init[k].dev ==> files[..n][i].name == "package.json");
          assert all[k] == init[k] && files[..n][i] == files[i];
        } else {
          assert all[k] == more[k - |init|];
          assert files[n].path == all[k].sourceFile;
        }
      }
    } else if files == [] {
      assert Dependencies(files, pt).value == [];
    }
  }

  /** Projects of any type but Python, JavaScript and TypeScript have no dependencies. */
  lemma {:induction false} OtherTypesHaveNoDependencies(files: seq<ContextFile>, pt: ProjectType)
    requires pt != Python && pt != JavaScript && pt != TypeScript
    ensures Dependencies(files, pt) == Ok([])
  {
    if files != [] {
      OtherTypesHaveNoDependencies(files[..|files| - 1], pt);
      assert FileDependencies(files[|files| - 1], pt) == Ok([]);
      var none: seq<Dependency> := [];
      assert Dependencies(files, pt) == Ok(none + none);
      assert none + none == none;
    }
  }

  /** The body of the loop of `_analyze_dependencies`, for one file. */
  method FileDependenciesOf(f: ContextFile, pt: ProjectType) returns (more: Result<seq<Dependency>>)
    ensures more == FileDependencies(f, pt)
  {
    more := Ok([]);
    if f.name == "package.json" && (pt == JavaScript || pt == TypeScript) {
      if f.packageJson.Some? {
        more := PackageDependencies(f.packageJson.value, f.path);
      }
    } else if f.name == "requirements.txt" && pt == Python {
      if f.text.Some? {
        var ds := ParseRequirements(f.text.value, f.path);
        more := Ok(ds);
      }
    } else if f.name == "pyproject.toml" && pt == Python {
      if f.text.Some? {
        var ds := ParsePyproject(f.text.value, f.path);
        more := Ok(ds);
      }
    }
  }

  /** `_analyze_dependencies`: an exception the loop does not catch ends it and escapes. */
  method AnalyzeDependencies(files: seq<ContextFile>, pt: ProjectType) returns (deps: Result<seq<Dependency>>)
    ensures deps == Dependencies(files, pt)
  {
    var found: seq<Dependency> := [];
    for i := 0 to |files|
      invariant Dependencies(files[..i], pt) == Ok(found)
    {
      assert files[..i + 1][..i] == files[..i];
      var more := FileDependenciesOf(files[i], pt);
      if more.Err? {
        DependenciesErrPrefix(files, pt, i + 1);
        return Err(more.msg);
      }
      found := found + more.value;
    }
    assert files[..|files|] == files;
    deps := Ok(found);
  }

  // -------------------------------------------------------- entry points

  const CommonEntryPoints: seq<string> :=
    ["main.py", "app.py", "server.py", "index.js", "index.ts", "main.js", "main.ts",
     "src/main.py", "src/index.js"]

  predicate IsEntryPoint(f: ContextFile)
  {
    AnyContained(f.relPath, CommonEntryPoints)
  }

  function EntryPoints(files: seq<ContextFile>): seq<string>
  {
    Collect(files, IsEntryPoint, (f: ContextFile) => f.relPath)
  }

  /** `_find_entry_points`: relative paths containing one of the common entry-point names. */
  method FindEntryPoints(files: seq<ContextFile>) returns (entries: seq<string>)
    ensures entries == EntryPoints(files)
  {
    entries := [];
    for i := 0 to |files|
      invariant entries == EntryPoints(files[..i])
    {
      assert files[..i + 1][..i] == files[..i];
      if IsEntryPoint(files[i]) {
        entries := entries + [files[i].relPath];
      }
    }
    assert files[..|files|] == files;
  }

  // --------------------------------------------------------- build tools

  datatype BuildTool =
    Webpack | Vite | Rollup | Parcel | Esbuild | Poetry | Pip | Npm | Yarn | Cargo | GoTool | Maven | Gradle | NixTool

  /** The key order of `BUILD_TOOLS`. */
  const BuildToolOrder: seq<BuildTool> :=
    [Webpack, Vite, Rollup, Parcel, Esbuild, Poetry, Pip, Npm, Yarn, Cargo, GoTool, Maven, Gradle, NixTool]

  function BuildToolName(t: BuildTool): string
  {
    match t
    case Webpack => "webpack"
    case Vite => "vite"
    case Rollup => "rollup"
    case Parcel => "parcel"
    case Esbuild => "esbuild"
    case Poetry => "poetry"
    case Pip => "pip"
    case Npm => "npm"
    case Yarn => "yarn"
    case Cargo => "cargo"
    case GoTool => "go"
    case Maven => "maven"
    case Gradle => "gradle"
    case NixTool => "nix"
  }

  /** Every tool has its place in `BuildToolOrder`. */
  function BuildToolIndex(t: BuildTool): (r: nat)
    ensures r < |BuildToolOrder| && BuildToolOrder[r] == t
  {
    match t
    case Webpack => 0
    case Vite => 1
    case Rollup => 2
    case Parcel => 3
    case Esbuild => 4
    case Poetry => 5
    case Pip => 6
    case Npm => 7
    case Yarn => 8
    case Cargo => 9
    case GoTool => 10
    case Maven => 11
    case Gradle => 12
    case NixTool => 13
  }

  function BuildIndicators(t: BuildTool): seq<string>
  {
    match t
    case Webpack => ["webpack.config.js", "webpack.config.ts"]
    case Vite => ["vite.config.js", "vite.config.ts"]
    case Rollup => ["rollup.config.js"]
    case Parcel => [".parcelrc"]
    case Esbuild => ["esbuild.config.js"]
    case Poetry => ["pyproject.toml"]
    case Pip => ["requirements.txt", "setup.py"]
    case Npm => ["package.json"]
    case Yarn => ["yarn.lock"]
    case Cargo => ["Cargo.toml"]
    case GoTool => ["go.mod"]
    case Maven => ["pom.xml"]
    case Gradle => ["build.gradle"]
    case NixTool => ["flake.nix", "default.nix"]
  }

  predicate ToolDetected(names: seq<string>, t: BuildTool)
  {
    exists i | 0 <= i < |names| :: AnyContained(names[i], BuildIndicators(t))
  }

  function DetectedTools(names: seq<string>): seq<BuildTool>
  {
    Filter(BuildToolOrder, t => ToolDetected(names, t))
  }

  /** Each tool is listed at most once, in `BUILD_TOOLS` order, exactly when one of its files is present. */
  lemma DetectedToolsSpec(names: seq<string>)
    ensures Distinct(DetectedTools(names))
    ensures forall t :: t in DetectedTools(names) <==> ToolDetected(names, t)
  {
    assert Distinct(BuildToolOrder);
    FilterDistinct(BuildToolOrder, t => ToolDetected(names, t));
    var r := DetectedTools(names);
    FilterSpec(BuildToolOrder, t => ToolDetected(names, t));
    forall t ensures t in r <==> ToolDetected(names, t) {
      var k := BuildToolIndex(t);
      if t in r {
        var j :| 0 <= j < |r| && r[j] == t;
      }
    }
  }

  /** The inner loop of `_detect_build_tools`: scan the files until one name contains an indicator. */
  method AnyFileMatches(names: seq<string>, indicators: seq<string>) returns (found: bool)
    ensures found <==> exists i | 0 <= i < |names| :: AnyContained(names[i], indicators)
  {
    var j := 0;
    found := false;
    while j < |names| && !found
      invariant 0 <= j <= |names|
      invariant found <==> exists i | 0 <= i < j :: AnyContained(names[i], indicators)
    {
      found := AnyContained(names[j], indicators);
      j := j + 1;
    }
  }

  /** The outer loop of `_detect_build_tools`, over the tools in `order`. */
  method DetectAmong(names: seq<string>, order: seq<BuildTool>) returns (tools: seq<BuildTool>)
    ensures tools == Filter(order, t => ToolDetected(names, t))
  {
    tools := [];
    for n := 0 to |order|
      invariant tools == Filter(order[..n], t => ToolDetected(names, t))
    {
      FilterStep(order, t => ToolDetected(names, t), n);
      var found := AnyFileMatches(names, BuildIndicators(order[n]));
      if found {
        tools := tools + [order[n]];
      }
    }
    assert order[..|order|] == order;
  }

  /** `_detect_build_tools`: for each tool, scan the files until one matches. */
  method DetectBuildTools(names: seq<string>) returns (tools: seq<BuildTool>)
    ensures tools == DetectedTools(names)
  {
    tools := DetectAmong(names, BuildToolOrder);
  }

  // ------------------------------------------------------ test frameworks

  datatype TestFramework = Pytest | Unittest | Jest | Mocha | Vitest | Cypress | Playwright | CargoTest

  const TestFrameworkOrder: seq<TestFramework> :=
    [Pytest, Unittest, Jest, Mocha, Vitest, Cypress, Playwright, CargoTest]

  function TestFrameworkName(f: TestFramework): string
  {
    match f
    case Pytest => "pytest"
    case Unittest => "unittest"
    case Jest => "jest"
    case Mocha => "mocha"
    case Vitest => "vitest"
    case Cypress => "cypress"
    case Playwright => "playwright"
    case CargoTest => "cargo-test"
  }

  function TestFrameworkIndex(f: TestFramework): (r: nat)
    ensures r < |TestFrameworkOrder| && TestFrameworkOrder[r] == f
  {
    match f
    case Pytest => 0
    case Unittest => 1
    case Jest => 2
    case Mocha => 3
    case Vitest => 4
    case Cypress => 5
    case Playwright => 6
    case CargoTest => 7
  }

  function TestIndicators(f: TestFramework): seq<string>
  {
    match f
    case Pytest => ["pytest", "conftest.py"]
    case Unittest => ["unittest"]
    case Jest => ["jest", "jest.config.js"]
    case Mocha => ["mocha"]
    case Vitest => ["vitest"]
    case Cypress => ["cypress"]
    case Playwright => ["playwright"]
    case CargoTest => ["Cargo.toml"]
  }

  /** Some lower-cased indicator is among the lower-cased dependency names. */
  predicate DeclaredBy(deps: seq<Dependency>, f: TestFramework)
  {
    exists k, d | 0 <= k < |TestIndicators(f)| && 0 <= d < |deps| ::
      Lower(TestIndicators(f)[k]) == Lower(deps[d].name)
  }

  predicate LooksLikeTest(name: string)
  {
    Contains(Lower(name), "test") || Contains(Lower(name), "spec")
  }

  /** The suffix test here is case-sensitive, unlike the name test. */
  predicate PythonTestFile(name: string)
  {
    LooksLikeTest(name) && Suffix(name) == ".py"
  }

  predicate ScriptTestFile(name: string)
  {
    LooksLikeTest(name) && (Suffix(name) == ".js" || Suffix(name) == ".ts")
  }

  predicate HasPythonTest(names: seq<string>)
  {
    exists i | 0 <= i < |names| :: PythonTestFile(names[i])
  }

  predicate HasScriptTest(names: seq<string>)
  {
    exists i | 0 <= i < |names| :: ScriptTestFile(names[i])
  }

  /** The frameworks of the first loop, in `TEST_FRAMEWORKS` order. */
  function DeclaredFrameworks(deps: seq<Dependency>): seq<TestFramework>
  {
    Filter(TestFrameworkOrder, f => DeclaredBy(deps, f))
  }

  /** Every framework has its place in `TestFrameworkOrder`. */
  lemma AllFrameworksOrdered()
    ensures Distinct(TestFrameworkOrder)
    ensures forall f :: f in TestFrameworkOrder
  {
    forall f ensures f in TestFrameworkOrder {
      var k := TestFrameworkIndex(f);
    }
  }

  /** The first loop of `_detect_test_frameworks`, over the frameworks in `order`. */
  method DeclaredAmong(deps: seq<Dependency>, order: seq<TestFramework>) returns (found: seq<TestFramework>)
    ensures found == Filter(order, f => DeclaredBy(deps, f))
  {
    found := [];
    for n := 0 to |order|
      invariant found == Filter(order[..n], f => DeclaredBy(deps, f))
    {
      FilterStep(order, f => DeclaredBy(deps, f), n);
      if DeclaredBy(deps, order[n]) {
        found := found + [order[n]];
      }
    }
    assert order[..|order|] == order;
  }

  /** The frameworks named by a dependency, in `TEST_FRAMEWORKS` order. */
  method FindDeclaredFrameworks(deps: seq<Dependency>) returns (found: seq<TestFramework>)
    ensures found == DeclaredFrameworks(deps)
  {
    found := DeclaredAmong(deps, TestFrameworkOrder);
  }

  lemma DeclaredFrameworksSpec(deps: seq<Dependency>)
    ensures Distinct(DeclaredFrameworks(deps))
    ensures forall f :: f in DeclaredFrameworks(deps) <==> DeclaredBy(deps, f)
  {
    AllFrameworksOrdered();
    var r := DeclaredFrameworks(deps);
    FilterDistinct(TestFrameworkOrder, f => DeclaredBy(deps, f));
    FilterSpec(TestFrameworkOrder, f => DeclaredBy(deps, f));
    forall f ensures f in r <==> DeclaredBy(deps, f) {
      var k := TestFrameworkIndex(f);
      if f in r {
        var j :| 0 <= j < |r| && r[j] == f;
      }
    }
  }

  /** The index of the first name passing `p`, or the number of names when none does. */
  function FirstWhere(names: seq<string>, p: string -> bool): (r: nat)
    ensures r <= |names|
    ensures r < |names| ==> p(names[r])
    ensures forall i :: 0 <= i < r ==> !p(names[i])
  {
    if names == [] then 0
    else if p(names[0]) then 0
    else 1 + FirstWhere(names[1..], p)
  }

  /**
   * What the file loop appends: pytest and jest when each is to be added, the one whose
   * first test file comes earlier in front.
   */
  function FileAdditions(addPytest: bool, addJest: bool, pytestFirst: bool): seq<TestFramework>
  {
    if addPytest && addJest then (if pytestFirst then [Pytest, Jest] else [Jest, Pytest])
    else if addPytest then [Pytest]
    else if addJest then [Jest]
    else []
  }

  /**
   * The second loop of `_detect_test_frameworks`: pytest for a file passing
   * `isPython` and jest for one passing `isScript`, each added only if absent.
   * The two file tests are parameters so that this proof does not unfold them.
   */
  method AddTestFileFrameworks(names: seq<string>, declared: seq<TestFramework>,
                               isPython: string -> bool, isScript: string -> bool)
    returns (found: seq<TestFramework>)
    requires Distinct(declared)
    requires forall i :: 0 <= i < |names| ==> !(isPython(names[i]) && isScript(names[i]))
    ensures Distinct(found)
    ensures |found| >= |declared| && found[..|declared|] == declared
    ensures Pytest in found <==> Pytest in declared || exists i | 0 <= i < |names| :: isPython(names[i])
    ensures Jest in found <==> Jest in declared || exists i | 0 <= i < |names| :: isScript(names[i])
    ensures forall k :: |declared| <= k < |found| ==> found[k] == Pytest || found[k] == Jest
    ensures var p, s := FirstWhere(names, isPython), FirstWhere(names, isScript);
      found == declared + FileAdditions(Pytest !in declared && p < |names|, Jest !in declared && s < |names|, p < s)
  {
    ghost var p, s := FirstWhere(names, isPython), FirstWhere(names, isScript);
    found := declared;
    for j := 0 to |names|
      invariant found == declared + FileAdditions(Pytest !in declared && p < j, Jest !in declared && s < j, p < s)
      invariant Distinct(found)
    {
      var next := AddForTestFile(found, isPython(names[j]), isScript(names[j]));
      FileAdditionsStep(declared, p, s, j, isPython(names[j]), isScript(names[j]));
      found := next;
    }
    FileAdditionsMembers(Pytest !in declared && p < |names|, Jest !in declared && s < |names|, p < s);
    assert found[..|declared|] == declared;
  }

  /** The frameworks appended are pytest and jest, each exactly when it is to be added. */
  lemma FileAdditionsMembers(addPytest: bool, addJest: bool, pytestFirst: bool)
    ensures var a := FileAdditions(addPytest, addJest, pytestFirst);
      && (forall k :: 0 <= k < |a| ==> a[k] == Pytest || a[k] == Jest)
      && (Pytest in a <==> addPytest) && (Jest in a <==> addJest)
  {
  }

  /**
   * One file of the loop: a Python test file adds pytest if it is not yet there, a script
   * test file jest, any other file nothing. `p` and `s` are the first Python and script
   * test files, so the file at `j` is one of them exactly when it passes the test.
   */
  lemma FileAdditionsStep(declared: seq<TestFramework>, p: nat, s: nat, j: nat, py: bool, sc: bool)
    requires py ==> p <= j
    requires !py ==> p != j
    requires sc ==> s <= j
    requires !sc ==> s != j
    requires !(py && sc)
    ensures var found := declared + FileAdditions(Pytest !in declared && p < j, Jest !in declared && s < j, p < s);
      declared + FileAdditions(Pytest !in declared && p < j + 1, Jest !in declared && s < j + 1, p < s)
        == if py then (if Pytest in found then found else found + [Pytest])
           else if sc then (if Jest in found then found else found + [Jest])
           else found
  {
    FileAdditionsMembers(Pytest !in declared && p < j, Jest !in declared && s < j, p < s);
  }

  /** One iteration of that loop: at most one of pytest and jest is appended. */
  method AddForTestFile(found: seq<TestFramework>, isPython: bool, isScript: bool) returns (found': seq<TestFramework>)
    requires Distinct(found)
    requires !(isPython && isScript)
    ensures Distinct(found')
    ensures found' == found || found' == found + [Pytest] || found' == found + [Jest]
    ensures Pytest in found' <==> Pytest in found || isPython
    ensures Jest in found' <==> Jest in found || isScript
    ensures isPython ==> found' == if Pytest in found then found else found + [Pytest]
    ensures isScript ==> found' == if Jest in found then found else found + [Jest]
    ensures !isPython && !isScript ==> found' == found
  {
    found' := found;
    if isPython && Pytest !in found {
      DistinctAppend(found, Pytest);
      found' := found + [Pytest];
    } else if isScript && Jest !in found {
      DistinctAppend(found, Jest);
      found' := found + [Jest];
    }
  }

  /**
   * `_detect_test_frameworks`: the declared frameworks in order, then pytest
   * for a Python test file and jest for a script test file, never one twice;
   * when both are appended, pytest comes first exactly when the first Python
   * test file comes before the first script test file.
   */
  method DetectTestFrameworks(names: seq<string>, deps: seq<Dependency>) returns (found: seq<TestFramework>)
    ensures Distinct(found)
    ensures |found| >= |DeclaredFrameworks(deps)| && found[..|DeclaredFrameworks(deps)|] == DeclaredFrameworks(deps)
    ensures forall f :: f in found <==>
              DeclaredBy(deps, f)
              || (f == Pytest && HasPythonTest(names))
              || (f == Jest && HasScriptTest(names))
    ensures var declared, p, s := DeclaredFrameworks(deps), FirstWhere(names, PythonTestFile), FirstWhere(names, ScriptTestFile);
      found == declared + FileAdditions(Pytest !in declared && p < |names|, Jest !in declared && s < |names|, p < s)
  {
    var declared := FindDeclaredFrameworks(deps);
    DeclaredFrameworksSpec(deps);
    assert forall i :: 0 <= i < |names| ==> !(PythonTestFile(names[i]) && ScriptTestFile(names[i]));
    found := AddTestFileFrameworks(names, declared, PythonTestFile, ScriptTestFile);
    ghost var p, s := FirstWhere(names, PythonTestFile), FirstWhere(names, ScriptTestFile);
    FileAdditionsMembers(Pytest !in declared && p < |names|, Jest !in declared && s < |names|, p < s);
    assert HasPythonTest(names) <==> p < |names|;
    assert HasScriptTest(names) <==> s < |names|;
  }

  // ---------------------------------------------------------- complexity

  /** The greatest path depth, 0 for no files. */
  function MaxDepth(files: seq<ContextFile>): (r: nat)
    ensures forall i :: 0 <= i < |files| ==> files[i].depth <= r
    ensures files == [] ==> r == 0
    ensures files != [] ==> exists i :: 0 <= i < |files| && files[i].depth == r
  {
    if files == [] then 0
    else
      var n := |files| - 1;
      var m := MaxDepth(files[..n]);
      assert forall i :: 0 <= i < n ==> files[..n][i] == files[i];
      Max(m, files[n].depth)
  }

  /** The five capped contributions of `_calculate_complexity`, capped again at 254. */
  function ComplexityScore(fileCount: nat, depCount: nat, toolCount: nat, testCount: nat, maxDepth: nat): (r: nat)
    ensures r <= 254
  {
    Min(254, Min(50, fileCount / 10) + Min(100, depCount * 2) + Min(50, toolCount * 10)
             + Min(30, testCount * 10) + Min(24, maxDepth * 3))
  }

  /** The caps add up to 254, so the outer `min(254, ...)` never binds, and saturating every input reaches it. */
  lemma ComplexityCaps(fileCount: nat, depCount: nat, toolCount: nat, testCount: nat, maxDepth: nat)
    ensures ComplexityScore(fileCount, depCount, toolCount, testCount, maxDepth)
            == Min(50, fileCount / 10) + Min(100, depCount * 2) + Min(50, toolCount * 10)
               + Min(30, testCount * 10) + Min(24, maxDepth * 3)
    ensures fileCount >= 500 && depCount >= 50 && toolCount >= 5 && testCount >= 3 && maxDepth >= 8
            ==> ComplexityScore(fileCount, depCount, toolCount, testCount, maxDepth) == 254
  {
  }

  /** More files, dependencies, tools, test frameworks or depth never lower the score. */
  lemma ComplexityMonotone(f1: nat, d1: nat, b1: nat, t1: nat, m1: nat, f2: nat, d2: nat, b2: nat, t2: nat, m2: nat)
    requires f1 <= f2 && d1 <= d2 && b1 <= b2 && t1 <= t2 && m1 <= m2
    ensures ComplexityScore(f1, d1, b1, t1, m1) <= ComplexityScore(f2, d2, b2, t2, m2)
  {
    assert f1 / 10 <= f2 / 10;
  }

  /** `_calculate_complexity`: the depth loop, then the score. */
  method CalculateComplexity(files: seq<ContextFile>, depCount: nat, toolCount: nat, testCount: nat)
    returns (score: nat)
    ensures score == ComplexityScore(|files|, depCount, toolCount, testCount, MaxDepth(files))
    ensures score <= 254
  {
    var maxDepth := 0;
    for i := 0 to |files|
      invariant maxDepth == MaxDepth(files[..i])
    {
      assert files[..i + 1][..i] == files[..i];
      maxDepth := Max(maxDepth, files[i].depth);
    }
    assert files[..|files|] == files;
    score := ComplexityScore(|files|, depCount, toolCount, testCount, maxDepth);
  }

  // ------------------------------------------------ file kinds, directories

  const CodeExtensions: set<string> :=
    {".py", ".js", ".ts", ".jsx", ".tsx", ".rs", ".go", ".java", ".kt", ".c", ".cpp",
     ".h", ".hpp", ".cs", ".php", ".rb", ".swift", ".nix"}

  const ConfigExtensions: set<string> := {".json", ".yaml", ".yml", ".toml", ".ini", ".cfg", ".conf"}

  const ConfigNames: set<string> :=
    {"dockerfile", "makefile", "rakefile", "gemfile", "pipfile", ".gitignore", ".dockerignore", ".env"}

  predicate IsCodeFile(f: ContextFile)
  {
    Lower(Suffix(f.name)) in CodeExtensions
  }

  predicate IsConfigFile(f: ContextFile)
  {
    Lower(Suffix(f.name)) in ConfigExtensions || Lower(f.name) in ConfigNames
  }

  const CommonDirs: set<string> := {"src", "lib", "app", "components", "utils", "tests", "docs", "config"}

  predicate IsKeyDirectory(e: DirEntry)
  {
    e.isDir && !StartsWith(e.name, ".")
    && (e.name in CommonDirs
        || Contains(Lower(e.name), "test") || Contains(Lower(e.name), "spec") || Contains(Lower(e.name), "doc"))
  }

  function KeyDirectories(entries: seq<DirEntry>): seq<string>
  {
    Collect(entries, IsKeyDirectory, (e: DirEntry) => e.name)
  }

  /** `_find_key_directories`, over the directory's listing. */
  method FindKeyDirectories(entries: seq<DirEntry>) returns (dirs: seq<string>)
    ensures dirs == KeyDirectories(entries)
  {
    dirs := [];
    for i := 0 to |entries|
      invariant dirs == KeyDirectories(entries[..i])
    {
      assert entries[..i + 1][..i] == entries[..i];
      if IsKeyDirectory(entries[i]) {
        dirs := dirs + [entries[i].name];
      }
    }
    assert entries[..|entries|] == entries;
  }

  // ------------------------------------------------------------- analyze

  function Names(files: seq<ContextFile>): (r: seq<string>)
    ensures |r| == |files| && forall i :: 0 <= i < |files| ==> r[i] == files[i].name
  {
    seq(|files|, i requires 0 <= i < |files| => files[i].name)
  }

  /**
   * `ContextAnalyzer(path).analyze()`: an error naming `path` when it is missing or
   * not a directory, the exception of a package.json of the wrong shape, otherwise
   * every detector's result, with the complexity score computed from the detected
   * dependencies, tools and frameworks.
   */
  method Analyze(path: string, exists_: bool, isDir: bool, files: seq<ContextFile>, listing: seq<DirEntry>)
    returns (r: Result<ProjectContext>)
    ensures r.Err? <==>
              !exists_ || !isDir || Dependencies(files, ChooseProjectType(TypeScores(Names(files)))).Err?
    ensures !exists_ ==> r == Err("Project path does not exist: " + path)
    ensures exists_ && !isDir ==> r == Err("Project path is not a directory: " + path)
    ensures exists_ && isDir && Dependencies(files, ChooseProjectType(TypeScores(Names(files)))).Err? ==>
              r == Err(Dependencies(files, ChooseProjectType(TypeScores(Names(files)))).msg)
    ensures r.Ok? ==>
              var c := r.value;
              c.projectType == ChooseProjectType(TypeScores(Names(files)))
              && c.framework == ChooseFramework(FrameworkScores(files))
              && c.dependencies == Dependencies(files, c.projectType).value
              && c.entryPoints == EntryPoints(files)
              && c.buildTools == DetectedTools(Names(files))
              && Distinct(c.testFrameworks)
              && (forall f :: f in c.testFrameworks <==>
                    DeclaredBy(c.dependencies, f)
                    || (f == Pytest && HasPythonTest(Names(files)))
                    || (f == Jest && HasScriptTest(Names(files))))
              && c.keyDirectories == KeyDirectories(listing)
              && c.complexityScore
                 == ComplexityScore(|files|, |c.dependencies|, |c.buildTools|, |c.testFrameworks|, MaxDepth(files))
              && c.totalFiles == |files|
              && c.codeFiles == CountWhere(files, IsCodeFile)
              && c.configFiles == CountWhere(files, IsConfigFile)
  {
    if !exists_ {
      return Err("Project path does not exist: " + path);
    }
    if !isDir {
      return Err("Project path is not a directory: " + path);
    }
    var names := Names(files);
    var pt := DetectProjectType(names);
    var fw := DetectFramework(files);
    var found := AnalyzeDependencies(files, pt);
    if found.Err? {
      return Err(found.msg);
    }
    var deps := found.value;
    var entries := FindEntryPoints(files);
    var tools := DetectBuildTools(names);
    var tests := DetectTestFrameworks(names, deps);
    var dirs := FindKeyDirectories(listing);
    var score := CalculateComplexity(files, |deps|, |tools|, |tests|);
    r := Ok(ProjectContext(pt, fw, score, |files|, CountWhere(files, IsCodeFile), CountWhere(files, IsConfigFile),
                           deps, entries, tools, tests, dirs));
  }
}
