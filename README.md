# ai-dev-tools in Dafny

A model of the decision procedures and the benchmark bookkeeping of ai-dev-tools, a set of
command-line tools that help an AI assistant change a code base safely. Each tool answers
through a small integer exit code and a compact JSON result. The model has one Dafny module per
source file of that core:

- `ExitCodes`: the exit-code protocol. Counts are clamped to 0..254, risk levels to 0..3,
  booleans are 0/1, and 255 is the error code.
- `ImpactAnalyzer`, `ContextAnalyzer`, `DifferenceAnalyzer`, `Validator`: the change-impact
  assessment, the project-context detector, the file and directory differ, and the project
  validator. Each is a rule-based classifier with bounded scores, ordered findings and a
  summary.
- `SafetyChecker`, `StandaloneSafetyCheck`: the per-file risk of the library checker and of the
  standalone script. In both, the level only rises while a file is analysed.
- `PatternScanner`, `StandalonePatternScanner`: which lines resemble a fixed line. This covers
  pattern-type detection, Jaccard word similarity, per-type thresholds, sorting of the results
  and the exit code.
- `OutputStrategy`, with `JsonText`: the recursive cleaner that strips empty values, the output
  strategies, and the short-key result the tools hand to it. `JsonText` has JSON values, with
  dictionaries in insertion order, and the text `json.dumps` writes for them.
- `BenchmarkTasks`, `BenchmarkMetrics`, `BenchmarkConfig`, `BenchmarkReporting`: the benchmark
  package.
  - Task results and their state transitions, and the task registry.
  - The metrics collector, with its rates, groupings and comparisons.
  - The validated configuration, loaded from parsed TOML merged over the defaults.
  - The bar, trend, CSV and summary-table parts of the report generator.
- `CoreMetrics`, `BaselineSimulator`, `BenchmarkSuite`: the workflow metrics collector, the
  simulator of manual AI workflows, and the comparison step of the standardized benchmark.
- `AiAgent`, `AiHelper`: the workflows that combine the tools. Each classifies matches and
  files by risk, aggregates the risk and derives an exit code.
- `Common` and `Dicts`: shared helpers. `Common` has Option and Result, clamps, string and path
  tests, counting and filtering, and a stable descending sort. `Dicts` has insertion-ordered
  dictionaries.

Objects whose fields the source updates in place are classes with `modifies` clauses:
- `Validator.ProjectValidator`;
- `BenchmarkMetrics.MetricsCollector`;
- `BenchmarkTasks.TaskResult` and `BenchmarkTasks.TaskRegistry`;
- `CoreMetrics.MetricsCollector` and `CoreMetrics.WorkflowContext`;
- `BaselineSimulator.Simulator`.

Loops of the source are methods with loop invariants, proved equal to a specification function.
The properties are then proved about that function.

Inputs the code obtains from outside are parameters of the model. These include file listings
and contents, parser results, the unified diff, clock readings, memory readings and random
draws. Every regular expression is an explicit predicate over ASCII text. Python floats are
exact `real`s, `int(x)` truncates toward zero, and `round(x, 2)` rounds half to even on the
exact value.

The model follows the code where the code does not do what its documentation says. Each of
these cases has a lemma:
- The library scorer reads a `content` key that the pattern extractor never sets. The
  `KeyError` is swallowed per file, so the library scan reports no match for any input
  (`PatternScanner.NoMatchesAsWritten`, `PatternScanner.ScanFindsNothing`).
- The agent's fix-and-propagate workflow is built on that scanner, so it always exits 255
  (`AiAgent.LibraryScanFails`).
- The library's `SafetyResult` has no `warnings` attribute. So `assess_change_safety` takes its
  failure branch for every non-empty list of files (`AiAgent.LibraryAssessmentFails`).
- `RepoHealth` has no `health_score` and `ImpactAnalysis` has no `overall_risk`. So
  `analyze_project` always fails, and so does `plan_changes` with the impact step
  (`AiHelper.LibraryAnalyzeFails`, `AiHelper.LibraryPlanFails`).
- The standardized benchmark compares metrics summaries whose `execution_time` is a nested
  dictionary, so every comparison raises (`BenchmarkSuite.NestedMetricsRaise`).
- Unified-diff header lines count as changes, so a diff is never trivial
  (`DifferenceAnalyzer.HeadersDefeatTrivial`).
- For an unreadable file, the standalone safety check reports MEDIUM and safe to modify, while
  the library reports HIGH (`StandaloneSafetyCheck.UnreadableFileDiffers`).

## Model

| member | source | states |
|---|---|---|
| ExitCodes.EncodeCount | src/ai_dev_tools/core/exit_codes.py:54-59 | the code is in 0..254, is the count itself on 0..254, 0 for negatives and 254 above |
| ExitCodes.EncodeRiskLevel | src/ai_dev_tools/core/exit_codes.py:72 | the code is in 0..3, the level itself on 0..3, clamped below and above |
| ExitCodes.EncodeBoolean | src/ai_dev_tools/core/exit_codes.py:85 | the code is 0 or 1, and 1 exactly for true |
| ExitCodes.EncodeError | src/ai_dev_tools/core/exit_codes.py:95 | the error code is 255 |
| ExitCodes.DecodeCount | src/ai_dev_tools/core/exit_codes.py:104-108 | a count is decoded exactly for codes 0..254, as the code itself |
| ExitCodes.DecodeRiskLevel | src/ai_dev_tools/core/exit_codes.py:111-114 | a level is decoded exactly for codes 0..3: 0 as SAFE, 1 as MEDIUM, 2 as HIGH and 3 as CRITICAL |
| ExitCodes.DecodeBoolean | src/ai_dev_tools/core/exit_codes.py:117-123 | a boolean is decoded exactly for 0 and 1, true exactly for 1 |
| ExitCodes.CountRoundTrip | src/ai_dev_tools/core/exit_codes.py:54-59 | decoding an encoded count 0..254 gives it back |
| ExitCodes.ErrorNotACount | src/ai_dev_tools/core/exit_codes.py:95 | the error code decodes to no count and is an error |
| ExitCodes.RiskLevelIdempotent | src/ai_dev_tools/core/exit_codes.py:72 | encoding a risk level twice changes nothing, and every encoded level decodes |
| ExitCodes.RiskLevelDecodeInjective | src/ai_dev_tools/core/exit_codes.py:111-114 | two codes in 0..3 that decode to the same risk name are equal |
| ExitCodes.BooleanRoundTrip | src/ai_dev_tools/core/exit_codes.py:117-123 | decoding an encoded boolean gives it back |
| ExitCodes.EncodersNeverError | src/ai_dev_tools/core/exit_codes.py:126-128 | `is_error` holds exactly for 255, so no count, level or boolean code is an error |
| ImpactAnalyzer.TestFileNames | src/ai_dev_tools/core/impact_analyzer.py:122-131 | names of the forms test_X.py, X_test.py and X.spec.ts are test files |
| ImpactAnalyzer.DependencyEntryChoice | src/ai_dev_tools/core/impact_analyzer.py:218-253 | the target never gets an entry; a file whose lines import the target gets one entry at its relative path carrying exactly those line numbers |
| ImpactAnalyzer.DependencyEntriesShape | src/ai_dev_tools/core/impact_analyzer.py:234-246 | every dependency entry is DEPENDENCY_IMPACT, MEDIUM exactly when it lists more than 3 lines and LOW otherwise |
| ImpactAnalyzer.AnalyzeDependencyImpact | src/ai_dev_tools/core/impact_analyzer.py:203-255 | the loop yields one entry per walked file in walk order, as `DependencyEntries` defines |
| ImpactAnalyzer.UsageLines | src/ai_dev_tools/core/impact_analyzer.py:280-287 | every usage line number is a real line number (1-based) |
| ImpactAnalyzer.ApiEntrySeverity | src/ai_dev_tools/core/impact_analyzer.py:289-305 | a file with usages gets one entry, HIGH exactly when there are more than 5 usage lines, and listing the first 10 of them |
| ImpactAnalyzer.ApiEntriesShape | src/ai_dev_tools/core/impact_analyzer.py:289-305 | every API entry is API_IMPACT with severity HIGH or MEDIUM |
| ImpactAnalyzer.AnalyzeApiImpact | src/ai_dev_tools/core/impact_analyzer.py:257-317 | a non-code target or one without API names has no API impact; otherwise one entry per walked file as `ApiEntries` defines |
| ImpactAnalyzer.ConfigEntry | src/ai_dev_tools/core/impact_analyzer.py:326-371 | at most one CONFIGURATION_IMPACT entry per file, at its relative path, HIGH exactly for build files |
| ImpactAnalyzer.ConfigEntriesShape | src/ai_dev_tools/core/impact_analyzer.py:326-371 | every configuration entry is CONFIGURATION_IMPACT with severity HIGH or MEDIUM |
| ImpactAnalyzer.AnalyzeConfigurationImpact | src/ai_dev_tools/core/impact_analyzer.py:319-373 | a target that is not a configuration file has no configuration impact; otherwise the entries `ConfigEntries` defines |
| ImpactAnalyzer.BuildAffectedSpec | src/ai_dev_tools/core/impact_analyzer.py:382-389 | the build-affected files are walked code files other than the target |
| ImpactAnalyzer.CollectBuildAffected | src/ai_dev_tools/core/impact_analyzer.py:382-389 | the gathering loop yields exactly `BuildAffected` |
| ImpactAnalyzer.BuildEntriesOf | src/ai_dev_tools/core/impact_analyzer.py:391-404 | one build entry for each of the first 20 affected files, in order |
| ImpactAnalyzer.AnalyzeBuildImpact | src/ai_dev_tools/core/impact_analyzer.py:375-406 | only build files have build impact, with one entry for each of the first 20 affected code files |
| ImpactAnalyzer.AnalyzeBuildImpactShape | src/ai_dev_tools/core/impact_analyzer.py:379-404 | build impact has at most 20 entries, all BUILD_IMPACT and CRITICAL, each naming a code file other than the target |
| ImpactAnalyzer.TestedName | src/ai_dev_tools/core/impact_analyzer.py:526 | stripping the test affixes never lengthens the stem |
| ImpactAnalyzer.TestedNameStrips | src/ai_dev_tools/core/impact_analyzer.py:526 | the leading test_ and the trailing _test are removed, and so is a trailing .spec |
| ImpactAnalyzer.FindTestedFile | src/ai_dev_tools/core/impact_analyzer.py:521-533 | the result is the first code file whose stem equals the stripped test stem, and None exactly when there is none |
| ImpactAnalyzer.TestFilesForSpec | src/ai_dev_tools/core/impact_analyzer.py:508-519 | a file is listed exactly when it is walked, is a test file and its stem contains the target's stem |
| ImpactAnalyzer.TestEntriesOf | src/ai_dev_tools/core/impact_analyzer.py:427-440 | one TEST_IMPACT entry per test file, in order |
| ImpactAnalyzer.AnalyzeTestImpact | src/ai_dev_tools/core/impact_analyzer.py:408-442 | a test target points to at most one tested file (none exactly when no code file matches), a code target to every test file for it, anything else to none |
| ImpactAnalyzer.SeverityScore | src/ai_dev_tools/core/impact_analyzer.py:542-563 | the score is in 0..254 and is 0 exactly for no impacted files |
| ImpactAnalyzer.SeverityScoreMonotone | src/ai_dev_tools/core/impact_analyzer.py:547-563 | appending impacted files never lowers the score |
| ImpactAnalyzer.SeverityScoreSingle | src/ai_dev_tools/core/impact_analyzer.py:549-560 | a single file scores its severity's weight (CRITICAL 50, HIGH 15, MEDIUM 5, LOW 1, NONE 0) plus 2 for one file |
| ImpactAnalyzer.GetMaxSeverity | src/ai_dev_tools/core/impact_analyzer.py:565-583 | NONE for no files; otherwise the greatest severity in the order NONE < LOW < MEDIUM < HIGH < CRITICAL, held by some file |
| ImpactAnalyzer.GenerateSummary | src/ai_dev_tools/core/impact_analyzer.py:585-617 | the fixed sentence for no impact; otherwise the count followed by the tallies of impact types and of severities |
| ImpactAnalyzer.SummaryCountsTotal | src/ai_dev_tools/core/impact_analyzer.py:596-615 | the tallies of types and of severities each add up to the number of impacted files |
| ImpactAnalyzer.HighCountPositive | src/ai_dev_tools/core/impact_analyzer.py:655-663 | the high-impact count is positive exactly when some file is HIGH or CRITICAL |
| ImpactAnalyzer.TypeAdvice | src/ai_dev_tools/core/impact_analyzer.py:631-653 | each type-driven sentence appears exactly when its impact type is present |
| ImpactAnalyzer.CountHighImpact | src/ai_dev_tools/core/impact_analyzer.py:655-658 | the loop counts exactly the HIGH and CRITICAL files |
| ImpactAnalyzer.RecommendationsSpec | src/ai_dev_tools/core/impact_analyzer.py:619-665 | only the isolated-change line for no files; otherwise each sentence iff its type is present, and the "N high-impact files" line iff N > 0, then last |
| ImpactAnalyzer.GenerateRecommendations | src/ai_dev_tools/core/impact_analyzer.py:619-665 | the method computes `Recommendations` |
| ImpactAnalyzer.AnalyzeFileImpact | src/ai_dev_tools/core/impact_analyzer.py:162-201 | a missing target raises; otherwise the impacted files are the dependency, API, configuration, build and test entries concatenated in that order (`ImpactedOf`); the total is their number; the score is `SeverityScore` in 0..254; the max severity bounds every file, is the severity of some file and is NONE for no files; the summary is `SummaryText` and the recommendations are `Recommendations` of the impacted files |
| ContextAnalyzer.ChooseProjectType | src/ai_dev_tools/core/context_analyzer.py:259-269 | UNKNOWN exactly when every score is 0; MIXED exactly when two types reach 70% of the maximum; otherwise the unique top-scoring type |
| ContextAnalyzer.DetectProjectType | src/ai_dev_tools/core/context_analyzer.py:231-269 | the loop adds every file's indicator and suffix votes, then decides as `ChooseProjectType` |
| ContextAnalyzer.StrCountPositive | src/ai_dev_tools/core/context_analyzer.py:282-283 | an indicator's occurrence count is positive exactly when the indicator is in the content |
| ContextAnalyzer.ChooseFramework | src/ai_dev_tools/core/context_analyzer.py:287-291 | UNKNOWN exactly when every count is 0; otherwise the first framework with the top count |
| ContextAnalyzer.DetectFramework | src/ai_dev_tools/core/context_analyzer.py:271-291 | the loop adds the indicator counts of the readable .json/.py/.js/.ts files, then decides as `ChooseFramework` |
| ContextAnalyzer.NameRun | src/ai_dev_tools/core/context_analyzer.py:329 | the longest leading run of name characters, empty exactly when the first character is not one |
| ContextAnalyzer.RequirementLineSpec | src/ai_dev_tools/core/context_analyzer.py:325-334 | a stripped line yields a dependency exactly when it starts with a name character; the name is the longest run, and the version is the rest, as a string, exactly when it starts with an operator |
| ContextAnalyzer.ParseRequirements | src/ai_dev_tools/core/context_analyzer.py:320-336 | the loop parses the lines in order, as `RequirementDeps` defines |
| ContextAnalyzer.InlineNames | src/ai_dev_tools/core/context_analyzer.py:355-368 | the inline entries yield non-empty names made of name characters only |
| ContextAnalyzer.TomlStepExclusive | src/ai_dev_tools/core/context_analyzer.py:349-371 | the scan never has both tables open |
| ContextAnalyzer.PoetryNeverRecordsPython | src/ai_dev_tools/core/context_analyzer.py:390-394 | while the poetry table is open, "python" is never recorded |
| ContextAnalyzer.OtherHeaderCloses | src/ai_dev_tools/core/context_analyzer.py:371-375 | any other section header closes an open table and records nothing |
| ContextAnalyzer.ClosedTablesRecordOnlyInline | src/ai_dev_tools/core/context_analyzer.py:345-395 | outside both tables only the dependencies header records names |
| ContextAnalyzer.ParsePyproject | src/ai_dev_tools/core/context_analyzer.py:337-398 | the line loop records the names of the two-flag scan, as versionless dependencies |
| ContextAnalyzer.PackageEntries | src/ai_dev_tools/core/context_analyzer.py:311-319 | one dependency per package.json entry, with the entry's JSON value as its version and the dev flag of its table |
| ContextAnalyzer.PackageDependenciesCases | src/ai_dev_tools/core/context_analyzer.py:308-319 | a package.json that is not an object raises AttributeError on `.get`; a `dependencies` table that is present but not an object (null, a list, a string) raises AttributeError on `.items()`; an empty object adds nothing; otherwise one dependency per entry, the regular ones first and only the devDependencies ones flagged dev |
| ContextAnalyzer.DependenciesErr | src/ai_dev_tools/core/context_analyzer.py:299-397 | the loop raises exactly when some file raises, since the handler catches only JSON, decoding and permission errors, and then with the first such file's error |
| ContextAnalyzer.DependenciesErrPrefix | src/ai_dev_tools/core/context_analyzer.py:299-397 | once a file raises, the loop's outcome is that error, whatever files follow |
| ContextAnalyzer.DependencySources | src/ai_dev_tools/core/context_analyzer.py:293-400 | when the loop finishes, each dependency names a walked file as its source, and dev dependencies come only from package.json |
| ContextAnalyzer.OtherTypesHaveNoDependencies | src/ai_dev_tools/core/context_analyzer.py:303-341 | projects other than Python, JavaScript and TypeScript have no dependencies and raise nothing |
| ContextAnalyzer.AnalyzeDependencies | src/ai_dev_tools/core/context_analyzer.py:293-400 | the loop computes `Dependencies`, file by file, and stops at the first uncaught exception |
| ContextAnalyzer.FindEntryPoints | src/ai_dev_tools/core/context_analyzer.py:402-425 | the relative paths that contain a common entry-point name, in walk order |
| ContextAnalyzer.DetectedToolsSpec | src/ai_dev_tools/core/context_analyzer.py:427-437 | each build tool is listed at most once, exactly when a file name contains one of its indicators |
| ContextAnalyzer.AnyFileMatches | src/ai_dev_tools/core/context_analyzer.py:432-435 | the inner loop finds a match exactly when some file name contains an indicator |
| ContextAnalyzer.DetectBuildTools | src/ai_dev_tools/core/context_analyzer.py:427-437 | the two loops list the detected tools in BUILD_TOOLS order |
| ContextAnalyzer.DeclaredFrameworksSpec | src/ai_dev_tools/core/context_analyzer.py:446-450 | each test framework is listed at most once, exactly when a dependency names one of its indicators |
| ContextAnalyzer.AddTestFileFrameworks | src/ai_dev_tools/core/context_analyzer.py:452-461 | the file loop keeps the declared frameworks in front, adds pytest only if absent, and never lists one twice; it appends exactly the absent frameworks that have a test file, pytest before jest exactly when the first Python test file comes before the first script test file |
| ContextAnalyzer.FirstWhere | src/ai_dev_tools/core/context_analyzer.py:452-461 | the index of the first file passing the test, no earlier file passing it |
| ContextAnalyzer.FileAdditionsStep | src/ai_dev_tools/core/context_analyzer.py:453-461 | one file of the loop appends pytest for a Python test file and jest for a script test file, each only if absent |
| ContextAnalyzer.DetectTestFrameworks | src/ai_dev_tools/core/context_analyzer.py:439-463 | the declared frameworks in order, then pytest for a Python test file and jest for a script test file, never one twice; when both are appended, pytest comes first exactly when the first Python test file comes before the first script test file |
| ContextAnalyzer.MaxDepth | src/ai_dev_tools/core/context_analyzer.py:514-518 | the greatest depth of any file, 0 for no files |
| ContextAnalyzer.ComplexityScore | src/ai_dev_tools/core/context_analyzer.py:497-520 | the complexity score is at most 254 |
| ContextAnalyzer.ComplexityCaps | src/ai_dev_tools/core/context_analyzer.py:497-520 | the score is the sum of the five capped terms (the outer cap never binds), and saturating every input reaches 254 |
| ContextAnalyzer.ComplexityMonotone | src/ai_dev_tools/core/context_analyzer.py:499-518 | more files, dependencies, tools, test frameworks or depth never lower the score |
| ContextAnalyzer.CalculateComplexity | src/ai_dev_tools/core/context_analyzer.py:489-520 | the depth loop and the sum give `ComplexityScore` of the inputs, at most 254 |
| ContextAnalyzer.FindKeyDirectories | src/ai_dev_tools/core/context_analyzer.py:465-487 | the visible directories that are common or carry a test/spec/doc keyword, as `KeyDirectories` defines |
| ContextAnalyzer.Analyze | src/ai_dev_tools/core/context_analyzer.py:149-204 | a missing path gives "Project path does not exist: <path>", a non-directory "Project path is not a directory: <path>", and a package.json of the wrong shape its AttributeError; these are the only errors; otherwise every detector's result, and the complexity computed from them |
| DifferenceAnalyzer.ChangedSplits | src/ai_dev_tools/core/difference_analyzer.py:361-364 | the changed lines are exactly the added lines plus the removed lines |
| DifferenceAnalyzer.RatioThresholds | src/ai_dev_tools/core/difference_analyzer.py:434-438 | the 0.5 and 0.2 change-ratio thresholds in integer terms |
| DifferenceAnalyzer.SignificanceOrder | src/ai_dev_tools/core/difference_analyzer.py:398-440 | TRIVIAL for empty inputs, then CRITICAL for a critical pattern, then TRIVIAL when only blank or comment lines change, then CRITICAL/MAJOR/MINOR by the change ratio |
| DifferenceAnalyzer.NoWordCharNotCritical | src/ai_dev_tools/core/difference_analyzer.py:411-420 | a line without a word character never matches a critical pattern |
| DifferenceAnalyzer.HeadersDefeatTrivial | src/ai_dev_tools/core/difference_analyzer.py:423-432 | the `--- `/`+++ ` header lines count as changed and are not comments, so a diff that opens with them is never TRIVIAL |
| DifferenceAnalyzer.OneLineEditIsCritical | src/ai_dev_tools/core/difference_analyzer.py:434-436 | an edit of a one-line file that touches no critical pattern is CRITICAL, because the header lines alone pass the one-half ratio |
| DifferenceAnalyzer.FilterComments | src/ai_dev_tools/core/difference_analyzer.py:387-396 | the loop keeps the lines no comment pattern matches, in order |
| DifferenceAnalyzer.FilterCommentsSpec | src/ai_dev_tools/core/difference_analyzer.py:387-396 | filtering keeps exactly the non-comment lines, and filtering again changes nothing |
| DifferenceAnalyzer.StripAll | src/ai_dev_tools/core/difference_analyzer.py:346-349 | every line is stripped, the count unchanged |
| DifferenceAnalyzer.PreprocessLines | src/ai_dev_tools/core/difference_analyzer.py:343-352 | the lines are stripped and comments dropped as the two switches say |
| DifferenceAnalyzer.TextDifferenceCounts | src/ai_dev_tools/core/difference_analyzer.py:361-378 | a reported text change is CONTENT_CHANGED with the '+' lines as added, the '-' lines as removed, and their sum as line changes |
| DifferenceAnalyzer.EqualLinesNoDifference | src/ai_dev_tools/core/difference_analyzer.py:354-359 | equal preprocessed line lists give no difference |
| DifferenceAnalyzer.CommentOnlyEditsIgnored | src/ai_dev_tools/core/difference_analyzer.py:351-359 | with comments ignored, editing only comment lines gives no difference |
| DifferenceAnalyzer.CompareTextFiles | src/ai_dev_tools/core/difference_analyzer.py:336-385 | the method computes `TextDifference` |
| DifferenceAnalyzer.ContentDifferenceCases | src/ai_dev_tools/core/difference_analyzer.py:294-321 | byte-identical files never differ; a changed non-text file is a MAJOR binary change; every content difference is CONTENT_CHANGED |
| DifferenceAnalyzer.CompareFileContent | src/ai_dev_tools/core/difference_analyzer.py:294-321 | the method computes `ContentDifference` |
| DifferenceAnalyzer.GenerateSummary | src/ai_dev_tools/core/difference_analyzer.py:442-472 | the method computes `Summary` |
| DifferenceAnalyzer.SummaryCountsTotal | src/ai_dev_tools/core/difference_analyzer.py:448-470 | the per-type and per-significance tallies each add up to the number of differences |
| DifferenceAnalyzer.SignificantCount | src/ai_dev_tools/core/difference_analyzer.py:168-171 | the significant differences are exactly the non-TRIVIAL ones, never more than all |
| DifferenceAnalyzer.CompareFiles | src/ai_dev_tools/core/difference_analyzer.py:150-184 | a missing file raises; otherwise two files compared, at most one difference, files modified 1 exactly when there is one, nothing added or removed |
| DifferenceAnalyzer.ScanPathsOrder | src/ai_dev_tools/core/difference_analyzer.py:207-247 | one difference per reported path, in path order, so their number is added + removed + modified |
| DifferenceAnalyzer.ScanPathsCounts | src/ai_dev_tools/core/difference_analyzer.py:212-247 | removed counts the paths only in the first tree, added those only in the second, modified those in both with a content change |
| DifferenceAnalyzer.ScanPathsKinds | src/ai_dev_tools/core/difference_analyzer.py:214-245 | a path only in the first tree is REMOVED/MAJOR, only in the second ADDED/MAJOR, and in both a content change |
| DifferenceAnalyzer.VisitPath | src/ai_dev_tools/core/difference_analyzer.py:213-247 | one iteration of the directory loop is `PathStep` |
| DifferenceAnalyzer.CompareDirectories | src/ai_dev_tools/core/difference_analyzer.py:186-266 | a missing path raises `Directory does not exist: <dir>` and a non-directory `Path is not a directory: <dir>`, the first directory checked first; otherwise, walking the union of relative paths in the order `sorted` gives `Path` objects (part by part), the scan's differences and counters, files compared the size of the union |
| DifferenceAnalyzer.DirectoryTotals | src/ai_dev_tools/core/difference_analyzer.py:250-260 | total = added + removed + modified, significant ≤ total ≤ paths, and no path has two differences |
| Validator.MaxLevelSpec | src/ai_dev_tools/core/validator.py:80 | the maximum level is at most 3, bounds every issue's level and is reached by some issue |
| Validator.ExitCodeSpec | src/ai_dev_tools/core/validator.py:74-81 | the exit code is at most 3, no issue is above it, some issue reaches it, and it is 0 exactly when every issue is PASS |
| Validator.ValidIffLowExitCode | src/ai_dev_tools/core/validator.py:136-140 | a project is valid exactly when its exit code is 0 or 1 |
| Validator.LevelCountsTotal | src/ai_dev_tools/core/validator.py:64-68 | the four per-level counts add up to the number of issues |
| Validator.ToDictCounts | src/ai_dev_tools/core/validator.py:60-72 | `issues_by_level` has one entry per level in declaration order and sums to `total_issues` |
| Validator.ListedSpec | src/ai_dev_tools/core/validator.py:486-488 | a listed level comes from the order with its positive count, and every level with issues is listed |
| Validator.SummaryListing | src/ai_dev_tools/core/validator.py:475-490 | the summary lists exactly the CRITICAL, ERROR and WARNING levels that occur, with their counts, and those counts plus the PASS count make the total |
| Validator.SummaryPassedIffNoIssues | src/ai_dev_tools/core/validator.py:477-478 | the summary is the "passed" sentence exactly when there are no issues |
| Validator.PassOnlySummary | src/ai_dev_tools/core/validator.py:480-490 | PASS issues count in the total but are never listed |
| Validator.CountByLevel | src/ai_dev_tools/core/validator.py:480-483 | the `by_level` loop holds a level's name exactly when the level occurs, mapped to its count |
| Validator.LevelNameInjective | src/ai_dev_tools/core/validator.py:20-24 | distinct levels have distinct names, so `by_level` keys do not collide |
| Validator.PartsAmong | src/ai_dev_tools/core/validator.py:485-488 | the parts loop yields one part per listed level, in the given order |
| Validator.SkipIsSubstringTest | src/ai_dev_tools/core/validator.py:457-473 | any path holding a skip entry anywhere is skipped: the test is by substring |
| Validator.ScanJsonStops | src/ai_dev_tools/core/validator.py:185-203 | once an exception escapes the JSON loop, later files change nothing |
| Validator.ScanJsonSpec | src/ai_dev_tools/core/validator.py:185-203 | the JSON loop counts at most every file, every non-skipped file when nothing escapes, escapes exactly when some non-skipped file raises, and reports only syntax ERRORs |
| Validator.StructureErrors | src/ai_dev_tools/core/validator.py:205-286 | the only ERROR structure validation raises is a `main` entry of `package.json` that does not exist |
| Validator.PythonStructureWarnings | src/ai_dev_tools/core/validator.py:234-265 | the Python structure checks raise only WARNINGs |
| Validator.JsStructureErrors | src/ai_dev_tools/core/validator.py:267-286 | the JavaScript structure check raises only the missing-`main` ERROR |
| Validator.MissingExpectedWarnings | src/ai_dev_tools/core/validator.py:207-222 | a missing expected project file is a WARNING |
| Validator.ValidRequirementSpec | src/ai_dev_tools/core/validator.py:362-364 | the requirement pattern accepts exactly a non-empty name, optionally followed by comparison characters and a version |
| Validator.ValidRequirementSound | src/ai_dev_tools/core/validator.py:362-364 | an accepted requirement has the name-comparison-version shape |
| Validator.ValidRequirementComplete | src/ai_dev_tools/core/validator.py:362-364 | every requirement of that shape is accepted |
| Validator.RequirementIssuesSpec | src/ai_dev_tools/core/validator.py:352-384 | each requirement WARNING cites a line in range whose first word fails the pattern; blank and comment lines are never flagged |
| Validator.PyprojectShadowsRequirements | src/ai_dev_tools/core/validator.py:288-298 | with a `pyproject.toml`, the content of `requirements.txt` does not matter |
| Validator.SecretMatchEnd | src/ai_dev_tools/core/validator.py:424-429 | a match of a secret pattern ends past its keyword and inside the text |
| Validator.MatchStartsFirst | src/ai_dev_tools/core/validator.py:440-441 | `finditer` is leftmost and resumes after each match |
| Validator.MatchStartsSpec | src/ai_dev_tools/core/validator.py:440-441 | every reported start lies in the text, starts a match, and does not overlap the previous match |
| Validator.MatchStartsNone | src/ai_dev_tools/core/validator.py:440-441 | with no match ahead, nothing is reported |
| Validator.IssuesAt | src/ai_dev_tools/core/validator.py:441-452 | one issue per reported match |
| Validator.PatternIssuesSpec | src/ai_dev_tools/core/validator.py:439-452 | a security hit is CRITICAL, in category security, on line 1 + the newlines before the match |
| Validator.LineOfMonotone | src/ai_dev_tools/core/validator.py:442 | the line number is at least 1 and never decreases as the match moves right |
| Validator.SingleLineHits | src/ai_dev_tools/core/validator.py:442 | in a file without newlines every hit is on line 1 |
| Validator.ProjectValidator.ValidatePySyntax | src/ai_dev_tools/core/validator.py:154-183 | the Python loop appends `PySyntaxIssues` and counts the non-skipped files |
| Validator.ProjectValidator.ValidateJsonSyntax | src/ai_dev_tools/core/validator.py:185-203 | the JSON loop appends and counts as `ScanJson` says and reports whether an exception escaped |
| Validator.ProjectValidator.ReportMatches | src/ai_dev_tools/core/validator.py:441-452 | appends one issue per match start; the counter is untouched |
| Validator.ProjectValidator.ReportPattern | src/ai_dev_tools/core/validator.py:439-452 | appends the hits of one pattern |
| Validator.ProjectValidator.ScanPatterns | src/ai_dev_tools/core/validator.py:439-452 | appends the hits of every pattern, pattern by pattern |
| Validator.ProjectValidator.ScanFileSecurity | src/ai_dev_tools/core/validator.py:431-455 | skipped and unreadable files add nothing; others add their hits |
| Validator.ProjectValidator.ValidateSecurity | src/ai_dev_tools/core/validator.py:421-455 | appends `SecurityIssues` and leaves the counter alone |
| Validator.ProjectValidator.GenerateSummary | src/ai_dev_tools/core/validator.py:475-490 | returns `Summary` of the current state |
| Validator.ProjectValidator.ValidateStructure | src/ai_dev_tools/core/validator.py:205-232 | appends `StructureIssues` |
| Validator.ProjectValidator.ValidateDependencies | src/ai_dev_tools/core/validator.py:288-420 | appends the dependency issues and nothing else: the pyproject checks (one warning without tomllib, a read ERROR, or a warning per missing name and version) when pyproject.toml exists, else the requirements.txt checks, then the package.json name, version and lock-file warnings; the checked-file count is unchanged |
| Validator.ProjectValidator.ValidateSyntax | src/ai_dev_tools/core/validator.py:151-203 | the Python files, then the JSON files |
| Validator.ProjectValidator.ValidateProject | src/ai_dev_tools/core/validator.py:102-149 | the issues and counter start afresh; the enabled checks run in order; an escaping exception gives `Err`; the result carries validity and the summary |
| Validator.ProjectValidator.RunChecks | src/ai_dev_tools/core/validator.py:124-134 | from an empty list and counter, the enabled checks leave exactly the issues and count of a run in check order, and report whether the JSON loop raised |
| Validator.ValidateTwice | src/ai_dev_tools/core/validator.py:121-122 | validating twice gives the same result: nothing accumulates across runs |
| Validator.SecurityOnlyValidity | src/ai_dev_tools/core/validator.py:136-140 | with only the security check, a project is valid exactly when no secret pattern matches |
| Validator.SecurityIssuesCritical | src/ai_dev_tools/core/validator.py:443-446 | every security issue is CRITICAL |
| Validator.ProjectValidator.constructor | src/ai_dev_tools/core/validator.py:91-101 | a new validator holds no issues and has checked no files |
| SafetyChecker.RiskWord | src/ai_dev_tools/agents/ai_agent.py:257-258 | a risk value has a name other than "unknown" exactly when it is 0 to 3 |
| SafetyChecker.Join | src/ai_dev_tools/core/safety_checker.py:175-176 | the joined level is the higher of the two, and one of them |
| SafetyChecker.AiFormatRoundTrip | src/ai_dev_tools/core/safety_checker.py:42-55 | the compact format keeps the value and the flag, omits exactly the empty lists, and can be read back to the same result |
| SafetyChecker.ToDictDeterminesLevel | src/ai_dev_tools/core/safety_checker.py:32-40 | the value and the name in `to_dict` each identify the level, and the value reads back to it |
| SafetyChecker.HighScanSpec | src/ai_dev_tools/core/safety_checker.py:170-176 | the high-risk loop raises the level to at least HIGH exactly when some pattern occurs, only appends, and adds reasons exactly then |
| SafetyChecker.MediumScanSpec | src/ai_dev_tools/core/safety_checker.py:179-184 | the medium-risk loop lifts SAFE to MEDIUM exactly when some pattern occurs, adds reasons exactly then, and adds no recommendation |
| SafetyChecker.AnalyzeLevel | src/ai_dev_tools/core/safety_checker.py:138-203 | the final level is the join of the name-and-suffix level and the content level |
| SafetyChecker.AnalyzeMonotone | src/ai_dev_tools/core/safety_checker.py:138-203 | the level never falls below what the name, the suffix or the text gives |
| SafetyChecker.SafeIffNoReasons | src/ai_dev_tools/core/safety_checker.py:144-191 | a file is SAFE exactly when no reason is given |
| SafetyChecker.ClosingLastAndOnce | src/ai_dev_tools/core/safety_checker.py:193-201 | the last recommendation is the closing advice of the final level, and no earlier one is closing advice |
| SafetyChecker.LibraryMarksDistinct | src/ai_dev_tools/core/safety_checker.py:193-201 | the library's four markers are non-empty and cannot start an advice text, so no advice equals a closing text; the four closing texts are pairwise distinct |
| SafetyChecker.ScanHigh | src/ai_dev_tools/core/safety_checker.py:171-176 | the loop computes `HighScan` |
| SafetyChecker.ScanMedium | src/ai_dev_tools/core/safety_checker.py:179-184 | the loop computes `MediumScan` |
| SafetyChecker.ClassifyName | src/ai_dev_tools/core/safety_checker.py:143-162 | the name and suffix tests compute the suffix step after the name step |
| SafetyChecker.AnalyzeFileContent | src/ai_dev_tools/core/safety_checker.py:138-203 | the method computes `Analyze` |
| SafetyChecker.CheckFileSafety | src/ai_dev_tools/core/safety_checker.py:96-136 | the method computes `CheckResult` |
| SafetyChecker.CheckResultSpec | src/ai_dev_tools/core/safety_checker.py:96-136 | a missing file is CRITICAL and an unreadable one HIGH, otherwise the join of the two levels; safe to modify exactly when SAFE or MEDIUM |
| SafetyChecker.FlakeIsCritical | src/ai_dev_tools/core/safety_checker.py:147-150 | `flake.nix` and `flake.lock` are CRITICAL whatever they hold |
| SafetyChecker.BootLoaderIsHigh | src/ai_dev_tools/core/safety_checker.py:152-176 | `configuration.nix` mentioning `boot.loader` is HIGH |
| SafetyChecker.NixModuleIsMedium | src/ai_dev_tools/core/safety_checker.py:160-162 | a `.nix` module without a high-risk name or pattern is MEDIUM |
| SafetyChecker.PlainFileIsSafe | src/ai_dev_tools/core/safety_checker.py:157-194 | a file with an unlisted name and suffix and no pattern in its text is SAFE |
| StandaloneSafetyCheck.CheckFileSafety | scripts/standalone_safety_check.py:97-176 | the method computes `ScriptResult` |
| StandaloneSafetyCheck.ExitCodeSpec | scripts/standalone_safety_check.py:226 | the exit code is the level's value, 0 to 3, reads back to the level, is ≤ 1 exactly when safe to modify, and is 3 for a missing file |
| StandaloneSafetyCheck.AgreesWithLibrary | scripts/standalone_safety_check.py:97-176 | on a readable file the script and the library agree on the level and the safe flag |
| StandaloneSafetyCheck.UnreadableFileDiffers | scripts/standalone_safety_check.py:152-155 | on an unreadable plain file the script says MEDIUM and safe (exit 1) where the library says HIGH and unsafe |
| StandaloneSafetyCheck.ScriptMarksDistinct | scripts/standalone_safety_check.py:160-168 | the script's four markers are non-empty and cannot start an advice text, so no advice equals a closing text; the four closing texts are pairwise distinct |
| PatternScanner.TypeOfValue | src/ai_dev_tools/core/pattern_scanner.py:20-28 | a value found by `PatternType(value)` is that member's value |
| PatternScanner.TypeValueRoundTrip | src/ai_dev_tools/core/pattern_scanner.py:20-28 | every member is found again from its value, and the lookup fails exactly on strings no member has |
| PatternScanner.DetectFirstMatch | src/ai_dev_tools/core/pattern_scanner.py:207-220 | the detected type's signature occurs in the line, and no type checked before it has its signature there |
| PatternScanner.StripAllSpec | src/ai_dev_tools/core/pattern_scanner.py:226 | each line is stripped, the count unchanged |
| PatternScanner.ContextWindow | src/ai_dev_tools/core/pattern_scanner.py:222-226 | the window holds at most 2k+1 stripped lines from `max(0, i-k)`, and every line within k of an in-range line |
| PatternScanner.SplitRunsSpec | src/ai_dev_tools/core/pattern_scanner.py:390-391 | `re.split` on a delimiter class, empty strings dropped: no part is empty or holds a delimiter, and a delimiter-free string is its own only part |
| PatternScanner.TokensSpec | src/ai_dev_tools/core/pattern_scanner.py:385-391 | tokens are never empty and hold no delimiter |
| PatternScanner.JaccardSpec | src/ai_dev_tools/core/pattern_scanner.py:372-383 | the word-set score is symmetric, in [0, 1], 0 when a set is empty, and 1 exactly for equal non-empty sets |
| PatternScanner.MatchMkifListConcat | scripts/standalone_pattern_scanner.py:205-211 | the score is 0.9 exactly when both lines contain `mkIf` and `++`, and 0 otherwise |
| PatternScanner.MatchHomebrewList | scripts/standalone_pattern_scanner.py:213-219 | the score is 0.85 exactly when each line names `casks` or `brews`, and 0 otherwise |
| PatternScanner.MatchersSymmetric | scripts/standalone_pattern_scanner.py:205-219 | swapping the target line and the candidate line leaves both fixed scores unchanged |
| PatternScanner.CalculateSimilarity | src/ai_dev_tools/core/pattern_scanner.py:296-299 | a blank line scores 0; any other line reads the missing key `content` and raises |
| PatternScanner.ScanFromOk | src/ai_dev_tools/core/pattern_scanner.py:250-270 | a scored line contributes its match, then the scan continues |
| PatternScanner.ScanFile | src/ai_dev_tools/core/pattern_scanner.py:242-275 | the loop computes `FileScan`, the exception swallowed |
| PatternScanner.ScanFromEmpty | src/ai_dev_tools/core/pattern_scanner.py:250-275 | the first scored line raises, so a file never yields a match |
| PatternScanner.ScanExtension | src/ai_dev_tools/core/pattern_scanner.py:235-237 | the inner loop computes `ExtMatches` |
| PatternScanner.FindSimilarPatterns | src/ai_dev_tools/core/pattern_scanner.py:228-240 | the matches of every extension, sorted by descending confidence |
| PatternScanner.ExtMatchesEmpty | src/ai_dev_tools/core/pattern_scanner.py:235-237 | no file of an extension contributes a match |
| PatternScanner.NoMatchesAsWritten | src/ai_dev_tools/core/pattern_scanner.py:228-240 | no file under any extension contributes a match |
| PatternScanner.ExtractPattern | src/ai_dev_tools/core/pattern_scanner.py:188-205 | a target is found exactly for a readable file and a line in range; it is the stripped line, its detected type and three lines of context each side |
| PatternScanner.Extensions | src/ai_dev_tools/core/pattern_scanner.py:128 | the extension list is never empty |
| PatternScanner.ScanForSimilarPatterns | src/ai_dev_tools/core/pattern_scanner.py:131-186 | the method computes `ScanResult` |
| PatternScanner.ScanResultSpec | src/ai_dev_tools/core/pattern_scanner.py:131-186 | matches are sorted by confidence, exclude the target location, number at most a non-negative `max_results`, count is their number, a missing target gives an empty GENERIC result, else the type is the override or the detected one |
| PatternScanner.ScanFindsNothing | src/ai_dev_tools/core/pattern_scanner.py:131-186 | every scan reports no matches, whatever the files hold |
| PatternScanner.ScanExitCodeSpec | src/ai_dev_tools/core/pattern_scanner.py:414-489 | 255 exactly for a missing file, a line below 1 or an unknown type; otherwise the count capped at 254 |
| PatternScanner.ExitCodeAsWritten | src/ai_dev_tools/core/pattern_scanner.py:414-489 | the exit code is always 0 or 255 |
| StandalonePatternScanner.ScriptExtensions | scripts/standalone_pattern_scanner.py:47-48 | the extension list is never empty |
| StandalonePatternScanner.ScriptDetectAgrees | scripts/standalone_pattern_scanner.py:101-118 | the script's extra GENERIC branches change nothing: it detects what the library detects |
| StandalonePatternScanner.SimilaritySpec | scripts/standalone_pattern_scanner.py:182-232 | scores lie in [0, 1] and are 0 across types; the mkIf and Homebrew types score only 0.9 or 0.85, clearing the threshold exactly when positive; other types score the word-set Jaccard |
| StandalonePatternScanner.DetectedTypeScoresFully | scripts/standalone_pattern_scanner.py:205-219 | a candidate detected as the target's mkIf or Homebrew type gets the full fixed score |
| StandalonePatternScanner.BrewsListNamesBrew | scripts/standalone_pattern_scanner.py:107-108 | a line detected as a Homebrew list names `casks` or `brews` |
| StandalonePatternScanner.ScanLinesHit | scripts/standalone_pattern_scanner.py:149-175 | a scanned line contributes its hit, then the scan continues |
| StandalonePatternScanner.ScanFile | scripts/standalone_pattern_scanner.py:141-180 | the loop computes `FileScan` |
| StandalonePatternScanner.ScanExtension | scripts/standalone_pattern_scanner.py:133-136 | the inner loop computes `ExtHits` over regular files |
| StandalonePatternScanner.FindSimilarPatterns | scripts/standalone_pattern_scanner.py:126-139 | the hits of every extension, sorted by descending confidence |
| StandalonePatternScanner.ScanLinesReported | scripts/standalone_pattern_scanner.py:149-175 | every hit of a file cleared its type's threshold |
| StandalonePatternScanner.ExtHitsReported | scripts/standalone_pattern_scanner.py:133-136 | every hit of an extension cleared its type's threshold |
| StandalonePatternScanner.AllHitsReported | scripts/standalone_pattern_scanner.py:126-139 | every collected hit cleared its type's threshold |
| StandalonePatternScanner.ScanForSimilarPatterns | scripts/standalone_pattern_scanner.py:50-80 | the method computes `ScanList` |
| StandalonePatternScanner.ScanListSpec | scripts/standalone_pattern_scanner.py:50-80 | the list is sorted by confidence, excludes the target location, has at most a non-negative `max_results` entries, each a line of the target's type that cleared the threshold; empty without a target |
| StandalonePatternScanner.CompactOutput | scripts/standalone_pattern_scanner.py:283-288 | the compact output counts all matches and lists the first ten as file, line, confidence |
| StandalonePatternScanner.ScriptExitCodeSpec | scripts/standalone_pattern_scanner.py:235-317 | 255 exactly for the input errors; otherwise the match count capped at 254, and at most `max_results` |
| OutputStrategy.CleanData | src/ai_dev_tools/core/output_strategy.py:50-65 | the cleaner's loop computes `Clean`, recursing into nested dictionaries |
| OutputStrategy.CleanSpec | src/ai_dev_tools/core/output_strategy.py:50-65 | cleaning keeps, in order, exactly the entries whose value survives, each cleaned; it is empty exactly when no entry survives |
| OutputStrategy.ListCleaning | src/ai_dev_tools/core/output_strategy.py:59-62 | a list loses its Nones and nothing else |
| OutputStrategy.CleanTidy | src/ai_dev_tools/core/output_strategy.py:50-65 | nothing the cleaner returns is None or empty, at any level |
| OutputStrategy.TidyFixed | src/ai_dev_tools/core/output_strategy.py:50-65 | the cleaner leaves tidy data unchanged |
| OutputStrategy.CleanIdempotent | src/ai_dev_tools/core/output_strategy.py:50-65 | cleaning a cleaned value changes nothing |
| OutputStrategy.HumanResult | src/ai_dev_tools/core/output_strategy.py:83-93 | a count wins over a risk level, a risk level over a health record, everything else is printed whole; a health value without `get` raises |
| OutputStrategy.FormatOutput | src/ai_dev_tools/core/output_strategy.py:123-131 | the default format prints nothing, and only the human format can raise |
| OutputStrategy.FormatError | src/ai_dev_tools/core/output_strategy.py:95-111 | silent prints nothing; human prints `Error: ` and the message |
| OutputStrategy.DefaultsAreSilent | src/ai_dev_tools/core/output_strategy.py:123-137 | called with the defaults, the formatter prints nothing |
| OutputStrategy.CompactErrorText | src/ai_dev_tools/core/output_strategy.py:46-48 | the compact error is the one-line object with keys `error` and `code`, and the message reads back unchanged |
| OutputStrategy.CompactResultText | src/ai_dev_tools/core/output_strategy.py:40-44 | the compact result is one line of printable ASCII and depends only on the cleaned data |
| OutputStrategy.BelowOne | src/ai_dev_tools/core/output_strategy.py:165 | the `< 1.0` test succeeds exactly on numbers |
| OutputStrategy.ShortConfidence | src/ai_dev_tools/core/output_strategy.py:165-166 | the confidence test raises exactly on a non-number |
| OutputStrategy.EssentialRaises | src/ai_dev_tools/core/output_strategy.py:158-169 | building an item raises exactly when its confidence is not a number |
| OutputStrategy.EssentialSpec | src/ai_dev_tools/core/output_strategy.py:158-169 | file becomes f, line l, risk_level risk, and confidence conf (rounded) only when below 1.0; nothing else is kept |
| OutputStrategy.CreateAiOptimizedResult | src/ai_dev_tools/core/output_strategy.py:140-180 | the builder's loop computes `AiResult` |
| OutputStrategy.AiResultRaises | src/ai_dev_tools/core/output_strategy.py:155-169 | the builder raises exactly when some item's confidence is not a number |
| OutputStrategy.ItemsValueSpec | src/ai_dev_tools/core/output_strategy.py:155-172 | non-empty items give one short record per item, in order |
| OutputStrategy.MetaValueSpec | src/ai_dev_tools/core/output_strategy.py:174-178 | metadata yields `meta` exactly when some value is not None, "" or [], holding exactly those entries |
| OutputStrategy.AiResultSpec | src/ai_dev_tools/core/output_strategy.py:140-180 | the result leads with `c` = count, has `items` exactly when items were given and `meta` exactly when metadata survives, and no other key |
| JsonText.EscapeRoundTrip | src/ai_dev_tools/core/output_strategy.py:44 | the string escaping of `json.dumps` is undone by a JSON string decoder |
| BenchmarkMetrics.OutcomesBound | src/ai_dev_tools/benchmark/metrics.py:181-184 | a result has one status, so the completed, failed and timed-out counts fit in the total |
| BenchmarkMetrics.ClassifyError | src/ai_dev_tools/benchmark/metrics.py:395-410 | the class is one of the six fixed classes |
| BenchmarkMetrics.ClassifyErrorSpec | src/ai_dev_tools/benchmark/metrics.py:395-410 | each class is chosen exactly when its keyword occurs in the lower-cased message and no earlier keyword does |
| BenchmarkMetrics.ErrorTypesSum | src/ai_dev_tools/benchmark/metrics.py:235-239 | the error counts add up to the number of results with an error |
| BenchmarkMetrics.ErrorTypesKeys | src/ai_dev_tools/benchmark/metrics.py:235-239 | errors are counted under the fixed classes only |
| BenchmarkMetrics.EfficiencyBounds | src/ai_dev_tools/benchmark/metrics.py:352-381 | with a rate in [0, 1] and non-negative inputs the composite score lies in [0, 1] |
| BenchmarkMetrics.DurationStatsOrder | src/ai_dev_tools/benchmark/metrics.py:190-216 | min ≤ mean ≤ max, the extremes are durations, and the total is their sum |
| BenchmarkMetrics.DurationStatsGuards | src/ai_dev_tools/benchmark/metrics.py:197-209 | fewer than two durations give no spread and no percentiles; two or more give the six percentile keys |
| BenchmarkMetrics.MetricsOf | src/ai_dev_tools/benchmark/metrics.py:177-268 | no results give the zero metrics; otherwise the total is the number of results |
| BenchmarkMetrics.MetricsRates | src/ai_dev_tools/benchmark/metrics.py:181-187 | the outcome counts fit in the total, and both rates are their shares of it, in [0, 1] |
| BenchmarkMetrics.MetricsTokens | src/ai_dev_tools/benchmark/metrics.py:219-222 | token totals are over every result, failed ones included; the average is per completed task, 0 with none |
| BenchmarkMetrics.MetricsErrors | src/ai_dev_tools/benchmark/metrics.py:235-264 | the error counts sum to the failing results under the fixed classes; the peak and the retry total are the collector's |
| BenchmarkMetrics.ReductionPercent | src/ai_dev_tools/benchmark/metrics.py:383-387 | 0 for a zero baseline; otherwise positive exactly when the tools value is below the baseline |
| BenchmarkMetrics.ImprovementPercent | src/ai_dev_tools/benchmark/metrics.py:389-393 | 0 for a zero baseline; otherwise positive exactly when the tools value is above the baseline |
| BenchmarkMetrics.ImprovementIsNegatedReduction | src/ai_dev_tools/benchmark/metrics.py:383-393 | improvement is reduction with the sign turned round |
| BenchmarkMetrics.Significance | src/ai_dev_tools/benchmark/metrics.py:412-434 | the score is never negative, and 0 with fewer than two samples on a side |
| BenchmarkMetrics.ConfidenceInterval | src/ai_dev_tools/benchmark/metrics.py:436-462 | the interval is empty exactly when a side has fewer than two samples |
| BenchmarkMetrics.ConfidenceIntervalCentred | src/ai_dev_tools/benchmark/metrics.py:452-460 | the three keys in order, the difference of the means, and bounds centred on it |
| BenchmarkMetrics.GroupBySpec | src/ai_dev_tools/benchmark/metrics.py:314-317 | grouping partitions the results: distinct keys, non-empty groups holding only their key's results, every result's key a group, sizes adding up |
| BenchmarkMetrics.GroupMembers | src/ai_dev_tools/benchmark/metrics.py:314-317 | everything grouped came from the results |
| BenchmarkMetrics.MetricsByKeyPartition | src/ai_dev_tools/benchmark/metrics.py:310-350 | the breakdown has a key per group and its per-group totals add up to the number of results |
| BenchmarkMetrics.MetricsByKeyNoEnd | src/ai_dev_tools/benchmark/metrics.py:324-345 | a group none of whose results has an end time makes `max()` raise |
| BenchmarkMetrics.MetricsCollector.StartCollection | src/ai_dev_tools/benchmark/metrics.py:136-143 | clears results and counters and stamps the start; the end stamp stays |
| BenchmarkMetrics.MetricsCollector.StopCollection | src/ai_dev_tools/benchmark/metrics.py:145-148 | stamps the end and changes nothing else |
| BenchmarkMetrics.MetricsCollector.EnterConcurrentTask | src/ai_dev_tools/benchmark/metrics.py:153-154 | the count goes up by one and the peak covers it |
| BenchmarkMetrics.MetricsCollector.ExitConcurrentTask | src/ai_dev_tools/benchmark/metrics.py:157-158 | the count goes down by one, the peak stays |
| BenchmarkMetrics.MetricsCollector.TrackConcurrentTask | src/ai_dev_tools/benchmark/metrics.py:150-158 | after a tracked task the count is restored and the peak covers the count it reached |
| BenchmarkMetrics.MetricsCollector.AddTaskResult | src/ai_dev_tools/benchmark/metrics.py:160-163 | appends the result and changes nothing else |
| BenchmarkMetrics.MetricsCollector.RecordRetry | src/ai_dev_tools/benchmark/metrics.py:165-168 | only the named task's counter goes up, and the retry total with it |
| BenchmarkMetrics.MetricsCollector.Reset | src/ai_dev_tools/benchmark/metrics.py:464-471 | everything back to the initial state, retry total 0 |
| BenchmarkMetrics.MetricsCollector.Filtered | src/ai_dev_tools/benchmark/metrics.py:172-175 | with a filter, exactly the results of that approach; without, all of them |
| BenchmarkMetrics.MetricsCollector.CalculateMetrics | src/ai_dev_tools/benchmark/metrics.py:170-268 | zero metrics for no results, else the total is their number and the retry count the collector's total |
| BenchmarkMetrics.MetricsCollector.CalculateComparisonMetrics | src/ai_dev_tools/benchmark/metrics.py:270-308 | per-approach metrics, the sample size is the smaller timed count, and each zero baseline gives a zero percentage |
| BenchmarkMetrics.MetricsCollector.GetMetricsByTask | src/ai_dev_tools/benchmark/metrics.py:310-329 | the per-task breakdown is `MetricsByKey` on the task id |
| BenchmarkMetrics.MetricsCollector.GetMetricsByModel | src/ai_dev_tools/benchmark/metrics.py:331-350 | the per-model breakdown is `MetricsByKey` on the model instance |
| BenchmarkMetrics.MetricsCollector.GetSummary | src/ai_dev_tools/benchmark/metrics.py:473-482 | the result and retry totals, active exactly between start and stop, and no duration before a start |
| BenchmarkMetrics.GroupAll | src/ai_dev_tools/benchmark/metrics.py:314-317 | the grouping loop computes `GroupBy` |
| BenchmarkMetrics.MapGroups | src/ai_dev_tools/benchmark/metrics.py:320-327 | the per-group loop writes each group's value under its key; the first group that raises ends it |
| BenchmarkMetrics.MetricsBy | src/ai_dev_tools/benchmark/metrics.py:310-350 | group, then compute each group's metrics, as `MetricsByKey` |
| BenchmarkMetrics.MetricsCollector.constructor | src/ai_dev_tools/benchmark/metrics.py:127-135 | a new collector holds no results, no start or end time, zero concurrency counters and no retry counts |
| BenchmarkTasks.ParseStatus | src/ai_dev_tools/benchmark/tasks.py:16-23 | a parsed status has the given value |
| BenchmarkTasks.ParseStatusValue | src/ai_dev_tools/benchmark/tasks.py:16-23 | every status is parsed back from its value |
| BenchmarkTasks.ParseApproach | src/ai_dev_tools/benchmark/tasks.py:26-30 | a parsed approach has the given value |
| BenchmarkTasks.ParseApproachValue | src/ai_dev_tools/benchmark/tasks.py:26-30 | every approach is parsed back from its value |
| BenchmarkTasks.TaskResult.constructor | src/ai_dev_tools/benchmark/tasks.py:33-56 | the given fields with the dataclass defaults for the rest |
| BenchmarkTasks.TaskResult.MarkCompleted | src/ai_dev_tools/benchmark/tasks.py:58-66 | COMPLETED at `now` with duration end minus start, the response, and total tokens = in + out; nothing else changes |
| BenchmarkTasks.TaskResult.MarkFailed | src/ai_dev_tools/benchmark/tasks.py:68-73 | FAILED at `now` with the error; the token counts and response stay |
| BenchmarkTasks.ToDictRoundTrip | src/ai_dev_tools/benchmark/tasks.py:75-94 | `to_dict` loses nothing: the record reads back from it |
| BenchmarkTasks.CreateResult | src/ai_dev_tools/benchmark/tasks.py:122-132 | a fresh PENDING result for the task, started at `now` |
| BenchmarkTasks.CheckFields | src/ai_dev_tools/benchmark/tasks.py:274-295 | the six field checks give `RuleIssues` |
| BenchmarkTasks.CheckFiles | src/ai_dev_tools/benchmark/tasks.py:297-300 | one message per target file that does not exist, in order |
| BenchmarkTasks.ValidateTask | src/ai_dev_tools/benchmark/tasks.py:272-299 | the method computes `TaskIssues` |
| BenchmarkTasks.TaskIssuesSpec | src/ai_dev_tools/benchmark/tasks.py:272-299 | one message per broken rule and per missing file, and none exactly for a valid task |
| BenchmarkTasks.RegisterKeyed | src/ai_dev_tools/benchmark/tasks.py:211-213 | registering keeps every task under its own id, once |
| BenchmarkTasks.RegisterAllFresh | src/ai_dev_tools/benchmark/tasks.py:141-209 | tasks with distinct ids registered into an empty registry are listed in order |
| BenchmarkTasks.DefaultTasks | src/ai_dev_tools/benchmark/tasks.py:141-209 | the six default tasks with their ids, in order |
| BenchmarkTasks.DefaultIdsDistinct | src/ai_dev_tools/benchmark/tasks.py:141-209 | the six default ids are distinct, so all six end up registered |
| BenchmarkTasks.WorkflowCountsSpec | src/ai_dev_tools/benchmark/tasks.py:305-309 | each workflow's count is its number of tasks, and the counts sum to the total |
| BenchmarkTasks.TaskRegistry.constructor | src/ai_dev_tools/benchmark/tasks.py:137-139 | a registry holding the six default tasks |
| BenchmarkTasks.TaskRegistry.RegisterEach | src/ai_dev_tools/benchmark/tasks.py:141-209 | the registration loop computes `RegisterAll` |
| BenchmarkTasks.TaskRegistry.ListTaskIds | src/ai_dev_tools/benchmark/tasks.py:227-229 | the ids in registration order, without repeats |
| BenchmarkTasks.TaskRegistry.GetTask | src/ai_dev_tools/benchmark/tasks.py:215-217 | a task is found exactly for a listed id, and it is that id's task |
| BenchmarkTasks.TaskRegistry.GetAllTasks | src/ai_dev_tools/benchmark/tasks.py:219-221 | the tasks in registration order |
| BenchmarkTasks.TaskRegistry.GetTasksByWorkflow | src/ai_dev_tools/benchmark/tasks.py:223-225 | exactly the registered tasks of that workflow |
| BenchmarkTasks.TaskRegistry.RegisterTask | src/ai_dev_tools/benchmark/tasks.py:211-213 | insert or overwrite by id; other ids keep their tasks |
| BenchmarkTasks.TaskRegistry.RemoveTask | src/ai_dev_tools/benchmark/tasks.py:231-236 | true exactly when the id was registered; afterwards it is not, others keep their tasks, the size drops by one then, and the listed ids are the old ones without it, in their insertion order |
| Dicts.RemoveKeysOrder | src/ai_dev_tools/benchmark/tasks.py:233-234 | deleting a key from a dict keeps the other keys in their insertion order |
| BenchmarkTasks.TaskRegistry.ClearTasks | src/ai_dev_tools/benchmark/tasks.py:238-240 | the registry is empty |
| BenchmarkTasks.TaskRegistry.CreateCustomTask | src/ai_dev_tools/benchmark/tasks.py:242-270 | the task with empty defaults filled in is registered under its id; others keep theirs |
| BenchmarkTasks.TaskRegistry.GetTaskStats | src/ai_dev_tools/benchmark/tasks.py:301-319 | the size, per-workflow counts summing to it, and the ids |
| BenchmarkTasks.AllTasksFound | src/ai_dev_tools/benchmark/tasks.py:215-221 | every listed task is found under its own id |
| BenchmarkConfig.ParseProfileSpec | src/ai_dev_tools/benchmark/config.py:16-21 | parsing accepts exactly the three profile values and inverts `ProfileValue` |
| BenchmarkConfig.ParseOutputFormat | src/ai_dev_tools/benchmark/config.py:32-39 | a parsed format has the given value |
| BenchmarkConfig.NewModelInstanceSpec | src/ai_dev_tools/benchmark/config.py:52-72 | construction succeeds exactly for a non-blank name, port 1..65535, timeout and concurrency ≥ 1; it stores the name stripped and the rest as given |
| BenchmarkConfig.NewModelInstanceValid | src/ai_dev_tools/benchmark/config.py:52-72 | re-validating a valid instance gives it back unchanged |
| BenchmarkConfig.UrlSplit | src/ai_dev_tools/benchmark/config.py:62-65 | the URL is `http://`, the host, `:` and the port digits, and its last `:` separates them |
| BenchmarkConfig.NewBatch | src/ai_dev_tools/benchmark/config.py:75-83 | a batch is built exactly when sample size is 1..100, repetitions 1..50 and timeout ≥ 30 |
| BenchmarkConfig.DefaultBatchesValid | src/ai_dev_tools/benchmark/config.py:253-289 | every default batch passes validation and is stored under its own name |
| BenchmarkConfig.ValidateProfilesAmong | src/ai_dev_tools/benchmark/config.py:125-141 | the validator loop passes exactly when each listed profile has a non-empty instance list and a sample size |
| BenchmarkConfig.ValidateProfilesSpec | src/ai_dev_tools/benchmark/config.py:125-141 | a configuration passes exactly when all three profiles have instances and a sample size |
| BenchmarkConfig.NewConfig | src/ai_dev_tools/benchmark/config.py:86-141 | an accepted configuration is the one given |
| BenchmarkConfig.NewConfigSpec | src/ai_dev_tools/benchmark/config.py:86-141 | a configuration is accepted exactly when its field bounds and the profile validator hold |
| BenchmarkConfig.DefaultInstancesValid | src/ai_dev_tools/benchmark/config.py:233-251 | the defaults have 1, 2 and 4 valid instances on distinct ports |
| BenchmarkConfig.DefaultConfigValid | src/ai_dev_tools/benchmark/config.py:216-231 | the default configuration passes its own validation |
| BenchmarkConfig.GetProfileInstances | src/ai_dev_tools/benchmark/config.py:291-293 | the profile's instances, or none |
| BenchmarkConfig.GetSampleSize | src/ai_dev_tools/benchmark/config.py:295-297 | the profile's sample size, or 6 |
| BenchmarkConfig.GetBatchConfig | src/ai_dev_tools/benchmark/config.py:299-301 | a batch is found exactly under a configured name |
| BenchmarkConfig.ValidConfigLookups | src/ai_dev_tools/benchmark/config.py:291-297 | in a valid configuration no profile lookup comes back empty or defaulted |
| BenchmarkConfig.InstanceFromToml | src/ai_dev_tools/benchmark/config.py:169-171 | a non-mapping raises past the handler, a rejected mapping is skipped, and what is built is valid; integer fields are coerced by `LaxInt` |
| BenchmarkConfig.LaxInt | src/ai_dev_tools/benchmark/config.py:57-59 | pydantic's lax `int` coercion: an integer is kept, a float is accepted exactly when it has no fractional part and keeps its value, null, lists and tables are rejected |
| BenchmarkConfig.LaxIntOfText | src/ai_dev_tools/benchmark/config.py:57 | the text of any integer, such as `"11434"`, coerces to that integer |
| BenchmarkConfig.TextPortBuildsInstance | src/ai_dev_tools/benchmark/config.py:169 | an instance table with a name, a model and the port written as text builds the instance on that port, with the default host, timeout and concurrency |
| BenchmarkConfig.InstanceArgs | src/ai_dev_tools/benchmark/config.py:169 | an instance built from TOML fields is valid |
| BenchmarkConfig.InstancesFrom | src/ai_dev_tools/benchmark/config.py:169 | an accepted instance list has one instance per TOML item |
| BenchmarkConfig.FillDefaultsSpec | src/ai_dev_tools/benchmark/config.py:173-195 | filling keeps every present value and supplies the default for each missing profile |
| BenchmarkConfig.SizesAsIntsGet | src/ai_dev_tools/benchmark/config.py:214 | validated sizes hold, under the same keys, the integers the document's values coerce to |
| BenchmarkConfig.Assemble | src/ai_dev_tools/benchmark/config.py:197-214 | the assembled configuration holds the profiles, the sizes and the default batches, and passes validation |
| BenchmarkConfig.FromToml | src/ai_dev_tools/benchmark/config.py:144-214 | the method computes `FromTomlSpec` |
| BenchmarkConfig.FromEntries | src/ai_dev_tools/benchmark/config.py:161-214 | the method computes `FromSection` |
| BenchmarkConfig.LoadProfiles | src/ai_dev_tools/benchmark/config.py:164-176 | the profile loop, then the default-filling loop |
| BenchmarkConfig.LoadSizes | src/ai_dev_tools/benchmark/config.py:178-195 | the size loop, then the 3/6/12 default-filling loop |
| BenchmarkConfig.TomlProfilesErr | src/ai_dev_tools/benchmark/config.py:166-171 | an exception escaping the profile loop is the loop's result |
| BenchmarkConfig.TomlProfilesGet | src/ai_dev_tools/benchmark/config.py:166-171 | each profile keeps what the last valid entry naming it gave; unknown names change nothing |
| BenchmarkConfig.TomlSizesGet | src/ai_dev_tools/benchmark/config.py:180-185 | each profile's size is what the last entry naming it gave |
| BenchmarkConfig.FromTomlNoSection | src/ai_dev_tools/benchmark/config.py:155-159 | without a benchmark section the result is the default configuration |
| BenchmarkConfig.FromTomlValid | src/ai_dev_tools/benchmark/config.py:144-214 | whatever `from_toml` returns is valid and carries the default batches |
| BenchmarkConfig.FromSectionValid | src/ai_dev_tools/benchmark/config.py:161-214 | whatever the section yields is valid and carries the default batches |
| BenchmarkConfig.FromTomlProfiles | src/ai_dev_tools/benchmark/config.py:164-176 | each profile holds the last TOML list naming it that validates after coercion, or its defaults |
| BenchmarkConfig.FromTomlSizes | src/ai_dev_tools/benchmark/config.py:178-195 | each sample size is the integer the TOML value named last coerces to, or the 3/6/12 default |
| BenchmarkConfig.DistinctCard | src/ai_dev_tools/benchmark/config.py:324 | `len(set(xs)) == len(xs)` exactly when no element repeats |
| BenchmarkConfig.ProfileIssueListSpec | src/ai_dev_tools/benchmark/config.py:319-325 | a profile is reported empty exactly when it has no instances, in conflict exactly when a port repeats, and at most once |
| BenchmarkConfig.ValidateRuntime | src/ai_dev_tools/benchmark/config.py:303-327 | the environment issues, then the per-profile issues |
| BenchmarkConfig.CheckProfiles | src/ai_dev_tools/benchmark/config.py:318-325 | the profile loop computes `ProfileIssues` |
| BenchmarkConfig.CheckProfile | src/ai_dev_tools/benchmark/config.py:319-325 | one profile's issues |
| BenchmarkConfig.ProfileIssuesCount | src/ai_dev_tools/benchmark/config.py:318-325 | one issue per empty or port-conflicting profile |
| BenchmarkConfig.RuntimeClean | src/ai_dev_tools/benchmark/config.py:303-327 | with a creatable directory, a compose file and every profile non-empty on distinct ports there are no issues |
| BenchmarkConfig.DefaultRuntimeClean | src/ai_dev_tools/benchmark/config.py:303-327 | the default configuration reports no issues in such an environment |
| BenchmarkReporting.Repeat | src/ai_dev_tools/benchmark/reporting.py:567 | `c * n`: n copies of c, none for n ≤ 0 |
| BenchmarkReporting.CreateBarSpec | src/ai_dev_tools/benchmark/reporting.py:558-569 | for a non-negative value the bar is `[`, 20 cells and `]`; the first ⌊20·min(v,1)⌋ are filled, full blocks exactly when the value reaches the threshold, the rest light shade |
| BenchmarkReporting.CreateBarNegative | src/ai_dev_tools/benchmark/reporting.py:558-569 | a negative value fills nothing and, from -0.05 down, pads past 20 cells |
| BenchmarkReporting.CalculateTrend | src/ai_dev_tools/benchmark/reporting.py:674-688 | no trend with fewer than two values; otherwise stable, improving or declining exactly as the last minus the first value is within 0.1, at least 0.1 or at most -0.1 |
| BenchmarkReporting.TrendEndpoints | src/ai_dev_tools/benchmark/reporting.py:674-688 | only the first and the last value matter |
| BenchmarkReporting.CsvCell | src/ai_dev_tools/benchmark/reporting.py:219-222 | a missing field or None prints as empty, a string as itself |
| BenchmarkReporting.CsvCells | src/ai_dev_tools/benchmark/reporting.py:218-223 | one cell per header field, in header order |
| BenchmarkReporting.CsvRowsSpec | src/ai_dev_tools/benchmark/reporting.py:217-224 | rows exist exactly when every result is a dictionary, one row per result in order |
| BenchmarkReporting.CsvReportEmpty | src/ai_dev_tools/benchmark/reporting.py:195-198 | an absent or falsy result list gives "No results found" |
| BenchmarkReporting.CsvReportList | src/ai_dev_tools/benchmark/reporting.py:191-229 | a non-empty result list gives the header followed by its rows, or the failure of a row |
| BenchmarkReporting.CsvReportRows | src/ai_dev_tools/benchmark/reporting.py:191-229 | a non-empty list gives a report exactly when every result is a dictionary: the 12-field header, then one row per result |
| BenchmarkReporting.CsvNoQuoting | src/ai_dev_tools/benchmark/reporting.py:222-224 | nothing is quoted: a comma in a cell adds to the 11 separators |
| BenchmarkReporting.CommaInError | src/ai_dev_tools/benchmark/reporting.py:222-224 | an error message `a,b` brings its comma into the row |
| BenchmarkReporting.RowCells | src/ai_dev_tools/benchmark/reporting.py:218-223 | the inner field loop computes `CsvCells` |
| BenchmarkReporting.CsvLines | src/ai_dev_tools/benchmark/reporting.py:214-224 | the header, then one joined row per dictionary, or the failure |
| BenchmarkReporting.GenerateCsvReport | src/ai_dev_tools/benchmark/reporting.py:191-229 | the method computes `CsvReport` |
| BenchmarkReporting.FailedRow | src/ai_dev_tools/benchmark/reporting.py:503-507 | a result with an error shows Failed and N/A in every percentage column |
| BenchmarkReporting.UnknownConfiguration | src/ai_dev_tools/benchmark/reporting.py:499-501 | a missing batch_info prints the configuration and profile as unknown |
| BenchmarkReporting.SummaryTableSpec | src/ai_dev_tools/benchmark/reporting.py:491-521 | the table is the two header lines and then one line per result |
| BenchmarkReporting.CreateSummaryTable | src/ai_dev_tools/benchmark/reporting.py:491-521 | the method computes `SummaryTable` |
| BenchmarkReporting.SuccessfulResultsSpec | src/ai_dev_tools/benchmark/reporting.py:334 | the selection succeeds exactly on dictionaries and keeps the ones with truthy overall_metrics |
| BenchmarkReporting.ContributionsBound | src/ai_dev_tools/benchmark/reporting.py:344-349 | at most one contribution per successful result |
| BenchmarkReporting.AggregateSpec | src/ai_dev_tools/benchmark/reporting.py:332-388 | every result counts as a run and the ones with metrics as successful, ≤ total; the summary is absent exactly when nothing succeeded |
| BenchmarkReporting.SelectSuccessful | src/ai_dev_tools/benchmark/reporting.py:334 | the comprehension computes `SuccessfulResults` |
| BenchmarkReporting.CollectContributions | src/ai_dev_tools/benchmark/reporting.py:344-349 | the loop computes `Contributions` |
| BenchmarkReporting.SuccessRate | src/ai_dev_tools/benchmark/reporting.py:376 | success_rate is 0 without configurations; otherwise rate × total = successful, and it lies in (0, 1] when something succeeded |
| BenchmarkReporting.AggregateCounts | src/ai_dev_tools/benchmark/reporting.py:351-377 | the counts of aggregated_stats are present exactly when a percentage was collected; total and successful configurations equal the runs summary's counts, and success_rate is their quotient, in (0, 1] |
| BenchmarkReporting.FirstNonNumeric | src/ai_dev_tools/benchmark/reporting.py:355-371 | none exactly when every value is an int, float or bool; otherwise the first value that is not |
| BenchmarkReporting.AggregateNonNumeric | src/ai_dev_tools/benchmark/reporting.py:351-371 | once percentages are collected, aggregation succeeds exactly when all of them are numbers; a non-number in the token list raises the TypeError naming the first such value |
| BenchmarkReporting.AggregateBatchData | src/ai_dev_tools/benchmark/reporting.py:332-388 | the method computes `AggregateOf` |
| BenchmarkReporting.ReportYaml | src/ai_dev_tools/benchmark/reporting.py:38-47 | YAML is not handled and raises |
| BenchmarkReporting.ReportConsole | src/ai_dev_tools/benchmark/reporting.py:45-55 | the console format returns the renderer's text, or its error, and writes nothing |
| BenchmarkReporting.ReportMarkdownError | src/ai_dev_tools/benchmark/reporting.py:40-41 | a Markdown renderer that raises makes the report raise the same error |
| BenchmarkReporting.ReportPath | src/ai_dev_tools/benchmark/reporting.py:31-53 | a file format returns `<dir>/<name>.<format>`, the name given or `benchmark_<profile>_<timestamp>` |
| BenchmarkReporting.DefaultReportName | src/ai_dev_tools/benchmark/reporting.py:31-34 | with no benchmark_info the name is `benchmark_unknown_<timestamp>` |
| CoreMetrics.TokensPerSecond | src/ai_dev_tools/core/metrics_collector.py:93-98 | the rate is zero for a workflow that took no time, and otherwise times the execution time gives back the token total (input plus output), non-negative for non-negative tokens |
| CoreMetrics.FileRate | src/ai_dev_tools/core/metrics_collector.py:274-279 | a workflow with positive execution time contributes files over time, any other contributes 0 |
| CoreMetrics.ReplaySums | src/ai_dev_tools/core/metrics_collector.py:405-412 | after a sequence of context calls, each counter is the sum of the amounts recorded into it |
| CoreMetrics.WorkflowContext.constructor | src/ai_dev_tools/core/metrics_collector.py:392-403 | a new context has the given workflow type and metadata and all three counters at zero |
| CoreMetrics.WorkflowContext.RecordTokens | src/ai_dev_tools/core/metrics_collector.py:405-408 | both token totals grow by the given amounts; the file count, metadata and type are unchanged |
| CoreMetrics.WorkflowContext.RecordFilesProcessed | src/ai_dev_tools/core/metrics_collector.py:410-412 | the file count grows by the given count; everything else is unchanged |
| CoreMetrics.WorkflowContext.AddMetadata | src/ai_dev_tools/core/metrics_collector.py:414-416 | the key now maps to the value, every other key keeps its value, the counters are unchanged |
| CoreMetrics.RunBody | src/ai_dev_tools/core/metrics_collector.py:204-206 | running a body's context calls on a fresh context leaves it in the state the calls replay to |
| CoreMetrics.ExecutionTimes | src/ai_dev_tools/core/metrics_collector.py:252 | the list of execution times has one entry per workflow, in order |
| CoreMetrics.Percentage | src/ai_dev_tools/core/metrics_collector.py:250 | k of n items as a percentage lies in 0..100 and times n gives 100 k |
| CoreMetrics.SelectedSpec | src/ai_dev_tools/core/metrics_collector.py:240-243 | with a type filter, the summarised workflows are exactly those of that type |
| CoreMetrics.SummaryEmpty | src/ai_dev_tools/core/metrics_collector.py:245-246 | the "No metrics collected" error comes back exactly when no workflow passes the filter |
| CoreMetrics.SumIntsAdd | src/ai_dev_tools/core/metrics_collector.py:89-91 | summing total tokens over workflows equals summing inputs plus summing outputs |
| CoreMetrics.SummaryCounts | src/ai_dev_tools/core/metrics_collector.py:248-250 | the summary counts all selected workflows and the successful ones, never more successes than workflows, and the success rate is their percentage |
| CoreMetrics.SummaryTokens | src/ai_dev_tools/core/metrics_collector.py:255-271 | the tokens consumed are the sum of the workflows' input-plus-output totals |
| CoreMetrics.SummaryTimes | src/ai_dev_tools/core/metrics_collector.py:252-266 | the total time is the sum of the execution times and the average lies between the minimum and the maximum |
| CoreMetrics.DivideSum | src/ai_dev_tools/core/metrics_collector.py:267-270 | dividing a sum by a non-zero count splits over the summands |
| CoreMetrics.SummaryAverages | src/ai_dev_tools/core/metrics_collector.py:267-270 | the average total equals the average input plus the average output |
| CoreMetrics.GainSign | src/ai_dev_tools/core/metrics_collector.py:307-331 | over a positive base the percentage change is defined and is positive exactly when the change is |
| CoreMetrics.CompareSpec | src/ai_dev_tools/core/metrics_collector.py:300-349 | either side without data gives the insufficient-data result; otherwise a zero baseline average raises a division error; each verdict flag holds exactly when its improvement is positive; the success-rate change is comparison minus baseline |
| CoreMetrics.CompareVerdicts | src/ai_dev_tools/core/metrics_collector.py:343-347 | against positive baseline averages, "faster" means a smaller average time, "more token efficient" a smaller average total and "more efficient overall" a higher token rate |
| CoreMetrics.MetricsCollector.constructor | src/ai_dev_tools/core/metrics_collector.py:126-149 | a new collector holds no metric points and no workflows; the baseline memory is the reading when monitoring is available, else 0 |
| CoreMetrics.MetricsCollector.MemoryPeakAt | src/ai_dev_tools/core/metrics_collector.py:198-214 | the recorded peak is the growth of memory over the baseline, clamped at 0, and without monitoring the end reading is the start reading 0 |
| CoreMetrics.MetricsCollector.RecordMetric | src/ai_dev_tools/core/metrics_collector.py:151-176 | exactly one metric point with the given values is appended; the workflow list is unchanged |
| CoreMetrics.MetricsCollector.MeasureWorkflow | src/ai_dev_tools/core/metrics_collector.py:178-226 | exactly one workflow record is appended, holding the replayed context counters and the clamped peak; it is successful exactly when the body raised nothing, and the body's exception is passed on |
| CoreMetrics.MetricsCollector.GetMetricsSummary | src/ai_dev_tools/core/metrics_collector.py:228-285 | the summary is the no-metrics error exactly when no collected workflow passes the filter |
| CoreMetrics.MetricsCollector.CompareWorkflows | src/ai_dev_tools/core/metrics_collector.py:287-349 | the insufficient-data result comes back exactly when either type has no collected workflow |
| CoreMetrics.MetricsCollector.ClearMetrics | src/ai_dev_tools/core/metrics_collector.py:382-386 | both the metric points and the workflows are emptied |
| BaselineSimulator.ScenarioKeys | src/ai_dev_tools/core/baseline_simulator.py:45-101 | exactly the listed workflow types have a scenario (all but the manual baseline and the unified workflow), each with at least one AI round, some files read and a positive duration |
| BaselineSimulator.Rate | src/ai_dev_tools/core/baseline_simulator.py:189-190 | a count over a non-positive duration is 0, otherwise the rate times the duration gives back the count |
| BaselineSimulator.SimulateFigures | src/ai_dev_tools/core/baseline_simulator.py:139-192 | a run at variance factor f reads the typical files times f truncated, at least one AI round, input tokens are files times tokens per file, output tokens are 300 per round, duration is typical times f, the rates are guarded by a positive duration, and it succeeds exactly when the draw is below the success rate |
| BaselineSimulator.SimulateWorkflowSpec | src/ai_dev_tools/core/baseline_simulator.py:129-172 | the ValueError comes back exactly for the two types without a scenario; the failure exception exactly for a measured run whose draw misses the success rate; otherwise the run's figures |
| BaselineSimulator.NoVariance | src/ai_dev_tools/core/baseline_simulator.py:135-148 | without variance the run has exactly the scenario's typical figures |
| BaselineSimulator.MeasuredRecordSpec | src/ai_dev_tools/core/baseline_simulator.py:154-169 | the collector's record is a manual-baseline workflow whose tokens, file count, time, peak and success agree with the run, with `ai_rounds` and `simulated` added to its metadata |
| BaselineSimulator.AttemptShape | src/ai_dev_tools/core/baseline_simulator.py:222-242 | without a collector a run is always a result entry carrying its own success flag; with one, a missed draw becomes an error entry with the failure text and a result entry is always successful |
| BaselineSimulator.Attempts | src/ai_dev_tools/core/baseline_simulator.py:222 | one entry per iteration |
| BaselineSimulator.AttemptsSpec | src/ai_dev_tools/core/baseline_simulator.py:222-242 | the i-th entry of a type is the attempt with that type's i-th draw |
| BaselineSimulator.Workflows | src/ai_dev_tools/core/baseline_simulator.py:219 | one entry per scenario type |
| BaselineSimulator.WorkflowsSpec | src/ai_dev_tools/core/baseline_simulator.py:219-244 | each scenario type's entry is keyed by its value and holds its attempts |
| BaselineSimulator.FlattenStep | src/ai_dev_tools/core/baseline_simulator.py:219-244 | flattening the workflow entries distributes over appending one more |
| BaselineSimulator.FlattenUniform | src/ai_dev_tools/core/baseline_simulator.py:219-244 | entries of n runs each flatten to the number of entries times n |
| BaselineSimulator.WorkflowsStep | src/ai_dev_tools/core/baseline_simulator.py:219-244 | the workflows of one more type are those of the earlier types followed by its own entry |
| BaselineSimulator.Accumulate | src/ai_dev_tools/core/baseline_simulator.py:227-242 | every entry adds one to the total and the successful count never exceeds it |
| BaselineSimulator.AccumulateCounts | src/ai_dev_tools/core/baseline_simulator.py:227-242 | the successful count grows by exactly the number of successful entries |
| BaselineSimulator.Records | src/ai_dev_tools/core/baseline_simulator.py:220-224 | one record per iteration of a type |
| BaselineSimulator.RunRecordSpec | src/ai_dev_tools/core/baseline_simulator.py:154-172 | a measured run's record is a manual-baseline workflow, successful exactly when the run gives a result entry |
| BaselineSimulator.RecordsSpec | src/ai_dev_tools/core/baseline_simulator.py:220-224 | the i-th record of a type is the record of that type's i-th draw |
| BaselineSimulator.RecordsAgree | src/ai_dev_tools/core/baseline_simulator.py:220-242 | run by run, a record is successful exactly when the suite's entry for that run is a result and not an error entry |
| BaselineSimulator.SuiteRecordsLength | src/ai_dev_tools/core/baseline_simulator.py:219-224 | the suite leaves one record per scenario type and iteration |
| BaselineSimulator.AccumulateConcat | src/ai_dev_tools/core/baseline_simulator.py:219-244 | accumulating two lists in turn equals accumulating their concatenation |
| BaselineSimulator.SuiteSpec | src/ai_dev_tools/core/baseline_simulator.py:194-266 | each scenario type gets one entry per iteration (none for a non-positive count); the total is the number of entries and the successful count those succeeding; the rate lies in 0..100; averages and efficiency are 0 when their divisor is 0 |
| BaselineSimulator.ChangeSign | src/ai_dev_tools/core/baseline_simulator.py:284-321 | over a positive base the percentage change is positive exactly when the difference is |
| BaselineSimulator.CompareWithCurrentSpec | src/ai_dev_tools/core/baseline_simulator.py:268-351 | each improvement is 0 when its baseline figure is not positive; each verdict holds exactly when its improvement is positive; the savings are the baseline averages less the current ones, missing current figures counting as 0 |
| BaselineSimulator.CompareWithCurrentVerdicts | src/ai_dev_tools/core/baseline_simulator.py:284-348 | against positive baseline figures each verdict compares the current figure with the baseline's, and each reduction percentage is its savings over the baseline figure |
| BaselineSimulator.Simulator.constructor | src/ai_dev_tools/core/baseline_simulator.py:103-110 | the simulator keeps the collector it is given, or none |
| BaselineSimulator.Simulator.SimulateWorkflow | src/ai_dev_tools/core/baseline_simulator.py:112-192 | the result is the modelled simulation; with a collector and a type that has a scenario, the collector gains exactly the run's record and nothing else changes |
| BaselineSimulator.Simulator.RunOnce | src/ai_dev_tools/core/baseline_simulator.py:222-224 | one try of the inner loop gives the attempt for its draw, and a collector gains exactly that run's record |
| BaselineSimulator.Simulator.RunScenario | src/ai_dev_tools/core/baseline_simulator.py:220-244 | the inner loop's entries are the type's attempts, its totals their accumulation, and a collector gains exactly the runs' records, iteration after iteration |
| BaselineSimulator.Simulator.RunScenarios | src/ai_dev_tools/core/baseline_simulator.py:219-244 | the outer loop's entries are the workflows over all types, its totals the accumulation of all entries, and a collector gains exactly the suite's records, type after type and run after run |
| BaselineSimulator.Simulator.RunBaselineSuite | src/ai_dev_tools/core/baseline_simulator.py:194-266 | the result is the modelled suite, and a collector gains exactly the suite's records in the order of the loops, one per scenario type and iteration |
| BenchmarkSuite.Plus | src/ai_dev_tools/core/benchmark_suite.py:302-303 | adding two metrics values succeeds exactly when both are numbers, and is then a number equal to their arithmetic sum |
| BenchmarkSuite.CalculateReductionSpec | src/ai_dev_tools/core/benchmark_suite.py:312-316 | a zero baseline gives 0; two numbers give a reduction r with r times the baseline equal to 100 times the saving, positive over a positive baseline exactly when the tools figure is smaller; a non-number raises the subtraction's TypeError |
| BenchmarkSuite.SumField | src/ai_dev_tools/core/benchmark_suite.py:302-303 | a successful sum, started from the integer 0, is a number |
| BenchmarkSuite.SumFieldSpec | src/ai_dev_tools/core/benchmark_suite.py:302-303 | the sum succeeds exactly when every value read (0 for a missing key) is a number, and is then their arithmetic total |
| BenchmarkSuite.AverageToolResultsSpec | src/ai_dev_tools/core/benchmark_suite.py:293-310 | no results give empty metrics, one result gives its own metrics, and two or more give a result exactly when all their token and time values are numbers |
| BenchmarkSuite.AverageToolResultsMeans | src/ai_dev_tools/core/benchmark_suite.py:302-310 | for two or more numeric results the averaged metrics are the token mean and then the time mean |
| BenchmarkSuite.MeanOf | src/ai_dev_tools/core/benchmark_suite.py:307-308 | the mean times the count gives back the total |
| BenchmarkSuite.ResultKeys | src/ai_dev_tools/core/benchmark_suite.py:259 | one `task_model` key per result, in order |
| BenchmarkSuite.AbsentKey | src/ai_dev_tools/core/benchmark_suite.py:257-265 | a key no result has has no baseline and no tools results |
| BenchmarkSuite.GroupedSpec | src/ai_dev_tools/core/benchmark_suite.py:256-265 | the grouping has distinct keys, exactly the results' keys, each holding that key's last baseline result and all its tools results in order |
| BenchmarkSuite.GroupResults | src/ai_dev_tools/core/benchmark_suite.py:256-265 | the grouping loop builds exactly the specified grouping |
| BenchmarkSuite.ComparisonsErr | src/ai_dev_tools/core/benchmark_suite.py:267-289 | once a group's comparison raises, the whole loop raises that error |
| BenchmarkSuite.ComparisonsSpec | src/ai_dev_tools/core/benchmark_suite.py:267-289 | over distinct keys, a group gets a comparison exactly when it has a baseline and some tools results, and it is that group's comparison |
| BenchmarkSuite.ComparisonsNone | src/ai_dev_tools/core/benchmark_suite.py:267-289 | a key with no group has no comparison |
| BenchmarkSuite.GenerateComparisonsSpec | src/ai_dev_tools/core/benchmark_suite.py:250-291 | a key has a comparison exactly when it has a baseline result and at least one tools result, and that comparison is of its last baseline against the average of all its tools results |
| BenchmarkSuite.NestedMetricsRaise | src/ai_dev_tools/core/benchmark_suite.py:277-285 | metrics shaped like a metrics summary (no `total_tokens`, time as a nested dict) make every comparison raise, on the time subtraction or earlier when averaging the tool results fails |
| BenchmarkSuite.GenerateComparisons | src/ai_dev_tools/core/benchmark_suite.py:250-291 | the method returns exactly the specified comparisons or error |
| AiAgent.Details | src/ai_dev_tools/agents/ai_agent.py:103-113 | one safety entry per match, in order |
| AiAgent.CollectedFile | src/ai_dev_tools/agents/ai_agent.py:115-118 | every file in a collected list comes from a match of that class |
| AiAgent.ClassificationSpec | src/ai_dev_tools/agents/ai_agent.py:115-118 | a file is listed high-risk exactly when a match in it has HIGH or CRITICAL risk, and safe exactly when a match in it has neither and is safe to modify; no file is in both lists |
| AiAgent.LibraryClassifiesAll | src/ai_dev_tools/agents/ai_agent.py:115-118 | with the library safety checker every match lands in exactly one of the two lists |
| AiAgent.AssessMatches | src/ai_dev_tools/agents/ai_agent.py:99-118 | the loop over the matches builds exactly the specified details and the two file lists |
| AiAgent.Recommendations | src/ai_dev_tools/agents/ai_agent.py:281-321 | no patterns give only the "unique fix" message; otherwise the safe-files advice is there exactly when there are safe files, the review and backup advice exactly when there are high-risk files, the batch advice exactly above 10 patterns, and at most five messages |
| AiAgent.GenerateRecommendations | src/ai_dev_tools/agents/ai_agent.py:281-321 | appending message by message gives exactly the specified recommendations |
| AiAgent.SummaryMarks | src/ai_dev_tools/agents/ai_agent.py:330-341 | with patterns the summary holds one comma exactly when there are high-risk files, and one of each bracket exactly when there are safe files |
| AiAgent.WorkflowSummarySpec | src/ai_dev_tools/agents/ai_agent.py:323-341 | no patterns give the fixed text; otherwise the summary starts with the pattern count, has the bracketed safe part exactly when there are safe files, and the high-risk part exactly when there are high-risk files |
| AiAgent.CreateWorkflowSummary | src/ai_dev_tools/agents/ai_agent.py:323-341 | extending the text part by part gives exactly the specified summary |
| AiAgent.FixAndPropagateSpec | src/ai_dev_tools/agents/ai_agent.py:64-162 | the workflow succeeds exactly when the scan found a match, and then exits with the count capped at 254; otherwise, scan error included, it exits with 255; a successful scan has every match assessed and no more safe plus high-risk files than matches |
| AiAgent.CollectCount | src/ai_dev_tools/agents/ai_agent.py:115-118 | a collected list has one file per match that passes its test |
| AiAgent.LibraryScanFails | src/ai_dev_tools/agents/ai_agent.py:91-162 | with the library pattern scanner, which finds nothing, the workflow never succeeds, exits 255 and reports no patterns |
| AiAgent.FixAndPropagateWorkflow | src/ai_dev_tools/agents/ai_agent.py:64-162 | the method returns exactly the specified workflow result |
| AiAgent.SurveySpec | src/ai_dev_tools/agents/ai_agent.py:233-248 | the loop raises exactly when some file's safety result has no `warnings`; otherwise it records one risk value and one entry per file, and the CRITICAL files in order |
| AiAgent.SurveyErr | src/ai_dev_tools/agents/ai_agent.py:233-248 | once the loop over a prefix raises, the loop over all files raises the same error |
| AiAgent.NoCriticals | src/ai_dev_tools/agents/ai_agent.py:247-254 | no file is critical when every risk is at most MEDIUM |
| AiAgent.ChangeSafetySpec | src/ai_dev_tools/agents/ai_agent.py:217-279 | the failure branch (exit 255, not safe) comes exactly when some result lacks `warnings`; otherwise the maximum risk bounds every file's risk and is one of them (0 for no files), the exit code equals it, and the change is safe to proceed exactly when every risk is at most MEDIUM |
| AiAgent.MaxRiskSpec | src/ai_dev_tools/agents/ai_agent.py:251 | the maximum of the recorded risks bounds each file's risk, is attained (0 for no files) and is at most 3 |
| AiAgent.LibraryAssessmentFails | src/ai_dev_tools/agents/ai_agent.py:233-279 | with the library checker, whose result has no `warnings`, every non-empty list of files ends in the failure branch |
| AiAgent.AssessChangeSafety | src/ai_dev_tools/agents/ai_agent.py:217-279 | the loop over the files and the verdict give exactly the specified assessment |
| AiHelper.Failure | src/ai_dev_tools/core/ai_helper.py:172-181 | every workflow's `except` branch reports failure, exit code 255 and the error text as its context |
| AiHelper.Top5 | src/ai_dev_tools/core/ai_helper.py:167 | the recommendations kept are the first at most five, all of them when there are no more than five |
| AiHelper.ProjectSummary | src/ai_dev_tools/core/ai_helper.py:451-458 | the summary reports syntax errors exactly when there are some (with their count), else readiness exactly when the project is ready, else the need for improvement, with the score |
| AiHelper.Normalised | src/ai_dev_tools/core/ai_helper.py:115-130 | `max(0, 1 - x/d)` is never negative and at most 1 for a non-negative x |
| AiHelper.OverallScoreBounds | src/ai_dev_tools/core/ai_helper.py:92-131 | with a health score in [0, 1] and a non-negative complexity, the weighted overall score (0.3, 0.3, 0.4) stays in [0, 1] |
| AiHelper.ProjectAdviceSpec | src/ai_dev_tools/core/ai_helper.py:133-144 | at most five recommendations; a score below 0.6 puts the threshold warning first, otherwise syntax errors put the syntax warning first |
| AiHelper.ProjectReportSpec | src/ai_dev_tools/core/ai_helper.py:133-170 | a finished analysis succeeds with exit code `min(int(score * 100), 254)`, in 0..100 for a score in [0, 1], the readiness the source defines, and the ordered top-five recommendations |
| AiHelper.AnalyzeProjectSpec | src/ai_dev_tools/core/ai_helper.py:75-181 | analysis succeeds exactly when the health record has the attributes read and every requested step completes; a failure exits 255 with the error; a success reports on the score of exactly the requested parts, in [0, 1] for a health score in [0, 1] and a non-negative complexity |
| AiHelper.PercentBounds | src/ai_dev_tools/core/ai_helper.py:156 | a score in [0, 1] truncates to a percentage in 0..100 |
| AiHelper.LibraryAnalyzeFails | src/ai_dev_tools/core/ai_helper.py:95-102 | the repository analyzer's health record has no `health_score`, so analysis always fails with exit code 255 naming that attribute |
| AiHelper.Risks | src/ai_dev_tools/core/ai_helper.py:209-220 | one risk value per target file, in order |
| AiHelper.PlanSafety | src/ai_dev_tools/core/ai_helper.py:205-222 | the loop's running maximum is the maximum of the files' risks, and its critical list is the CRITICAL files in order |
| AiHelper.PlanReportSpec | src/ai_dev_tools/core/ai_helper.py:242-270 | a plan succeeds, exits with its maximum risk, is safe to proceed exactly when that risk is at most MEDIUM and no file is CRITICAL, then leads with "Changes appear safe to proceed", leads with the CAUTION message when there are critical files, and keeps at most five recommendations |
| AiHelper.NoCriticals | src/ai_dev_tools/core/ai_helper.py:220-253 | no file is critical when every risk is at most MEDIUM |
| AiHelper.MaxRiskSpec | src/ai_dev_tools/core/ai_helper.py:220 | the maximum of the risks bounds every file's risk, is attained (0 for no files) and is at most 3 |
| AiHelper.PlanChangesSpec | src/ai_dev_tools/core/ai_helper.py:183-281 | planning succeeds exactly when the impact step is skipped or its result has `overall_risk`; a success exits with the maximum file risk, a risk with a name, is safe to proceed exactly when every file is at most MEDIUM, and orders its recommendations as above; a failure exits 255 |
| AiHelper.LibraryPlanFails | src/ai_dev_tools/core/ai_helper.py:231-236 | the impact analyzer's result has no `overall_risk`, so planning any non-empty list of files with the impact step fails with exit code 255 |
| AiHelper.PlanChanges | src/ai_dev_tools/core/ai_helper.py:183-281 | the loop, the impact step and the verdict give exactly the specified result |
| AiHelper.ClassifyMatches | src/ai_dev_tools/core/ai_helper.py:328-346 | the loop collects exactly the safe and the high-risk files of the matches, in order |
| AiHelper.CollectedFile | src/ai_dev_tools/core/ai_helper.py:343-346 | every file in a collected list comes from a match of that class |
| AiHelper.SystematicFixSpec | src/ai_dev_tools/core/ai_helper.py:283-392 | a scan that raises fails with exit code 255; one without patterns succeeds with exit code 0; otherwise the exit code is the count capped at 254 and the context counts the safe and the high-risk files, together no more than the matches |
| AiHelper.CollectCountDisjoint | src/ai_dev_tools/core/ai_helper.py:343-346 | the two lists together hold no more files than there are matches |
| AiHelper.ClassificationSpec | src/ai_dev_tools/core/ai_helper.py:343-346 | a file is safe exactly when a match is in it and its check says safe to modify and at most MEDIUM, high-risk exactly when otherwise it is HIGH or above, and never both |
| AiHelper.LibraryClassifiesAll | src/ai_dev_tools/core/ai_helper.py:343-346 | with the library safety checker every match is either safe or high-risk |
| AiHelper.SystematicFixWorkflow | src/ai_dev_tools/core/ai_helper.py:283-392 | the early return, the loop and the report give exactly the specified result |
| AiHelper.CompareAdviceSpec | src/ai_dev_tools/core/ai_helper.py:410-421 | "Files are identical" is the whole advice exactly when there are no differences; otherwise there are two messages, three when some change is major |
| AiHelper.CompareConfigurationsSpec | src/ai_dev_tools/core/ai_helper.py:394-449 | a comparison that raises exits 255 with the error; one that runs succeeds, exits with the difference count capped at 254, counts the MAJOR differences (some exactly when one exists) and says "Files are identical" exactly when there are none |

## Left out

- `BenchmarkReporting.AggregateBatchData`: the mean, median, standard deviation, minimum and maximum of each percentage list are floating-point statistics and are not computed. The lists themselves are kept in order in `contributions`, and the TypeError `statistics.mean` raises on a non-number is modelled. Its text is the one the module gives when no float precedes the offending value. After a float, the module words the same TypeError as a coercion failure.

- File-system access: directory walks (`rglob`, `iterdir`), `is_file`, `exists`, `mkdir`, file reads and MD5 digests. Their results are inputs, and a read that fails is an input error. The walkers `_collect_files`, `_get_project_files` and `_get_directory_files` are not modelled, because they only list the tree.
- The `re` engine: each pattern the code uses is a hand-written predicate over ASCII text. Unicode character classes and case folding are not modelled.
- `difflib.unified_diff`: its output lines are an input of the text comparison.
- Clocks, process memory, randomness and sleeping: `time.time`, `datetime.now`, `psutil` readings, `random.uniform` and `random.random` become parameters, and `time.sleep` is dropped.
- Concurrency: `threading.Lock` and `asyncio.Lock` are dropped, because the model delivers calls one at a time.
- Command-line entry points: `main()`, `demo()`, printing to stdout and stderr, and `sys.exit`. The exit code is modelled as the value the functions return.
- Module-level convenience wrappers and global singletons: `get_metrics_collector`, `measure_workflow`, `record_metric`, `get_task_registry`, `create_baseline_simulator`, `simulate_baseline_workflow`, `load_config`. They only forward to the modelled methods.
- Python float arithmetic: floats are exact reals, and rounding error and binary ties in `round` are not modelled.
- `to_dict`, `to_json` and `to_ai_format` of records that only project their fields (`ImpactedFile`, `ImpactAnalysis`, `ProjectContext`, `FileDifference`, `DifferenceAnalysis`, `ValidationIssue`, `PatternScanResult`, `MetricPoint`, `WorkflowMetrics`, `BenchmarkMetrics`, `ComparisonMetrics`, `WorkflowResult`, `HelperWorkflowResult`). These are not modelled. The projections the proofs use are modelled: `SafetyResult.to_ai_format` and `to_dict`, `ValidationResult.to_dict`, `TaskResult.to_dict`.
- `ImpactAnalyzer._extract_api_definitions`: these regular expressions over a file's content are not modelled, and the API names are an input.
- `PatternScanner._has_similar_structure` and the rest of the library's `_calculate_similarity` after its `KeyError`: no input reaches them, so they are not modelled. The library's `_match_mkif_list_concat` and `_match_homebrew_list` are unreachable there too; their copies in the standalone script are modelled (`PatternScanner.MatchMkifListConcat`, `PatternScanner.MatchHomebrewList`) and used by `StandalonePatternScanner.Similarity`.
- `StandalonePatternScanner._extract_pattern` and `_get_context`: these copies of the library's functions are not modelled separately, and the model reuses the library versions.
- Float statistics in `benchmark/metrics.py`: `statistics.median`, `stdev` and `quantiles`, the percentiles, and the t-approximation of the confidence margin. These come in as a `Statistics` parameter. The n < 2 guards around them are modelled.
- Report rendering in `benchmark/reporting.py`, which builds text with float formatting. Not modelled:
  - the JSON report body;
  - the Markdown and console reports, and their batch variants;
  - the performance dashboard, the comparison chart and the trend analysis text;
  - `export_raw_data`.
- `CoreMetrics.MetricsCollector.export_metrics`: it only writes a JSON file.
- `BenchmarkSuite`: not modelled:
  - the task table built in `__init__`;
  - `run_task_baseline`, `run_task_with_tools` and `run_comparison_suite`, which are simulation and orchestration;
  - `create_benchmark_report`, which renders Markdown.
- `AiAgent`: not modelled:
  - `get_repository_context`;
  - the wrappers `find_similar_patterns`, `check_file_safety` and `get_repo_health`;
  - the helpers `_generate_fix_recommendations`, `_generate_safety_recommendations`, `_generate_workflow_summary`, `_identify_blocking_issues` and `_generate_repo_recommendations`, which no modelled workflow calls.
- `AiAgent.ChangeSafetySpec`: the de-duplicated `warnings` list is a set, because the order `list(set(...))` gives is unspecified.
- `AiHelper`: the `details` dictionaries of the workflow results are not modelled, and neither are the context analysis and validation results beyond the fields the score reads.
- Repository health (`repo_analyzer.py`), the impact analyzer as called from the helper, and the difference analyzer as called from the helper: their results are inputs of the helper workflows.
- `BenchmarkConfig.LaxInt`: pydantic's lax integer coercion is modelled for integers, booleans, integral floats and strings of optional sign and ASCII digits, stripped of ASCII whitespace. Not modelled: underscore digit separators ("1_000"), decimal strings with a zero fraction ("5.0") and non-ASCII whitespace around a number. `InstanceFromToml`, `FromTomlProfiles`, `FromTomlSizes`, `SizesAsInts` and `IntSetting` reject these, where pydantic may accept them.
- `Common.IsSpace`: the whitespace `str.strip` and `str.isspace` remove is the ASCII set (tab to carriage return, the separators 0x1C-0x1F and space). Unicode spaces are not modelled.
- `BenchmarkReporting.GenerateReport`: the Markdown and console texts are parameters that may fail, and their bodies are not modelled. The JSON body is not modelled either, because `json.dumps` with `default=str` does not fail on the modelled values.
- `BenchmarkReporting.GenerateReport`: `output_dir / f"{filename}.{ext}"` is modelled as text joined with "/". `pathlib` normalisation is not modelled. Neither is the rule that an absolute file name replaces the output directory.
- `BenchmarkConfig.PathSetting` and `BenchmarkConfig.EnvironmentIssues`: paths are kept as the text given, without `pathlib` normalisation, so the compose-file message shows the text and not the normalised path.
- `CoreMetrics.WorkflowContext.AddMetadata`: the context's metadata is a value. In the source, `measure_workflow` passes the caller's dictionary to the context, and `add_metadata` writes into it, so the caller sees the additions too. That aliasing is not modelled.
