/**
 * Difference analysis between two files or two directory trees: which paths were
 * added, removed or changed, and how significant each content change is.
 * File contents, the byte-level digests and the unified diff are inputs.
 */
module DifferenceAnalyzer {
  import opened Common

  datatype DifferenceType =
    | Identical | ContentChanged | StructureChanged | Added | Removed | Renamed | PermissionChanged

  /** `ChangeSignificance`: TRIVIAL (whitespace, comments) < MINOR < MAJOR < CRITICAL. */
  datatype Significance = Trivial | Minor | Major | Critical

  datatype FileDifference = FileDifference(
    path: string,
    differenceType: DifferenceType,
    significance: Significance,
    lineChanges: nat,
    addedLines: nat,
    removedLines: nat,
    details: Option<string>)

  datatype DifferenceAnalysis = DifferenceAnalysis(
    totalDifferences: nat,
    significantDifferences: nat,
    filesCompared: nat,
    filesAdded: nat,
    filesRemoved: nat,
    filesModified: nat,
    differences: seq<FileDifference>,
    summary: string)

  /** The analyzer's two switches (`ignore_whitespace` defaults to true, `ignore_comments` to false). */
  datatype Options = Options(ignoreWhitespace: bool, ignoreComments: bool)

  /**
   * One file as the analyzer sees it: its name, its bytes (None when reading them raised)
   * and its lines after decoding (None when `read_text` raised; it decodes with `errors="ignore"`,
   * so bytes that are not UTF-8 are dropped and only a failing read gives None).
   */
  datatype FileData = FileData(name: string, bytes: Option<seq<bv8>>, text: Option<seq<string>>)

  /** What `difflib.unified_diff(a, b, lineterm="")` returns, taken as a parameter. */
  type Differ = (seq<string>, seq<string>) -> seq<string>

  /** A unified diff of two equal line lists is empty. */
  ghost predicate QuietOnEqual(diff: Differ)
  {
    forall a :: diff(a, a) == []
  }

  function TypeValue(t: DifferenceType): string
  {
    match t
    case Identical => "identical"
    case ContentChanged => "content_changed"
    case StructureChanged => "structure_changed"
    case Added => "added"
    case Removed => "removed"
    case Renamed => "renamed"
    case PermissionChanged => "permission_changed"
  }

  function SignificanceValue(s: Significance): string
  {
    match s
    case Trivial => "trivial"
    case Minor => "minor"
    case Major => "major"
    case Critical => "critical"
  }

  const TextExtensions: set<string> :=
    {".py", ".js", ".ts", ".jsx", ".tsx", ".rs", ".go", ".java", ".c", ".cpp", ".h", ".hpp", ".cs",
     ".php", ".rb", ".swift", ".nix", ".json", ".yaml", ".yml", ".toml", ".ini", ".cfg", ".conf",
     ".md", ".txt", ".html", ".css", ".scss", ".less", ".xml", ".sql", ".sh", ".bash", ".zsh", ".fish"}

  predicate IsTextFile(name: string)
  {
    Lower(Suffix(name)) in TextExtensions
  }

  // ------------------------------------------------------------------ line tests

  /**
   * `re.match` of one of the four `TRIVIAL_PATTERNS`: a blank line, a `#` or `//` comment,
   * or a one-line `/* ... */` block comment.
   */
  predicate IsTrivialLine(l: string)
  {
    var k := SkipSpaces(l, 0);
    || k == |l|
    || l[k] == '#'
    || OccursAt(l, k, "//")
    || (OccursAt(l, k, "/*") && k + 4 <= |l| && EndsWith(l, "*/"))
  }

  /** The end of the run of word characters starting at `p`. */
  function SkipWord(s: string, p: nat): (r: nat)
    requires p <= |s|
    ensures p <= r <= |s|
    ensures forall q :: p <= q < r ==> IsWordChar(s[q])
    ensures r < |s| ==> !IsWordChar(s[r])
    decreases |s| - p
  {
    if p < |s| && IsWordChar(s[p]) then SkipWord(s, p + 1) else p
  }

  /** `kw\s+` at index `i`. */
  predicate KeywordSpace(l: string, i: int, kw: string)
  {
    OccursAt(l, i, kw) && i + |kw| < |l| && IsSpace(l[i + |kw|])
  }

  /** `kw\s+\w+` at index `i`. */
  predicate KeywordName(l: string, i: int, kw: string)
  {
    KeywordSpace(l, i, kw) && var k := SkipSpaces(l, i + |kw|); k < |l| && IsWordChar(l[k])
  }

  /** One of the eight `CRITICAL_PATTERNS` matches at index `i` (case-sensitive). */
  predicate CriticalAt(l: string, i: int)
    requires 0 <= i < |l|
  {
    || KeywordName(l, i, "class")
    || KeywordName(l, i, "def")
    || KeywordName(l, i, "function")
    || KeywordName(l, i, "interface")
    || KeywordSpace(l, i, "import")
    // from\s+\w+\s+import
    || (KeywordSpace(l, i, "from")
        && var k := SkipSpaces(l, i + 4);
           var w := SkipWord(l, k);
           k < w < |l| && IsSpace(l[w]) && OccursAt(l, SkipSpaces(l, w), "import"))
    || KeywordSpace(l, i, "export")
    || (l[i] == '@' && i + 1 < |l| && IsWordChar(l[i + 1]))
  }

  /** `re.search` of some critical pattern. */
  predicate IsCriticalLine(l: string)
  {
    exists i | 0 <= i < |l| :: CriticalAt(l, i)
  }

  predicate StartsPlus(l: string)
  {
    |l| > 0 && l[0] == '+'
  }

  predicate StartsMinus(l: string)
  {
    |l| > 0 && l[0] == '-'
  }

  /** `line.startswith(("+", "-"))`. */
  predicate ChangedLine(l: string)
  {
    |l| > 0 && (l[0] == '+' || l[0] == '-')
  }

  /** The changed lines are exactly the added lines plus the removed lines. */
  lemma ChangedSplits(diffLines: seq<string>)
    ensures CountWhere(diffLines, ChangedLine) == CountWhere(diffLines, StartsPlus) + CountWhere(diffLines, StartsMinus)
  {
    CountWhereDisjoint(diffLines, StartsPlus, StartsMinus, ChangedLine);
  }

  // ------------------------------------------------------------- significance

  predicate AnyCriticalChange(diffLines: seq<string>)
  {
    exists k | 0 <= k < |diffLines| :: ChangedLine(diffLines[k]) && IsCriticalLine(diffLines[k])
  }

  /** Every changed line, with its marker dropped and stripped, is blank or a comment. */
  predicate OnlyTrivialChanges(diffLines: seq<string>)
  {
    forall k | 0 <= k < |diffLines| :: ChangedLine(diffLines[k]) ==> IsTrivialLine(Strip(diffLines[k][1..]))
  }

  /** `_determine_significance`, with `n1`, `n2` the lengths of the compared line lists. */
  function DetermineSignificance(diffLines: seq<string>, n1: nat, n2: nat): Significance
  {
    var total := Max(n1, n2);
    var changed := CountWhere(diffLines, ChangedLine);
    if total == 0 then Trivial
    else if AnyCriticalChange(diffLines) then Critical
    else if OnlyTrivialChanges(diffLines) then Trivial
    else
      var ratio := changed as real / total as real;
      if ratio > 0.5 then Critical
      else if ratio > 0.2 then Major
      else Minor
  }

  lemma MulPositive(a: real, b: real)
    requires a > 0.0 && b > 0.0
    ensures a * b > 0.0
  {
  }

  /** For a positive divisor, a quotient exceeds `c` exactly when the dividend exceeds `c` times the divisor. */
  lemma QuotientAbove(a: real, t: real, c: real)
    requires t > 0.0
    ensures a / t > c <==> a > c * t
  {
    var q := a / t;
    assert q * t == a;
    if q > c {
      MulPositive(q - c, t);
      assert (q - c) * t == q * t - c * t;
    }
  }

  /** The two ratio thresholds of `_determine_significance`, in integer terms. */
  lemma RatioThresholds(changed: nat, total: nat)
    requires total > 0
    ensures changed as real / total as real > 0.5 <==> 2 * changed > total
    ensures changed as real / total as real > 0.2 <==> 5 * changed > total
  {
    QuotientAbove(changed as real, total as real, 0.5);
    QuotientAbove(changed as real, total as real, 0.2);
  }

  /** The checks apply in order: empty inputs, critical patterns, trivial-only, then the change ratio. */
  lemma SignificanceOrder(diffLines: seq<string>, n1: nat, n2: nat)
    ensures var s, total, changed := DetermineSignificance(diffLines, n1, n2), Max(n1, n2), CountWhere(diffLines, ChangedLine);
      && (total == 0 ==> s == Trivial)
      && (total > 0 && AnyCriticalChange(diffLines) ==> s == Critical)
      && (total > 0 && !AnyCriticalChange(diffLines) && OnlyTrivialChanges(diffLines) ==> s == Trivial)
      && (total > 0 && !AnyCriticalChange(diffLines) && !OnlyTrivialChanges(diffLines) ==>
            (s == Critical <==> 2 * changed > total)
            && (s == Major <==> 2 * changed <= total && 5 * changed > total)
            && (s == Minor <==> 5 * changed <= total))
  {
    var total := Max(n1, n2);
    if total > 0 {
      RatioThresholds(CountWhere(diffLines, ChangedLine), total);
    }
  }

  /** The first character of an occurrence is the word's first character. */
  lemma OccursFirst(l: string, i: int, w: string)
    requires |w| > 0 && OccursAt(l, i, w)
    ensures l[i] == w[0]
  {
    assert l[i..i + |w|][0] == l[i];
  }

  /** Every critical pattern needs a word character, so a line without one is never critical. */
  lemma NoWordCharNotCritical(l: string)
    requires forall j :: 0 <= j < |l| ==> !IsWordChar(l[j])
    ensures !IsCriticalLine(l)
  {
    forall i | 0 <= i < |l| ensures !CriticalAt(l, i) {
      assert !IsWordChar(l[i]);
      if OccursAt(l, i, "class") { OccursFirst(l, i, "class"); }
      if OccursAt(l, i, "def") { OccursFirst(l, i, "def"); }
      if OccursAt(l, i, "function") { OccursFirst(l, i, "function"); }
      if OccursAt(l, i, "interface") { OccursFirst(l, i, "interface"); }
      if OccursAt(l, i, "import") { OccursFirst(l, i, "import"); }
      if OccursAt(l, i, "from") { OccursFirst(l, i, "from"); }
      if OccursAt(l, i, "export") { OccursFirst(l, i, "export"); }
      if l[i] == '@' && i + 1 < |l| { assert !IsWordChar(l[i + 1]); }
    }
  }

  /** A stripped line that starts with a character other than a space, `#` or `/` is not trivial. */
  lemma StrippedNotTrivial(s: string)
    requires |s| > 0 && !IsSpace(s[0]) && s[0] != '#' && s[0] != '/'
    ensures !IsTrivialLine(Strip(s))
  {
    assert LStrip(s) == s;
    var r := RStrip(s);
    assert r != [] && r[0] == s[0];
    assert SkipSpaces(r, 0) == 0;
  }

  /**
   * The header lines `--- ` and `+++ ` that a unified diff of two different line lists opens
   * with count as changed lines and are not comments, so the trivial-only test never holds:
   * such a diff is never TRIVIAL, however small the change.
   */
  lemma HeadersDefeatTrivial(diffLines: seq<string>, n1: nat, n2: nat)
    requires |diffLines| >= 2 && diffLines[0] == "--- " && diffLines[1] == "+++ "
    requires Max(n1, n2) > 0
    ensures !OnlyTrivialChanges(diffLines)
    ensures CountWhere(diffLines, ChangedLine) >= 1
    ensures DetermineSignificance(diffLines, n1, n2) != Trivial
  {
    assert ChangedLine(diffLines[0]);
    assert diffLines[0][1..] == "-- ";
    StrippedNotTrivial("-- ");
    CountWhereMember(diffLines, ChangedLine, 0);
    SignificanceOrder(diffLines, n1, n2);
  }

  /**
   * An edit of a one-line file that touches no critical pattern, a comment edit such as `# a`
   * becoming `# b` included: the two header lines alone push the change ratio past one half,
   * so the edit is reported CRITICAL.
   */
  lemma OneLineEditIsCritical(diffLines: seq<string>, n1: nat, n2: nat)
    requires |diffLines| >= 2 && diffLines[0] == "--- " && diffLines[1] == "+++ "
    requires Max(n1, n2) == 1
    requires !AnyCriticalChange(diffLines)
    ensures DetermineSignificance(diffLines, n1, n2) == Critical
  {
    HeadersDefeatTrivial(diffLines, n1, n2);
    SignificanceOrder(diffLines, n1, n2);
  }

  // ------------------------------------------------------------ text compare

  /** `_filter_comments`: the lines that no trivial pattern matches, in order. */
  method FilterComments(lines: seq<string>) returns (filtered: seq<string>)
    ensures filtered == Filter(lines, l => !IsTrivialLine(l))
  {
    filtered := [];
    for i := 0 to |lines|
      invariant filtered == Filter(lines[..i], l => !IsTrivialLine(l))
    {
      FilterStep(lines, l => !IsTrivialLine(l), i);
      if !IsTrivialLine(lines[i]) {
        filtered := filtered + [lines[i]];
      }
    }
    assert lines[..|lines|] == lines;
  }

  /** Filtering keeps exactly the non-comment lines, and filtering again removes nothing more. */
  lemma FilterCommentsSpec(lines: seq<string>)
    ensures var f := Filter(lines, l => !IsTrivialLine(l));
      && (forall k :: 0 <= k < |f| ==> f[k] in lines && !IsTrivialLine(f[k]))
      && (forall i :: 0 <= i < |lines| && !IsTrivialLine(lines[i]) ==> lines[i] in f)
      && Filter(f, l => !IsTrivialLine(l)) == f
  {
    FilterSpec(lines, l => !IsTrivialLine(l));
    FilterIdempotent(lines, l => !IsTrivialLine(l));
  }

  function StripAll(lines: seq<string>): (r: seq<string>)
    ensures |r| == |lines| && forall i :: 0 <= i < |lines| ==> r[i] == Strip(lines[i])
  {
    seq(|lines|, i requires 0 <= i < |lines| => Strip(lines[i]))
  }

  /** The preprocessing of `_compare_text_files`: strip each line, then drop comments. */
  function Preprocess(lines: seq<string>, opts: Options): seq<string>
  {
    var stripped := if opts.ignoreWhitespace then StripAll(lines) else lines;
    if opts.ignoreComments then Filter(stripped, l => !IsTrivialLine(l)) else stripped
  }

  method PreprocessLines(lines: seq<string>, opts: Options) returns (r: seq<string>)
    ensures r == Preprocess(lines, opts)
  {
    r := if opts.ignoreWhitespace then StripAll(lines) else lines;
    if opts.ignoreComments {
      r := FilterComments(r);
    }
  }

  function Unreadable(name: string, details: string, s: Significance): FileDifference
  {
    FileDifference(name, ContentChanged, s, 0, 0, 0, Some(details))
  }

  /** The difference a non-empty diff describes. */
  function DiffEntry(name: string, d: seq<string>, n1: nat, n2: nat): FileDifference
  {
    var added := CountWhere(d, StartsPlus);
    var removed := CountWhere(d, StartsMinus);
    FileDifference(name, ContentChanged, DetermineSignificance(d, n1, n2), added + removed, added, removed,
                   Some(IntToString(added + removed) + " line changes"))
  }

  /** `_compare_text_files`. */
  function TextDifference(f1: FileData, f2: FileData, opts: Options, diff: Differ): Option<FileDifference>
  {
    if f1.text.None? || f2.text.None? then Some(Unreadable(f1.name, "Could not compare text content", Minor))
    else
      var l1, l2 := Preprocess(f1.text.value, opts), Preprocess(f2.text.value, opts);
      var d := diff(l1, l2);
      if d == [] then None else Some(DiffEntry(f1.name, d, |l1|, |l2|))
  }

  /** A reported text change counts every changed diff line, as added plus removed lines. */
  lemma TextDifferenceCounts(f1: FileData, f2: FileData, opts: Options, diff: Differ)
    requires f1.text.Some? && f2.text.Some?
    requires TextDifference(f1, f2, opts, diff).Some?
    ensures var e, d := TextDifference(f1, f2, opts, diff).value,
                        diff(Preprocess(f1.text.value, opts), Preprocess(f2.text.value, opts));
      && e.differenceType == ContentChanged
      && e.addedLines == CountWhere(d, StartsPlus)
      && e.removedLines == CountWhere(d, StartsMinus)
      && e.lineChanges == CountWhere(d, ChangedLine)
  {
    ChangedSplits(diff(Preprocess(f1.text.value, opts), Preprocess(f2.text.value, opts)));
  }

  /** Files whose preprocessed lines agree show no text difference. */
  lemma EqualLinesNoDifference(f1: FileData, f2: FileData, opts: Options, diff: Differ)
    requires QuietOnEqual(diff)
    requires f1.text.Some? && f2.text.Some?
    requires Preprocess(f1.text.value, opts) == Preprocess(f2.text.value, opts)
    ensures TextDifference(f1, f2, opts, diff) == None
  {
    var l := Preprocess(f1.text.value, opts);
    assert diff(l, l) == [];
  }

  /** With comments ignored, editing only comment lines shows no difference. */
  lemma CommentOnlyEditsIgnored(f1: FileData, f2: FileData, diff: Differ)
    requires QuietOnEqual(diff)
    requires f1.text.Some? && f2.text.Some?
    requires Filter(f1.text.value, l => !IsTrivialLine(l)) == Filter(f2.text.value, l => !IsTrivialLine(l))
    ensures TextDifference(f1, f2, Options(false, true), diff) == None
  {
    EqualLinesNoDifference(f1, f2, Options(false, true), diff);
  }

  method CompareTextFiles(f1: FileData, f2: FileData, opts: Options, diff: Differ) returns (r: Option<FileDifference>)
    ensures r == TextDifference(f1, f2, opts, diff)
  {
    if f1.text.None? || f2.text.None? {
      return Some(Unreadable(f1.name, "Could not compare text content", Minor));
    }
    var l1 := PreprocessLines(f1.text.value, opts);
    var l2 := PreprocessLines(f2.text.value, opts);
    var d := diff(l1, l2);
    if d == [] {
      return None;
    }
    r := Some(DiffEntry(f1.name, d, |l1|, |l2|));
  }

  /** `_files_identical_by_hash`, equal digests taken as equal bytes; a read failure means "not identical". */
  predicate IdenticalByHash(f1: FileData, f2: FileData)
  {
    f1.bytes.Some? && f2.bytes.Some? && f1.bytes.value == f2.bytes.value
  }

  /** `_compare_file_content`. */
  function ContentDifference(f1: FileData, f2: FileData, opts: Options, diff: Differ): Option<FileDifference>
  {
    if IdenticalByHash(f1, f2) then None
    else if IsTextFile(f1.name) && IsTextFile(f2.name) then TextDifference(f1, f2, opts, diff)
    else Some(Unreadable(f1.name, "Binary file changed", Major))
  }

  /** Byte-identical files never differ; a changed non-text file is a MAJOR content change. */
  lemma ContentDifferenceCases(f1: FileData, f2: FileData, opts: Options, diff: Differ)
    ensures IdenticalByHash(f1, f2) ==> ContentDifference(f1, f2, opts, diff) == None
    ensures !IdenticalByHash(f1, f2) && !(IsTextFile(f1.name) && IsTextFile(f2.name)) ==>
      ContentDifference(f1, f2, opts, diff) == Some(FileDifference(f1.name, ContentChanged, Major, 0, 0, 0, Some("Binary file changed")))
    ensures ContentDifference(f1, f2, opts, diff).Some? ==> ContentDifference(f1, f2, opts, diff).value.differenceType == ContentChanged
  {
  }

  method CompareFileContent(f1: FileData, f2: FileData, opts: Options, diff: Differ) returns (r: Option<FileDifference>)
    ensures r == ContentDifference(f1, f2, opts, diff)
  {
    if IdenticalByHash(f1, f2) {
      return None;
    }
    if IsTextFile(f1.name) && IsTextFile(f2.name) {
      r := CompareTextFiles(f1, f2, opts, diff);
    } else {
      r := Some(Unreadable(f1.name, "Binary file changed", Major));
    }
  }

  // ------------------------------------------------------------------ summary

  function TypeValues(ds: seq<FileDifference>): (r: seq<string>)
    ensures |r| == |ds|
  {
    seq(|ds|, i requires 0 <= i < |ds| => TypeValue(ds[i].differenceType))
  }

  function SignificanceValues(ds: seq<FileDifference>): (r: seq<string>)
    ensures |r| == |ds|
  {
    seq(|ds|, i requires 0 <= i < |ds| => SignificanceValue(ds[i].significance))
  }

  /** `_generate_summary`. */
  function Summary(ds: seq<FileDifference>): string
  {
    if ds == [] then "No differences found"
    else IntToString(|ds|) + " differences found; Types: " + CountsText(TypeValues(ds))
         + "; Significance: " + CountsText(SignificanceValues(ds))
  }

  method GenerateSummary(ds: seq<FileDifference>) returns (summary: string)
    ensures summary == Summary(ds)
  {
    if ds == [] {
      return "No differences found";
    }
    var types := TallyText(TypeValues(ds));
    var sigs := TallyText(SignificanceValues(ds));
    summary := IntToString(|ds|) + " differences found; Types: " + types + "; Significance: " + sigs;
  }

  /** The per-type and per-significance counts in the summary each add up to the number of differences. */
  lemma SummaryCountsTotal(ds: seq<FileDifference>)
    ensures SumCounts(TypeValues(ds), Dedup(TypeValues(ds))) == |ds|
    ensures SumCounts(SignificanceValues(ds), Dedup(SignificanceValues(ds))) == |ds|
  {
    TallyTotal(TypeValues(ds));
    TallyTotal(SignificanceValues(ds));
  }

  predicate IsSignificant(d: FileDifference)
  {
    d.significance != Trivial
  }

  /** `significant_differences`: the differences that are not TRIVIAL. */
  function SignificantCount(ds: seq<FileDifference>): (r: nat)
    ensures r <= |ds|
    ensures r == |Filter(ds, IsSignificant)|
  {
    CountWhereFilter(ds, IsSignificant);
    CountWhere(ds, IsSignificant)
  }

  // ------------------------------------------------------------- compare files

  /** `compare_files`; `exists1`, `exists2` say whether the two paths exist. */
  method CompareFiles(exists1: bool, exists2: bool, f1: FileData, f2: FileData, opts: Options, diff: Differ)
    returns (r: Result<DifferenceAnalysis>)
    ensures r.Err? <==> !exists1 || !exists2
    ensures r.Ok? ==>
      var a, c := r.value, ContentDifference(f1, f2, opts, diff);
      && a.differences == (if c.Some? then [c.value] else [])
      && a.totalDifferences == |a.differences| <= 1
      && a.significantDifferences == SignificantCount(a.differences)
      && a.filesCompared == 2 && a.filesAdded == 0 && a.filesRemoved == 0
      && (a.filesModified == 1 <==> a.differences != []) && a.filesModified <= 1
      && a.summary == Summary(a.differences)
  {
    if !exists1 {
      return Err("File does not exist: " + f1.name);
    }
    if !exists2 {
      return Err("File does not exist: " + f2.name);
    }
    var c := CompareFileContent(f1, f2, opts, diff);
    var ds := if c.Some? then [c.value] else [];
    var summary := GenerateSummary(ds);
    r := Ok(DifferenceAnalysis(|ds|, SignificantCount(ds), 2, 0, 0, if ds != [] then 1 else 0, ds, summary));
  }

  // ------------------------------------------------------- compare directories

  /** The counters and differences of the `compare_directories` loop. */
  datatype DirScan = DirScan(differences: seq<FileDifference>, added: nat, removed: nat, modified: nat)

  function RemovedEntry(p: string): FileDifference
  {
    FileDifference(p, Removed, Major, 0, 0, 0, Some("File removed"))
  }

  function AddedEntry(p: string): FileDifference
  {
    FileDifference(p, Added, Major, 0, 0, 0, Some("File added"))
  }

  /** What one relative path adds to the scan. */
  function PathStep(s: DirScan, p: string, files1: map<string, FileData>, files2: map<string, FileData>,
                    opts: Options, diff: Differ): DirScan
  {
    if p in files1 && p in files2 then
      match ContentDifference(files1[p], files2[p], opts, diff)
      case Some(d) => DirScan(s.differences + [d.(path := p)], s.added, s.removed, s.modified + 1)
      case None => s
    else if p in files1 then DirScan(s.differences + [RemovedEntry(p)], s.added, s.removed + 1, s.modified)
    else DirScan(s.differences + [AddedEntry(p)], s.added + 1, s.removed, s.modified)
  }

  function ScanPaths(paths: seq<string>, files1: map<string, FileData>, files2: map<string, FileData>,
                     opts: Options, diff: Differ): DirScan
  {
    if paths == [] then DirScan([], 0, 0, 0)
    else PathStep(ScanPaths(paths[..|paths| - 1], files1, files2, opts, diff), paths[|paths| - 1], files1, files2, opts, diff)
  }

  /** A path produces a difference unless it is in both trees with equal content. */
  predicate Reported(p: string, files1: map<string, FileData>, files2: map<string, FileData>, opts: Options, diff: Differ)
  {
    !(p in files1 && p in files2) || ContentDifference(files1[p], files2[p], opts, diff).Some?
  }

  function DiffPaths(ds: seq<FileDifference>): (r: seq<string>)
    ensures |r| == |ds|
  {
    seq(|ds|, i requires 0 <= i < |ds| => ds[i].path)
  }

  /**
   * The differences name, in order, exactly the reported paths, each with one difference:
   * the number of differences is the sum of the three counters.
   */
  lemma {:induction false} ScanPathsOrder(paths: seq<string>, files1: map<string, FileData>, files2: map<string, FileData>,
                                          opts: Options, diff: Differ)
    ensures var s := ScanPaths(paths, files1, files2, opts, diff);
      && |s.differences| == s.added + s.removed + s.modified
      && DiffPaths(s.differences) == Filter(paths, p => Reported(p, files1, files2, opts, diff))
  {
    if paths != [] {
      var init := paths[..|paths| - 1];
      var p := paths[|paths| - 1];
      ScanPathsOrder(init, files1, files2, opts, diff);
      var s := ScanPaths(init, files1, files2, opts, diff);
      var t := PathStep(s, p, files1, files2, opts, diff);
      if Reported(p, files1, files2, opts, diff) {
        assert |t.differences| == |s.differences| + 1 && t.differences[|s.differences|].path == p;
        assert t.differences[..|s.differences|] == s.differences;
        assert DiffPaths(t.differences) == DiffPaths(s.differences) + [p];
      } else {
        assert t == s;
      }
    }
  }

  predicate OnlyInFirst(p: string, files1: map<string, FileData>, files2: map<string, FileData>)
  {
    p in files1 && p !in files2
  }

  predicate OnlyInSecond(p: string, files1: map<string, FileData>, files2: map<string, FileData>)
  {
    p !in files1 && p in files2
  }

  predicate Modified(p: string, files1: map<string, FileData>, files2: map<string, FileData>, opts: Options, diff: Differ)
  {
    p in files1 && p in files2 && ContentDifference(files1[p], files2[p], opts, diff).Some?
  }

  /**
   * The counters: paths only in the first tree are counted as removed, paths only in the
   * second as added, and paths in both with a content change as modified.
   */
  lemma {:induction false} ScanPathsCounts(paths: seq<string>, files1: map<string, FileData>, files2: map<string, FileData>,
                                           opts: Options, diff: Differ)
    requires forall i :: 0 <= i < |paths| ==> paths[i] in files1 || paths[i] in files2
    ensures var s := ScanPaths(paths, files1, files2, opts, diff);
      && s.removed == CountWhere(paths, p => OnlyInFirst(p, files1, files2))
      && s.added == CountWhere(paths, p => OnlyInSecond(p, files1, files2))
      && s.modified == CountWhere(paths, p => Modified(p, files1, files2, opts, diff))
  {
    if paths != [] {
      var init := paths[..|paths| - 1];
      var p := paths[|paths| - 1];
      ScanPathsCounts(init, files1, files2, opts, diff);
      var s := ScanPaths(init, files1, files2, opts, diff);
      var t := PathStep(s, p, files1, files2, opts, diff);
      if p in files1 && p in files2 {
        assert !OnlyInFirst(p, files1, files2) && !OnlyInSecond(p, files1, files2);
        assert t.added == s.added && t.removed == s.removed;
        assert t.modified == s.modified + (if Modified(p, files1, files2, opts, diff) then 1 else 0);
      } else if p in files1 {
        assert OnlyInFirst(p, files1, files2) && !OnlyInSecond(p, files1, files2) && !Modified(p, files1, files2, opts, diff);
        assert t == DirScan(s.differences + [RemovedEntry(p)], s.added, s.removed + 1, s.modified);
      } else {
        assert !OnlyInFirst(p, files1, files2) && !Modified(p, files1, files2, opts, diff);
        assert OnlyInSecond(p, files1, files2);
        assert t == DirScan(s.differences + [AddedEntry(p)], s.added + 1, s.removed, s.modified);
      }
    }
  }

  /** How one difference of a directory comparison relates to the two trees. */
  predicate WellKinded(d: FileDifference, files1: map<string, FileData>, files2: map<string, FileData>)
  {
    || (d.differenceType == Removed && d.significance == Major && d.path in files1 && d.path !in files2)
    || (d.differenceType == Added && d.significance == Major && d.path !in files1 && d.path in files2)
    || (d.differenceType == ContentChanged && d.path in files1 && d.path in files2)
  }

  predicate AllWellKinded(ds: seq<FileDifference>, files1: map<string, FileData>, files2: map<string, FileData>)
  {
    forall k :: 0 <= k < |ds| ==> WellKinded(ds[k], files1, files2)
  }

  /** Each difference is REMOVED or ADDED (both MAJOR) or a content change of a path in both trees. */
  lemma {:induction false} ScanPathsKinds(paths: seq<string>, files1: map<string, FileData>, files2: map<string, FileData>,
                                          opts: Options, diff: Differ)
    requires forall i :: 0 <= i < |paths| ==> paths[i] in files1 || paths[i] in files2
    ensures AllWellKinded(ScanPaths(paths, files1, files2, opts, diff).differences, files1, files2)
  {
    if paths != [] {
      var p := paths[|paths| - 1];
      ScanPathsKinds(paths[..|paths| - 1], files1, files2, opts, diff);
      var s := ScanPaths(paths[..|paths| - 1], files1, files2, opts, diff);
      var t := PathStep(s, p, files1, files2, opts, diff);
      assert ScanPaths(paths, files1, files2, opts, diff) == t;
      if p in files1 && p in files2 {
        ContentDifferenceCases(files1[p], files2[p], opts, diff);
        match ContentDifference(files1[p], files2[p], opts, diff)
        case Some(d) =>
          assert WellKinded(d.(path := p), files1, files2);
          assert t.differences == s.differences + [d.(path := p)];
        case None =>
      } else if p in files1 {
        assert WellKinded(RemovedEntry(p), files1, files2);
        assert t.differences == s.differences + [RemovedEntry(p)];
      } else {
        assert p in files2;
        assert WellKinded(AddedEntry(p), files1, files2);
        assert t.differences == s.differences + [AddedEntry(p)];
      }
      forall k | 0 <= k < |t.differences| ensures WellKinded(t.differences[k], files1, files2) {
        if k < |s.differences| {
          assert t.differences[k] == s.differences[k];
        }
      }
    }
  }


  lemma ScanPathsStep(paths: seq<string>, files1: map<string, FileData>, files2: map<string, FileData>,
                      opts: Options, diff: Differ, i: int)
    requires 0 <= i < |paths|
    ensures ScanPaths(paths[..i + 1], files1, files2, opts, diff)
            == PathStep(ScanPaths(paths[..i], files1, files2, opts, diff), paths[i], files1, files2, opts, diff)
  {
    assert paths[..i + 1][..i] == paths[..i];
  }

  /** One iteration of the `compare_directories` loop. */
  method VisitPath(s: DirScan, p: string, files1: map<string, FileData>, files2: map<string, FileData>,
                   opts: Options, diff: Differ) returns (t: DirScan)
    ensures t == PathStep(s, p, files1, files2, opts, diff)
  {
    t := s;
    if p in files1 && p in files2 {
      var d := CompareFileContent(files1[p], files2[p], opts, diff);
      if d.Some? {
        t := DirScan(s.differences + [d.value.(path := p)], s.added, s.removed, s.modified + 1);
      }
    } else if p in files1 {
      t := DirScan(s.differences + [RemovedEntry(p)], s.added, s.removed + 1, s.modified);
    } else {
      t := DirScan(s.differences + [AddedEntry(p)], s.added + 1, s.removed, s.modified);
    }
  }

  /** Python's `x < y` on strings: code point by code point, a proper prefix first. */
  predicate TextBefore(x: string, y: string)
  {
    if x == [] then y != []
    else if y == [] then false
    else if x[0] == y[0] then TextBefore(x[1..], y[1..])
    else x[0] < y[0]
  }

  /** Python's `<` on lists of strings: element by element, a proper prefix first. */
  predicate PartsBefore(a: seq<string>, b: seq<string>)
  {
    if a == [] then b != []
    else if b == [] then false
    else if a[0] == b[0] then PartsBefore(a[1..], b[1..])
    else TextBefore(a[0], b[0])
  }

  /** The order `sorted` gives relative POSIX paths: their `/`-separated parts compared as lists. */
  predicate PathsSorted(paths: seq<string>)
  {
    forall i, j :: 0 <= i < j < |paths| ==> PartsBefore(SplitOn(paths[i], '/'), SplitOn(paths[j], '/'))
  }

  /**
   * `compare_directories`. The walk of each tree is given as a map from relative path to file,
   * and `paths` is `sorted(all_rel_paths)`: the union of the two key sets, each path once, in
   * the order of their parts. `dir1` and `dir2` are the paths as the caller wrote them.
   */
  method CompareDirectories(dir1: string, dir2: string, exists1: bool, isDir1: bool, exists2: bool, isDir2: bool,
                            files1: map<string, FileData>, files2: map<string, FileData>,
                            paths: seq<string>, opts: Options, diff: Differ)
    returns (r: Result<DifferenceAnalysis>)
    requires Distinct(paths) && PathsSorted(paths)
    requires forall p :: p in paths <==> p in files1 || p in files2
    ensures r.Err? <==> !exists1 || !exists2 || !isDir1 || !isDir2
    ensures !exists1 ==> r == Err("Directory does not exist: " + dir1)
    ensures exists1 && !exists2 ==> r == Err("Directory does not exist: " + dir2)
    ensures exists1 && exists2 && !isDir1 ==> r == Err("Path is not a directory: " + dir1)
    ensures exists1 && exists2 && isDir1 && !isDir2 ==> r == Err("Path is not a directory: " + dir2)
    ensures r.Ok? ==>
      var a, s := r.value, ScanPaths(paths, files1, files2, opts, diff);
      && a.differences == s.differences
      && a.filesAdded == s.added && a.filesRemoved == s.removed && a.filesModified == s.modified
      && a.filesCompared == |paths|
      && a.totalDifferences == |a.differences|
      && a.significantDifferences == SignificantCount(a.differences)
      && a.summary == Summary(a.differences)
  {
    if !exists1 {
      return Err("Directory does not exist: " + dir1);
    }
    if !exists2 {
      return Err("Directory does not exist: " + dir2);
    }
    if !isDir1 {
      return Err("Path is not a directory: " + dir1);
    }
    if !isDir2 {
      return Err("Path is not a directory: " + dir2);
    }
    var s := DirScan([], 0, 0, 0);
    for i := 0 to |paths|
      invariant s == ScanPaths(paths[..i], files1, files2, opts, diff)
    {
      ScanPathsStep(paths, files1, files2, opts, diff, i);
      s := VisitPath(s, paths[i], files1, files2, opts, diff);
    }
    assert paths[..|paths|] == paths;
    var summary := GenerateSummary(s.differences);
    r := Ok(DifferenceAnalysis(|s.differences|, SignificantCount(s.differences), |paths|,
                               s.added, s.removed, s.modified, s.differences, summary));
  }

  /** The totals of a directory comparison: every difference is an addition, a removal or a modification. */
  lemma DirectoryTotals(paths: seq<string>, files1: map<string, FileData>, files2: map<string, FileData>,
                        opts: Options, diff: Differ)
    requires Distinct(paths)
    ensures var s := ScanPaths(paths, files1, files2, opts, diff);
      && |s.differences| == s.added + s.removed + s.modified
      && SignificantCount(s.differences) <= |s.differences|
      && |s.differences| <= |paths|
      && Distinct(DiffPaths(s.differences))
  {
    ScanPathsOrder(paths, files1, files2, opts, diff);
    FilterDistinct(paths, p => Reported(p, files1, files2, opts, diff));
  }
}
