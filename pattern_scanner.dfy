/**
 * The library pattern scanner: given a file and a line, it classifies the line's pattern,
 * scores every line of every matching file under a directory against it, and reports the
 * near matches, highest confidence first, with their count as the exit code.
 *
 * As written, the scorer reads the target's "content" key, which the extractor never sets;
 * the KeyError it raises on the first scored line of a file is swallowed by the file scan, so
 * no file ever yields a match (`NoMatchesAsWritten`).
 */
module PatternScanner {
  import opened Common

  // ---------------------------------------------------------------- pattern types

  datatype PatternType =
    | MkifHomePackages
    | MkifListConcat
    | HomebrewList
    | ShellScriptBin
    | HomeFileConfig
    | Generic

  /** The enum member's `value`. */
  function TypeValue(t: PatternType): string
  {
    match t
    case MkifHomePackages => "mkIf_home_packages"
    case MkifListConcat => "mkIf_list_concat"
    case HomebrewList => "homebrew_list"
    case ShellScriptBin => "shell_script_bin"
    case HomeFileConfig => "home_file_config"
    case Generic => "generic"
  }

  /** `PatternType(value)`: the member with that value, or the `ValueError` for any other string. */
  function TypeOfValue(s: string): (r: Option<PatternType>)
    ensures r.Some? ==> TypeValue(r.value) == s
  {
    if s == "mkIf_home_packages" then Some(MkifHomePackages)
    else if s == "mkIf_list_concat" then Some(MkifListConcat)
    else if s == "homebrew_list" then Some(HomebrewList)
    else if s == "shell_script_bin" then Some(ShellScriptBin)
    else if s == "home_file_config" then Some(HomeFileConfig)
    else if s == "generic" then Some(Generic)
    else None
  }

  /** Every member is found again from its value, so the lookup fails exactly on unknown strings. */
  lemma TypeValueRoundTrip(t: PatternType, s: string)
    ensures TypeOfValue(TypeValue(t)) == Some(t)
    ensures TypeOfValue(s).None? <==> forall u: PatternType :: TypeValue(u) != s
  {
    if TypeOfValue(s).None? {
      forall u: PatternType
        ensures TypeValue(u) != s
      {
        match u
        case MkifHomePackages =>
        case MkifListConcat =>
        case HomebrewList =>
        case ShellScriptBin =>
        case HomeFileConfig =>
        case Generic =>
      }
    }
  }

  /** The test `_detect_pattern_type` applies for each type; GENERIC is the fall-through. */
  predicate Signature(t: PatternType, line: string)
  {
    match t
    case MkifHomePackages => Contains(line, "home.packages") && Contains(line, "mkIf")
    case MkifListConcat => Contains(line, "mkIf") && Contains(line, "++")
    case HomebrewList => Contains(line, "casks = [") || Contains(line, "brews = [")
    case ShellScriptBin => Contains(line, "writeShellScriptBin")
    case HomeFileConfig => Contains(line, "home.file.")
    case Generic => true
  }

  /** The order in which the tests are tried. */
  function Priority(t: PatternType): nat
  {
    match t
    case MkifHomePackages => 0
    case MkifListConcat => 1
    case HomebrewList => 2
    case ShellScriptBin => 3
    case HomeFileConfig => 4
    case Generic => 5
  }

  /** `_detect_pattern_type`: the if/elif chain over the line's substrings. */
  function DetectPatternType(line: string): PatternType
  {
    if Contains(line, "home.packages") && Contains(line, "mkIf") then MkifHomePackages
    else if Contains(line, "mkIf") && Contains(line, "++") then MkifListConcat
    else if Contains(line, "casks = [") || Contains(line, "brews = [") then HomebrewList
    else if Contains(line, "writeShellScriptBin") then ShellScriptBin
    else if Contains(line, "home.file.") then HomeFileConfig
    else Generic
  }

  /** The detected type is the first type, in test order, whose signature the line carries. */
  lemma DetectFirstMatch(line: string)
    ensures Signature(DetectPatternType(line), line)
    ensures forall u :: Priority(u) < Priority(DetectPatternType(line)) ==> !Signature(u, line)
  {
  }

  // ---------------------------------------------------------------- context and tokens

  /** `_get_context`: the stripped lines from `i - k` to `i + k`, clipped to the file. */
  function Context(lines: seq<string>, i: int, k: nat): (r: seq<string>)
  {
    var start := Max(0, i - k);
    var end := Min(|lines|, i + k + 1);
    if start >= end then [] else StripAll(lines[start..end])
  }

  /** `[line.strip() for line in xs]`. */
  function StripAll(xs: seq<string>): seq<string>
  {
    if xs == [] then [] else [Strip(xs[0])] + StripAll(xs[1..])
  }

  /** Each line is stripped in place. */
  lemma {:induction false} StripAllSpec(xs: seq<string>)
    ensures |StripAll(xs)| == |xs|
    ensures forall j :: 0 <= j < |xs| ==> StripAll(xs)[j] == Strip(xs[j])
  {
    if xs != [] {
      StripAllSpec(xs[1..]);
    }
  }

  /**
   * The window holds at most `2k + 1` lines, each the stripped line at the matching offset
   * from `max(0, i - k)`; for a line inside the file it holds every line within `k` of it.
   */
  lemma ContextWindow(lines: seq<string>, i: int, k: nat)
    ensures var r := Context(lines, i, k);
      && |r| <= 2 * k + 1
      && |r| == Max(0, Min(|lines|, i + k + 1) - Max(0, i - k))
      && (forall j :: 0 <= j < |r| ==> r[j] == Strip(lines[Max(0, i - k) + j]))
    ensures 0 <= i < |lines| ==> forall q :: 0 <= q < |lines| && i - k <= q <= i + k ==>
      Strip(lines[q]) == Context(lines, i, k)[q - Max(0, i - k)]
  {
    var start, end := Max(0, i - k), Min(|lines|, i + k + 1);
    if start < end {
      StripAllSpec(lines[start..end]);
    }
  }

  /** The non-empty maximal runs of characters that are not delimiters. */
  function SplitRuns(s: string, delim: char -> bool): seq<string>
    decreases |s|
  {
    if s == [] then []
    else if delim(s[0]) then SplitRuns(s[1..], delim)
    else
      var e := RunEnd(s, 0, c => !delim(c));
      [s[..e]] + SplitRuns(s[e..], delim)
  }

  /** No run is empty or holds a delimiter; a delimiter-free non-empty string is its only run. */
  lemma {:induction false} SplitRunsSpec(s: string, delim: char -> bool)
    ensures forall k :: 0 <= k < |SplitRuns(s, delim)| ==> SplitRuns(s, delim)[k] != []
    ensures forall k, q :: 0 <= k < |SplitRuns(s, delim)| && 0 <= q < |SplitRuns(s, delim)[k]| ==>
      !delim(SplitRuns(s, delim)[k][q])
    ensures s != [] && (forall q :: 0 <= q < |s| ==> !delim(s[q])) ==> SplitRuns(s, delim) == [s]
    decreases |s|
  {
    if s != [] {
      if delim(s[0]) {
        SplitRunsSpec(s[1..], delim);
      } else {
        var e := RunEnd(s, 0, c => !delim(c));
        SplitRunsSpec(s[e..], delim);
        assert forall q :: 0 <= q < e ==> s[..e][q] == s[q];
        if forall q :: 0 <= q < |s| ==> !delim(s[q]) {
          assert e == |s|;
          assert s[..e] == s && s[e..] == [];
        }
      }
    }
  }

  /** Python's `str.split()`: the whitespace-separated words. */
  function Words(s: string): seq<string>
  {
    SplitRuns(s, IsSpace)
  }

  /** `[\s\[\]{}(),;=]`. */
  predicate IsTokenDelim(c: char)
  {
    IsSpace(c) || c in "[]{}(),;="
  }

  /** `_tokenize_line`: `re.split` on runs of delimiters, empty pieces dropped. */
  function Tokens(line: string): seq<string>
  {
    SplitRuns(Strip(line), IsTokenDelim)
  }

  /** Tokens are never empty and never hold a delimiter. */
  lemma TokensSpec(line: string)
    ensures forall k :: 0 <= k < |Tokens(line)| ==> Tokens(line)[k] != []
    ensures forall k, q :: 0 <= k < |Tokens(line)| && 0 <= q < |Tokens(line)[k]| ==>
      !IsTokenDelim(Tokens(line)[k][q])
  {
    SplitRunsSpec(Strip(line), IsTokenDelim);
  }

  // ---------------------------------------------------------------- similarity

  /** The distinct words of a line, `set(line.split())`. */
  function WordSet(s: string): set<string>
  {
    set w | w in Words(s)
  }

  /** Intersection over union, 0 when either set is empty. */
  function Jaccard(a: set<string>, b: set<string>): real
  {
    if a == {} || b == {} then 0.0 else (|a * b| as real) / (|a + b| as real)
  }

  lemma {:induction false} SubsetCard(a: set<string>, b: set<string>)
    requires a <= b
    ensures |a| <= |b|
    ensures |a| == |b| ==> a == b
    decreases |a|
  {
    if a != {} {
      var x :| x in a;
      SubsetCard(a - {x}, b - {x});
      assert a == (a - {x}) + {x} && b == (b - {x}) + {x};
    } else if |b| == 0 {
      assert b == {};
    }
  }

  /** The score is symmetric, lies in [0, 1], and is 1 exactly for equal non-empty sets. */
  lemma JaccardSpec(a: set<string>, b: set<string>)
    ensures Jaccard(a, b) == Jaccard(b, a)
    ensures 0.0 <= Jaccard(a, b) <= 1.0
    ensures a == {} || b == {} ==> Jaccard(a, b) == 0.0
    ensures Jaccard(a, b) == 1.0 <==> a == b && a != {}
  {
    assert a * b == b * a && a + b == b + a;
    if a != {} && b != {} {
      SubsetCard(a * b, a + b);
      var i, u := |a * b| as real, |a + b| as real;
      assert u > 0.0;
      assert i <= u;
      assert i / u <= 1.0;
      if i / u == 1.0 {
        assert i == u;
        assert a * b == a + b;
        assert a == b by {
          forall x | x in a ensures x in b { assert x in a + b; }
          forall x | x in b ensures x in a { assert x in a + b; }
        }
      }
      if a == b {
        assert a * b == a && a + b == a;
      }
    }
  }

  /** `_generic_similarity`: the Jaccard score of the two lines' word sets. */
  function GenericSimilarity(target: string, current: string): real
  {
    Jaccard(WordSet(target), WordSet(current))
  }

  /** `_match_mkif_list_concat`: 0.9 when both lines hold `mkIf` and `++`. */
  function MatchMkifListConcat(target: string, line: string): (r: real)
    ensures r == 0.0 || r == 0.9
    ensures r == 0.9 <==> Contains(target, "mkIf") && Contains(target, "++") && Contains(line, "mkIf") && Contains(line, "++")
  {
    if Contains(target, "mkIf") && Contains(line, "mkIf") && Contains(target, "++") && Contains(line, "++") then 0.9
    else 0.0
  }

  /** `_match_homebrew_list`: 0.85 when both lines name `casks` or `brews`. */
  function MatchHomebrewList(target: string, line: string): (r: real)
    ensures r == 0.0 || r == 0.85
    ensures r == 0.85 <==> (Contains(target, "casks") || Contains(target, "brews")) && (Contains(line, "casks") || Contains(line, "brews"))
  {
    if (Contains(target, "casks") || Contains(target, "brews")) && (Contains(line, "casks") || Contains(line, "brews")) then 0.85
    else 0.0
  }

  /** Both fixed-score matchers treat the target line and the candidate line alike. */
  lemma MatchersSymmetric(a: string, b: string)
    ensures MatchMkifListConcat(a, b) == MatchMkifListConcat(b, a)
    ensures MatchHomebrewList(a, b) == MatchHomebrewList(b, a)
  {
  }

  /** The dictionary `_extract_pattern` builds: `line_content`, `pattern_type` and `context_lines`. */
  datatype TargetPattern = TargetPattern(lineContent: string, patternType: PatternType, contextLines: seq<string>)

  /**
   * `_calculate_similarity` as written: a blank line scores 0; any other line reaches
   * `target_pattern["content"]`, a key the target dictionary never has, and raises.
   */
  function CalculateSimilarity(t: TargetPattern, line: string): (r: Result<real>)
    ensures r.Ok? <==> IsBlank(line)
    ensures r.Ok? ==> r.value == 0.0
  {
    if IsBlank(line) then Ok(0.0) else Err("KeyError: 'content'")
  }

  // ---------------------------------------------------------------- scanning files

  datatype PatternMatch = PatternMatch(
    file: string,
    line: int,
    confidence: real,
    patternType: PatternType,
    content: string,
    context: Option<seq<string>>)

  function Confidence(m: PatternMatch): real
  {
    m.confidence
  }

  /** A directory entry as `rglob` yields it: its path, whether it is a file, and what reading it gives. */
  datatype SourceFile = SourceFile(path: string, isFile: bool, lines: Result<seq<string>>)

  /** `rglob(f"*{ext}")` yields the entries whose name ends with `ext`. */
  predicate Globbed(f: SourceFile, ext: string)
  {
    EndsWith(FileName(f.path), ext)
  }

  /** A stripped line the file scan skips: empty, or a `#` comment. */
  predicate Skipped(l: string)
  {
    l == [] || StartsWith(l, "#")
  }

  /** The scorer `_scan_file_for_patterns` calls: a score, or the exception it raises. */
  type Scorer = (TargetPattern, string) -> Result<real>

  /**
   * The matches `_scan_file_for_patterns` collects from line `i` on with scorer `score`; a raised
   * exception ends the scan, keeping what was collected before it.
   */
  function ScanFrom(path: string, lines: seq<string>, t: TargetPattern, score: Scorer, i: nat): seq<PatternMatch>
    requires i <= |lines|
    decreases |lines| - i
  {
    if i == |lines| then []
    else
      var l := Strip(lines[i]);
      if Skipped(l) then ScanFrom(path, lines, t, score, i + 1)
      else match score(t, l)
        case Err(_) => []
        case Ok(sim) => LineMatch(path, lines, t, i, sim) + ScanFrom(path, lines, t, score, i + 1)
  }

  /** The match line `i` contributes when it scores `sim`: one above the 0.7 threshold, with two lines of context. */
  function LineMatch(path: string, lines: seq<string>, t: TargetPattern, i: nat, sim: real): seq<PatternMatch>
    requires i < |lines|
  {
    if sim > 0.7
    then [PatternMatch(path, i + 1, Round2(sim), t.patternType, Strip(lines[i]), Some(Context(lines, i, 2)))]
    else []
  }

  lemma ScanFromOk(path: string, lines: seq<string>, t: TargetPattern, score: Scorer, i: nat)
    requires i < |lines| && !Skipped(Strip(lines[i])) && score(t, Strip(lines[i])).Ok?
    ensures ScanFrom(path, lines, t, score, i)
      == LineMatch(path, lines, t, i, score(t, Strip(lines[i])).value) + ScanFrom(path, lines, t, score, i + 1)
  {
  }

  /** What scanning one entry with scorer `score` yields: nothing when it cannot be read. */
  function FileScan(f: SourceFile, t: TargetPattern, score: Scorer): seq<PatternMatch>
  {
    match f.lines
    case Err(_) => []
    case Ok(lines) => ScanFrom(f.path, lines, t, score, 0)
  }

  /** What the library's scan of one entry yields. */
  function FileMatches(f: SourceFile, t: TargetPattern): seq<PatternMatch>
  {
    FileScan(f, t, CalculateSimilarity)
  }

  /** `_scan_file_for_patterns`: the loop over the lines, inside the handler that swallows every exception. */
  method ScanFile(f: SourceFile, t: TargetPattern, score: Scorer) returns (ms: seq<PatternMatch>)
    ensures ms == FileScan(f, t, score)
  {
    ms := [];
    if f.lines.Err? {
      return;
    }
    var lines := f.lines.value;
    var i := 0;
    ghost var all := ScanFrom(f.path, lines, t, score, 0);
    while i < |lines|
      invariant 0 <= i <= |lines|
      invariant ms + ScanFrom(f.path, lines, t, score, i) == all
    {
      var l := Strip(lines[i]);
      if !Skipped(l) {
        var sim := score(t, l);
        if sim.Err? {
          assert ScanFrom(f.path, lines, t, score, i) == [];
          return;
        }
        ScanFromOk(f.path, lines, t, score, i);
        ms := ms + LineMatch(f.path, lines, t, i, sim.value);
      }
      i := i + 1;
    }
  }

  /** The first line the scan scores raises, so a file never yields a match. */
  lemma {:induction false} ScanFromEmpty(path: string, lines: seq<string>, t: TargetPattern, i: nat)
    requires i <= |lines|
    ensures ScanFrom(path, lines, t, CalculateSimilarity, i) == []
    decreases |lines| - i
  {
    if i < |lines| {
      var l := Strip(lines[i]);
      if Skipped(l) {
        ScanFromEmpty(path, lines, t, i + 1);
      } else {
        assert !IsSpace(l[0]);
      }
    }
  }

  /** The matches of every globbed entry, in walk order, for one extension. */
  function ExtMatches(ext: string, files: seq<SourceFile>, t: TargetPattern): seq<PatternMatch>
  {
    if files == [] then []
    else
      var f := files[|files| - 1];
      ExtMatches(ext, files[..|files| - 1], t) + (if Globbed(f, ext) then FileMatches(f, t) else [])
  }

  lemma ExtMatchesStep(ext: string, files: seq<SourceFile>, t: TargetPattern, j: int)
    requires 0 <= j < |files|
    ensures ExtMatches(ext, files[..j + 1], t)
      == ExtMatches(ext, files[..j], t) + (if Globbed(files[j], ext) then FileMatches(files[j], t) else [])
  {
    assert files[..j + 1][..j] == files[..j];
  }

  /** The matches of every extension in turn, before sorting. */
  function Collected(exts: seq<string>, files: seq<SourceFile>, t: TargetPattern): seq<PatternMatch>
  {
    if exts == [] then []
    else Collected(exts[..|exts| - 1], files, t) + ExtMatches(exts[|exts| - 1], files, t)
  }

  /** The inner loop of `_find_similar_patterns`: every entry `rglob` yields for one extension. */
  method ScanExtension(ext: string, files: seq<SourceFile>, t: TargetPattern) returns (ms: seq<PatternMatch>)
    ensures ms == ExtMatches(ext, files, t)
  {
    ms := [];
    for j := 0 to |files|
      invariant ms == ExtMatches(ext, files[..j], t)
    {
      ExtMatchesStep(ext, files, t, j);
      if Globbed(files[j], ext) {
        var found := ScanFile(files[j], t, CalculateSimilarity);
        ms := ms + found;
      }
    }
    assert files[..|files|] == files;
  }

  /** `_find_similar_patterns`: extend over extensions and globbed entries, then sort by confidence. */
  method FindSimilarPatterns(exts: seq<string>, files: seq<SourceFile>, t: TargetPattern) returns (ms: seq<PatternMatch>)
    ensures ms == SortDesc(Collected(exts, files, t), Confidence)
  {
    var all: seq<PatternMatch> := [];
    for e := 0 to |exts|
      invariant all == Collected(exts[..e], files, t)
    {
      assert exts[..e + 1][..e] == exts[..e];
      var found := ScanExtension(exts[e], files, t);
      all := all + found;
    }
    assert exts[..|exts|] == exts;
    ms := SortDesc(all, Confidence);
  }

  lemma {:induction false} ExtMatchesEmpty(ext: string, files: seq<SourceFile>, t: TargetPattern)
    ensures ExtMatches(ext, files, t) == []
  {
    if files != [] {
      ExtMatchesEmpty(ext, files[..|files| - 1], t);
      var f := files[|files| - 1];
      if f.lines.Ok? {
        ScanFromEmpty(f.path, f.lines.value, t, 0);
      }
    }
  }

  /** No file under any extension contributes a match. */
  lemma {:induction false} NoMatchesAsWritten(exts: seq<string>, files: seq<SourceFile>, t: TargetPattern)
    ensures Collected(exts, files, t) == []
  {
    if exts != [] {
      NoMatchesAsWritten(exts[..|exts| - 1], files, t);
      ExtMatchesEmpty(exts[|exts| - 1], files, t);
    }
  }

  // ---------------------------------------------------------------- the scan

  /** `_extract_pattern`: the target line, stripped, with its type and three lines of context each side. */
  function ExtractPattern(read: Result<seq<string>>, lineNumber: int): (r: Option<TargetPattern>)
    ensures r.Some? <==> read.Ok? && 1 <= lineNumber <= |read.value|
    ensures r.Some? ==>
      && r.value.lineContent == Strip(read.value[lineNumber - 1])
      && r.value.patternType == DetectPatternType(r.value.lineContent)
      && r.value.contextLines == Context(read.value, lineNumber - 1, 3)
  {
    match read
    case Err(_) => None
    case Ok(lines) =>
      if lineNumber > |lines| || lineNumber < 1 then None
      else
        var l := Strip(lines[lineNumber - 1]);
        Some(TargetPattern(l, DetectPatternType(l), Context(lines, lineNumber - 1, 3)))
  }

  datatype PatternScanResult = PatternScanResult(
    targetFile: string,
    targetLine: int,
    patternType: PatternType,
    matches: seq<PatternMatch>,
    count: int)

  /** `file_extensions or [".nix"]`. */
  function Extensions(given: Option<seq<string>>): (r: seq<string>)
    ensures r != []
  {
    if given.None? || given.value == [] then [".nix"] else given.value
  }

  /** The target with its type replaced by the caller's, when one is given. */
  function Overridden(t: TargetPattern, patternType: Option<PatternType>): TargetPattern
  {
    if patternType.Some? then t.(patternType := patternType.value) else t
  }

  /** The sorted matches without the target's own location (`samefile` and the same line), cut to `max_results`. */
  function Kept(found: seq<PatternMatch>, sameFile: string -> bool, targetLine: int, maxResults: int): seq<PatternMatch>
  {
    Take(Filter(found, NotTarget(sameFile, targetLine)), maxResults)
  }

  /** The filter's test: not `samefile` with the target and on the target line. */
  function NotTarget(sameFile: string -> bool, targetLine: int): PatternMatch -> bool
  {
    (m: PatternMatch) => !(sameFile(m.file) && m.line == targetLine)
  }

  /** `scan_for_similar_patterns`; `sameFile` tells which paths `samefile` finds equal to the target's. */
  function ScanResult(
    targetFile: string, read: Result<seq<string>>, targetLine: int, patternType: Option<PatternType>,
    exts: seq<string>, files: seq<SourceFile>, sameFile: string -> bool, maxResults: int): PatternScanResult
  {
    match ExtractPattern(read, targetLine)
    case None => PatternScanResult(targetFile, targetLine, Generic, [], 0)
    case Some(t0) =>
      var t := Overridden(t0, patternType);
      var kept := Kept(SortDesc(Collected(exts, files, t), Confidence), sameFile, targetLine, maxResults);
      PatternScanResult(targetFile, targetLine, t.patternType, kept, |kept|)
  }

  method ScanForSimilarPatterns(
    targetFile: string, read: Result<seq<string>>, targetLine: int, patternType: Option<PatternType>,
    exts: seq<string>, files: seq<SourceFile>, sameFile: string -> bool, maxResults: int)
    returns (r: PatternScanResult)
    ensures r == ScanResult(targetFile, read, targetLine, patternType, exts, files, sameFile, maxResults)
  {
    var target := ExtractPattern(read, targetLine);
    if target.None? {
      return PatternScanResult(targetFile, targetLine, Generic, [], 0);
    }
    var t := Overridden(target.value, patternType);
    var matches := FindSimilarPatterns(exts, files, t);
    matches := Kept(matches, sameFile, targetLine, maxResults);
    r := PatternScanResult(targetFile, targetLine, t.patternType, matches, |matches|);
  }

  /**
   * The reported matches are ordered by confidence, never include the target location, number
   * at most a non-negative `max_results`, and `count` is their number; a missing target line
   * gives an empty GENERIC result, and otherwise the type is the caller's or the detected one.
   */
  lemma ScanResultSpec(
    targetFile: string, read: Result<seq<string>>, targetLine: int, patternType: Option<PatternType>,
    exts: seq<string>, files: seq<SourceFile>, sameFile: string -> bool, maxResults: int)
    ensures var r := ScanResult(targetFile, read, targetLine, patternType, exts, files, sameFile, maxResults);
      && r.count == |r.matches|
      && (maxResults >= 0 ==> r.count <= maxResults)
      && SortedDesc(r.matches, Confidence)
      && (forall k :: 0 <= k < |r.matches| ==> !(sameFile(r.matches[k].file) && r.matches[k].line == targetLine))
      && (ExtractPattern(read, targetLine).None? ==> r.patternType == Generic && r.count == 0)
      && (ExtractPattern(read, targetLine).Some? ==>
            r.patternType == (if patternType.Some? then patternType.value
                              else DetectPatternType(Strip(read.value[targetLine - 1]))))
  {
    match ExtractPattern(read, targetLine)
    case None =>
    case Some(t0) =>
      var t := Overridden(t0, patternType);
      var found := SortDesc(Collected(exts, files, t), Confidence);
      var p := NotTarget(sameFile, targetLine);
      SortDescSpec(Collected(exts, files, t), Confidence);
      FilterSorted(found, p, Confidence);
      FilterSpec(found, p);
      var kept := Kept(found, sameFile, targetLine, maxResults);
      assert kept == Take(Filter(found, p), maxResults);
      forall k | 0 <= k < |kept|
        ensures !(sameFile(kept[k].file) && kept[k].line == targetLine)
      {
        assert kept[k] == Filter(found, p)[k];
      }
  }

  /** As written, every scan reports no matches, whatever the files hold. */
  lemma ScanFindsNothing(
    targetFile: string, read: Result<seq<string>>, targetLine: int, patternType: Option<PatternType>,
    exts: seq<string>, files: seq<SourceFile>, sameFile: string -> bool, maxResults: int)
    ensures var r := ScanResult(targetFile, read, targetLine, patternType, exts, files, sameFile, maxResults);
      r.matches == [] && r.count == 0
  {
    match ExtractPattern(read, targetLine)
    case None =>
    case Some(t0) =>
      NoMatchesAsWritten(exts, files, Overridden(t0, patternType));
  }

  // ---------------------------------------------------------------- the exit code

  /** `if pattern_type: PatternType(pattern_type)`: no override for a missing or empty string, an error for an unknown one. */
  function ParseOverride(patternType: Option<string>): Result<Option<PatternType>>
  {
    if patternType.None? || patternType.value == [] then Ok(None)
    else match TypeOfValue(patternType.value)
      case None => Err("Invalid pattern type: " + patternType.value)
      case Some(t) => Ok(Some(t))
  }

  /**
   * `scan_patterns_with_exit_code` with the default scanner: 255 for a missing target file, a
   * line below 1 or an unknown pattern type, otherwise the match count capped at 254.
   */
  function ScanExitCode(
    targetFile: string, targetExists: bool, read: Result<seq<string>>, targetLine: int,
    patternType: Option<string>, files: seq<SourceFile>, sameFile: string -> bool, maxResults: int): nat
  {
    if !targetExists || targetLine < 1 then 255
    else match ParseOverride(patternType)
      case Err(_) => 255
      case Ok(o) => Min(ScanResult(targetFile, read, targetLine, o, Extensions(None), files, sameFile, maxResults).count, 254)
  }

  /** 255 reports exactly the three input errors; any other code is the count, at most 254. */
  lemma ScanExitCodeSpec(
    targetFile: string, targetExists: bool, read: Result<seq<string>>, targetLine: int,
    patternType: Option<string>, files: seq<SourceFile>, sameFile: string -> bool, maxResults: int)
    ensures var code := ScanExitCode(targetFile, targetExists, read, targetLine, patternType, files, sameFile, maxResults);
      && code <= 255
      && (code == 255 <==> !targetExists || targetLine < 1 || ParseOverride(patternType).Err?)
      && (code < 255 ==> code == Min(ScanResult(targetFile, read, targetLine, ParseOverride(patternType).value,
                                                 [".nix"], files, sameFile, maxResults).count, 254))
  {
    if targetExists && targetLine >= 1 && ParseOverride(patternType).Ok? {
      ScanResultSpec(targetFile, read, targetLine, ParseOverride(patternType).value, [".nix"], files, sameFile, maxResults);
    }
  }

  /** As written the exit code is 0 or 255: the count is always 0. */
  lemma ExitCodeAsWritten(
    targetFile: string, targetExists: bool, read: Result<seq<string>>, targetLine: int,
    patternType: Option<string>, files: seq<SourceFile>, sameFile: string -> bool, maxResults: int)
    ensures ScanExitCode(targetFile, targetExists, read, targetLine, patternType, files, sameFile, maxResults) in {0, 255}
  {
    if targetExists && targetLine >= 1 && ParseOverride(patternType).Ok? {
      ScanFindsNothing(targetFile, read, targetLine, ParseOverride(patternType).value, [".nix"], files, sameFile, maxResults);
    }
  }
}
