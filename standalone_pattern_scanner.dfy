/**
 * The standalone pattern-scanner script: the library's extractor and pattern types, with its
 * own scorer (the candidate's detected type must equal the target's, then a fixed score for
 * `mkIf ... ++` and Homebrew lists and the word-set Jaccard score otherwise), per-type
 * thresholds, `//` comments skipped, only regular files scanned, and matches without context.
 */
module StandalonePatternScanner {
  import opened Common
  import opened PatternScanner

  /** `file_extensions or [".nix", ".py", ".js", ".ts"]`. */
  function ScriptExtensions(given: Option<seq<string>>): (r: seq<string>)
    ensures r != []
  {
    if given.None? || given.value == [] then [".nix", ".py", ".js", ".ts"] else given.value
  }

  /** The script's `_detect_pattern_type`: the library's chain with two more branches that also give GENERIC. */
  function ScriptDetect(line: string): PatternType
  {
    if Contains(line, "home.packages") && Contains(line, "mkIf") then MkifHomePackages
    else if Contains(line, "mkIf") && Contains(line, "++") then MkifListConcat
    else if Contains(line, "casks = [") || Contains(line, "brews = [") then HomebrewList
    else if Contains(line, "writeShellScriptBin") then ShellScriptBin
    else if Contains(line, "home.file.") then HomeFileConfig
    else if Contains(line, "def ") || Contains(line, "function ") then Generic
    else if Contains(line, "import ") || Contains(line, "from ") then Generic
    else Generic
  }

  /** The extra branches change nothing: the script detects what the library detects. */
  lemma ScriptDetectAgrees(line: string)
    ensures ScriptDetect(line) == DetectPatternType(line)
  {
  }

  datatype Match = Match(file: string, line: int, confidence: real, patternType: PatternType, content: string)

  function MatchConfidence(m: Match): real
  {
    m.confidence
  }

  /** `_calculate_similarity`: zero unless the candidate's type is the target's, then the type's own scorer. */
  function Similarity(t: TargetPattern, line: string): real
  {
    if ScriptDetect(line) != t.patternType then 0.0
    else match t.patternType
      case MkifListConcat => MatchMkifListConcat(t.lineContent, line)
      case HomebrewList => MatchHomebrewList(t.lineContent, line)
      case _ => GenericSimilarity(t.lineContent, line)
  }

  /** The two fixed-score types need more than 0.7; the Jaccard-scored ones more than 0.3. */
  function Threshold(ty: PatternType): real
  {
    if ty == MkifListConcat || ty == HomebrewList then 0.7 else 0.3
  }

  /**
   * Scores lie in [0, 1] and are zero across types; the fixed-score types score 0.9 or 0.85
   * or nothing, so any score of theirs clears the threshold; the others score the Jaccard
   * index of the word sets.
   */
  lemma SimilaritySpec(t: TargetPattern, line: string)
    ensures 0.0 <= Similarity(t, line) <= 1.0
    ensures Similarity(t, line) > 0.0 ==> DetectPatternType(line) == t.patternType
    ensures t.patternType == MkifListConcat ==> Similarity(t, line) in {0.0, 0.9}
    ensures t.patternType == HomebrewList ==> Similarity(t, line) in {0.0, 0.85}
    ensures t.patternType in {MkifListConcat, HomebrewList} ==>
      (Similarity(t, line) > Threshold(t.patternType) <==> Similarity(t, line) > 0.0)
    ensures t.patternType !in {MkifListConcat, HomebrewList} && DetectPatternType(line) == t.patternType ==>
      Similarity(t, line) == GenericSimilarity(t.lineContent, line)
  {
    ScriptDetectAgrees(line);
    JaccardSpec(WordSet(t.lineContent), WordSet(line));
  }

  /**
   * When the target keeps its detected type, any candidate of the same fixed-score type gets
   * the full score: detection already found `mkIf` and `++`, or `casks` or `brews`, in both.
   */
  lemma DetectedTypeScoresFully(t: TargetPattern, line: string)
    requires t.patternType == DetectPatternType(t.lineContent) == DetectPatternType(line)
    ensures t.patternType == MkifListConcat ==> Similarity(t, line) == 0.9
    ensures t.patternType == HomebrewList ==> Similarity(t, line) == 0.85
  {
    ScriptDetectAgrees(line);
    if t.patternType == HomebrewList {
      BrewsListNamesBrew(t.lineContent);
      BrewsListNamesBrew(line);
    }
  }

  lemma BrewsListNamesBrew(s: string)
    requires Contains(s, "casks = [") || Contains(s, "brews = [")
    ensures Contains(s, "casks") || Contains(s, "brews")
  {
    if Contains(s, "casks = [") {
      OccursFromPrefix(s, 0, "casks = [", 5);
      assert "casks = ["[..5] == "casks";
    } else {
      OccursFromPrefix(s, 0, "brews = [", 5);
      assert "brews = ["[..5] == "brews";
    }
  }

  // ---------------------------------------------------------------- scanning files

  /** A stripped line the script skips: empty, or a `#` or `//` comment. */
  predicate ScriptSkipped(l: string)
  {
    l == [] || StartsWith(l, "#") || StartsWith(l, "//")
  }

  /** The match line `i` contributes when it scores `sim`: one when that clears the target type's threshold. */
  function LineHit(path: string, lines: seq<string>, t: TargetPattern, i: nat, sim: real): seq<Match>
    requires i < |lines|
  {
    if sim > Threshold(t.patternType) then [Match(path, i + 1, Round2(sim), t.patternType, Strip(lines[i]))] else []
  }

  /** The scorer the file scan calls. */
  type Score = (TargetPattern, string) -> real

  /** The matches from line `i` on, scored by `score`. */
  function ScanLines(path: string, lines: seq<string>, t: TargetPattern, score: Score, i: nat): seq<Match>
    requires i <= |lines|
    decreases |lines| - i
  {
    if i == |lines| then []
    else if ScriptSkipped(Strip(lines[i])) then ScanLines(path, lines, t, score, i + 1)
    else LineHit(path, lines, t, i, score(t, Strip(lines[i]))) + ScanLines(path, lines, t, score, i + 1)
  }

  lemma ScanLinesHit(path: string, lines: seq<string>, t: TargetPattern, score: Score, i: nat)
    requires i < |lines| && !ScriptSkipped(Strip(lines[i]))
    ensures ScanLines(path, lines, t, score, i)
      == LineHit(path, lines, t, i, score(t, Strip(lines[i]))) + ScanLines(path, lines, t, score, i + 1)
  {
  }

  /** What scanning one regular file with `score` yields: nothing when it cannot be read. */
  function FileScan(f: SourceFile, t: TargetPattern, score: Score): seq<Match>
  {
    match f.lines
    case Err(_) => []
    case Ok(lines) => ScanLines(f.path, lines, t, score, 0)
  }

  /** What the script's scan of one regular file yields. */
  function FileHits(f: SourceFile, t: TargetPattern): seq<Match>
  {
    FileScan(f, t, Similarity)
  }

  /** The script's `_scan_file_for_patterns`, with its scorer as `score`. */
  method ScanFile(f: SourceFile, t: TargetPattern, score: Score) returns (ms: seq<Match>)
    ensures ms == FileScan(f, t, score)
  {
    ms := [];
    if f.lines.Err? {
      return;
    }
    var lines := f.lines.value;
    var i := 0;
    ghost var all := ScanLines(f.path, lines, t, score, 0);
    while i < |lines|
      invariant 0 <= i <= |lines|
      invariant ms + ScanLines(f.path, lines, t, score, i) == all
    {
      var l := Strip(lines[i]);
      if !ScriptSkipped(l) {
        ScanLinesHit(f.path, lines, t, score, i);
        var similarity := score(t, l);
        ms := ms + LineHit(f.path, lines, t, i, similarity);
      }
      i := i + 1;
    }
  }

  /** The hits of every globbed regular file, in walk order, for one extension. */
  function ExtHits(ext: string, files: seq<SourceFile>, t: TargetPattern): seq<Match>
  {
    if files == [] then []
    else
      var f := files[|files| - 1];
      ExtHits(ext, files[..|files| - 1], t) + (if Globbed(f, ext) && f.isFile then FileHits(f, t) else [])
  }

  function AllHits(exts: seq<string>, files: seq<SourceFile>, t: TargetPattern): seq<Match>
  {
    if exts == [] then [] else AllHits(exts[..|exts| - 1], files, t) + ExtHits(exts[|exts| - 1], files, t)
  }

  lemma ExtHitsStep(ext: string, files: seq<SourceFile>, t: TargetPattern, j: int)
    requires 0 <= j < |files|
    ensures ExtHits(ext, files[..j + 1], t)
      == ExtHits(ext, files[..j], t) + (if Globbed(files[j], ext) && files[j].isFile then FileHits(files[j], t) else [])
  {
    assert files[..j + 1][..j] == files[..j];
  }

  method ScanExtension(ext: string, files: seq<SourceFile>, t: TargetPattern) returns (ms: seq<Match>)
    ensures ms == ExtHits(ext, files, t)
  {
    ms := [];
    for j := 0 to |files|
      invariant ms == ExtHits(ext, files[..j], t)
    {
      ExtHitsStep(ext, files, t, j);
      if Globbed(files[j], ext) && files[j].isFile {
        var found := ScanFile(files[j], t, Similarity);
        ms := ms + found;
      }
    }
    assert files[..|files|] == files;
  }

  /** The script's `_find_similar_patterns`: every regular file per extension, then sorted by confidence. */
  method FindSimilarPatterns(exts: seq<string>, files: seq<SourceFile>, t: TargetPattern) returns (ms: seq<Match>)
    ensures ms == SortDesc(AllHits(exts, files, t), MatchConfidence)
  {
    var all: seq<Match> := [];
    for e := 0 to |exts|
      invariant all == AllHits(exts[..e], files, t)
    {
      assert exts[..e + 1][..e] == exts[..e];
      var found := ScanExtension(exts[e], files, t);
      all := all + found;
    }
    assert exts[..|exts|] == exts;
    ms := SortDesc(all, MatchConfidence);
  }

  // ---------------------------------------------------------------- what a match means

  /** A reported line: the target's type, a score above that type's threshold, and its rounding as confidence. */
  predicate Reported(t: TargetPattern, m: Match)
  {
    && m.patternType == t.patternType
    && !ScriptSkipped(m.content)
    && Similarity(t, m.content) > Threshold(t.patternType)
    && m.confidence == Round2(Similarity(t, m.content))
  }

  lemma {:induction false} ScanLinesReported(path: string, lines: seq<string>, t: TargetPattern, i: nat)
    requires i <= |lines|
    ensures forall m :: m in ScanLines(path, lines, t, Similarity, i) ==> Reported(t, m)
    decreases |lines| - i
  {
    if i < |lines| {
      ScanLinesReported(path, lines, t, i + 1);
    }
  }

  lemma {:induction false} ExtHitsReported(ext: string, files: seq<SourceFile>, t: TargetPattern)
    ensures forall m :: m in ExtHits(ext, files, t) ==> Reported(t, m)
  {
    if files != [] {
      ExtHitsReported(ext, files[..|files| - 1], t);
      var f := files[|files| - 1];
      if f.lines.Ok? {
        ScanLinesReported(f.path, f.lines.value, t, 0);
      }
    }
  }

  lemma {:induction false} AllHitsReported(exts: seq<string>, files: seq<SourceFile>, t: TargetPattern)
    ensures forall m :: m in AllHits(exts, files, t) ==> Reported(t, m)
  {
    if exts != [] {
      AllHitsReported(exts[..|exts| - 1], files, t);
      ExtHitsReported(exts[|exts| - 1], files, t);
    }
  }

  // ---------------------------------------------------------------- the scan

  /** The filter's test: not `samefile` with the target and on the target line. */
  function NotTargetHit(sameFile: string -> bool, targetLine: int): Match -> bool
  {
    (m: Match) => !(sameFile(m.file) && m.line == targetLine)
  }

  /** The script's `scan_for_similar_patterns`: a plain list, empty when the target line cannot be read. */
  function ScanList(
    read: Result<seq<string>>, targetLine: int, patternType: Option<PatternType>,
    exts: seq<string>, files: seq<SourceFile>, sameFile: string -> bool, maxResults: int): seq<Match>
  {
    match ExtractPattern(read, targetLine)
    case None => []
    case Some(t0) =>
      var t := Overridden(t0, patternType);
      Take(Filter(SortDesc(AllHits(exts, files, t), MatchConfidence), NotTargetHit(sameFile, targetLine)), maxResults)
  }

  method ScanForSimilarPatterns(
    read: Result<seq<string>>, targetLine: int, patternType: Option<PatternType>,
    exts: seq<string>, files: seq<SourceFile>, sameFile: string -> bool, maxResults: int)
    returns (ms: seq<Match>)
    ensures ms == ScanList(read, targetLine, patternType, exts, files, sameFile, maxResults)
  {
    var target := ExtractPattern(read, targetLine);
    if target.None? {
      return [];
    }
    var t := Overridden(target.value, patternType);
    ms := FindSimilarPatterns(exts, files, t);
    ms := Filter(ms, NotTargetHit(sameFile, targetLine));
    ms := Take(ms, maxResults);
  }

  /**
   * The list is ordered by confidence, leaves out the target location, holds at most a
   * non-negative `max_results` entries, and every entry is a line of the target's type whose
   * score cleared that type's threshold; without a target line it is empty.
   */
  lemma ScanListSpec(
    read: Result<seq<string>>, targetLine: int, patternType: Option<PatternType>,
    exts: seq<string>, files: seq<SourceFile>, sameFile: string -> bool, maxResults: int)
    ensures var r := ScanList(read, targetLine, patternType, exts, files, sameFile, maxResults);
      && (maxResults >= 0 ==> |r| <= maxResults)
      && SortedDesc(r, MatchConfidence)
      && (forall k :: 0 <= k < |r| ==> !(sameFile(r[k].file) && r[k].line == targetLine))
      && (ExtractPattern(read, targetLine).None? ==> r == [])
      && (ExtractPattern(read, targetLine).Some? ==>
            var t := Overridden(ExtractPattern(read, targetLine).value, patternType);
            forall k :: 0 <= k < |r| ==> Reported(t, r[k]) && DetectPatternType(r[k].content) == t.patternType)
  {
    match ExtractPattern(read, targetLine)
    case None =>
    case Some(t0) =>
      var t := Overridden(t0, patternType);
      var all := AllHits(exts, files, t);
      var found := SortDesc(all, MatchConfidence);
      var p := NotTargetHit(sameFile, targetLine);
      SortDescSpec(all, MatchConfidence);
      FilterSorted(found, p, MatchConfidence);
      FilterSpec(found, p);
      AllHitsReported(exts, files, t);
      var r := Take(Filter(found, p), maxResults);
      forall k | 0 <= k < |r|
        ensures !(sameFile(r[k].file) && r[k].line == targetLine)
        ensures Reported(t, r[k]) && DetectPatternType(r[k].content) == t.patternType
      {
        var m := Filter(found, p)[k];
        assert r[k] == m;
        assert m in multiset(found);
        assert m in all;
        SimilaritySpec(t, m.content);
      }
  }

  // ---------------------------------------------------------------- output and exit code

  datatype CompactItem = CompactItem(f: string, l: int, conf: real)

  /** The `compact` output: the count and the first ten matches' file, line and confidence. */
  datatype Compact = Compact(c: nat, items: seq<CompactItem>)

  function CompactOutput(ms: seq<Match>): (r: Compact)
    ensures r.c == |ms| && |r.items| == Min(|ms|, 10)
    ensures forall k :: 0 <= k < |r.items| ==> r.items[k] == CompactItem(ms[k].file, ms[k].line, ms[k].confidence)
  {
    var head := Take(ms, 10);
    Compact(|ms|, seq(|head|, k requires 0 <= k < |head| => CompactItem(head[k].file, head[k].line, head[k].confidence)))
  }

  /**
   * The script's `scan_patterns_with_exit_code` with the default scanner: 255 for a missing
   * target file, a line below 1 or an unknown pattern type, otherwise the number of matches
   * capped at 254.
   */
  function ScriptExitCode(
    targetExists: bool, read: Result<seq<string>>, targetLine: int, patternType: Option<string>,
    files: seq<SourceFile>, sameFile: string -> bool, maxResults: int): nat
  {
    if !targetExists || targetLine < 1 then 255
    else match ParseOverride(patternType)
      case Err(_) => 255
      case Ok(o) => Min(|ScanList(read, targetLine, o, ScriptExtensions(None), files, sameFile, maxResults)|, 254)
  }

  /** 255 reports exactly the input errors; any other code is the match count, at most 254. */
  lemma ScriptExitCodeSpec(
    targetExists: bool, read: Result<seq<string>>, targetLine: int, patternType: Option<string>,
    files: seq<SourceFile>, sameFile: string -> bool, maxResults: int)
    ensures var code := ScriptExitCode(targetExists, read, targetLine, patternType, files, sameFile, maxResults);
      && code <= 255
      && (code == 255 <==> !targetExists || targetLine < 1 || ParseOverride(patternType).Err?)
      && (code < 255 ==> code == Min(|ScanList(read, targetLine, ParseOverride(patternType).value,
                                                [".nix", ".py", ".js", ".ts"], files, sameFile, maxResults)|, 254))
      && (code < 255 && 0 <= maxResults <= 254 ==> code <= maxResults)
  {
    if targetExists && targetLine >= 1 && ParseOverride(patternType).Ok? {
      ScanListSpec(read, targetLine, ParseOverride(patternType).value, [".nix", ".py", ".js", ".ts"], files, sameFile, maxResults);
    }
  }
}
