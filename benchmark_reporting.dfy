/**
 * The benchmark report generator: the ASCII progress bar and trend arrow of the dashboard, the
 * CSV export of task results, the Markdown summary table of a batch, the success counting of
 * the batch aggregation, and the naming and dispatch of `generate_report`. A result is a JSON
 * value as the runners build it; anything the code calls `.get` on that is not a dictionary
 * raises, and the model returns that error.
 */
module BenchmarkReporting {
  import opened Common
  import J = JsonText
  import C = BenchmarkConfig

  // ---------------------------------------------------------------- _create_bar

  const BarLength := 20

  const FullCell := '\U{2588}'
  const DarkCell := '\U{2593}'
  const EmptyCell := '\U{2591}'

  /** `c * n`, which is empty for `n <= 0`. */
  function Repeat(c: char, n: int): (r: string)
    ensures |r| == if n <= 0 then 0 else n
    ensures forall i :: 0 <= i < |r| ==> r[i] == c
  {
    seq(if n <= 0 then 0 else n, _ => c)
  }

  /** `_create_bar`. */
  function CreateBar(value: real, threshold: real): string
  {
    var filled := Truncate(BarLength as real * CapOne(value));
    var cell := if value >= threshold then FullCell else DarkCell;
    "[" + Repeat(cell, filled) + Repeat(EmptyCell, BarLength - filled) + "]"
  }

  /**
   * For a non-negative value the bar is '[' + 20 cells + ']': the first floor(20 min(v, 1)) cells
   * are filled, with the full block exactly when the value reaches the threshold, and the rest
   * are light shade.
   */
  lemma CreateBarSpec(value: real, threshold: real)
    requires value >= 0.0
    ensures var bar := CreateBar(value, threshold);
      var filled := Floor(20.0 * CapOne(value));
      && filled <= BarLength
      && |bar| == BarLength + 2 && bar[0] == '[' && bar[BarLength + 1] == ']'
      && (forall i :: 1 <= i <= filled ==> bar[i] == if value >= threshold then FullCell else DarkCell)
      && (forall i :: filled < i <= BarLength ==> bar[i] == EmptyCell)
  {
    var filled := Floor(20.0 * CapOne(value));
    var cell := if value >= threshold then FullCell else DarkCell;
    var bar := CreateBar(value, threshold);
    assert bar == "[" + Repeat(cell, filled) + Repeat(EmptyCell, BarLength - filled) + "]";
    forall i | 1 <= i <= filled ensures bar[i] == cell {
      assert bar[i] == Repeat(cell, filled)[i - 1];
    }
    forall i | filled < i <= BarLength ensures bar[i] == EmptyCell {
      assert bar[i] == Repeat(EmptyCell, BarLength - filled)[i - 1 - filled];
    }
  }

  /** A negative value fills nothing and pads with more than 20 empty cells once it reaches -0.05. */
  lemma CreateBarNegative(value: real, threshold: real)
    requires value < 0.0
    ensures |CreateBar(value, threshold)| == BarLength + 2 - Truncate(20.0 * value)
    ensures value <= -0.05 ==> |CreateBar(value, threshold)| > BarLength + 2
  {
  }

  // ---------------------------------------------------------------- _calculate_trend

  const NoTrend := "No trend data"
  const Stable := "Stable"
  const Improving := "Improving \U{2197}"
  const Declining := "Declining \U{2198}"

  function AbsReal(x: real): real
  {
    if x < 0.0 then -x else x
  }

  /** `_calculate_trend`: only the first and the last value matter. */
  function CalculateTrend(values: seq<real>): (r: string)
    ensures |values| < 2 <==> r == NoTrend
    ensures r == Stable <==> |values| >= 2 && AbsReal(values[|values| - 1] - values[0]) < 0.1
    ensures r == Improving <==> |values| >= 2 && values[|values| - 1] - values[0] >= 0.1
    ensures r == Declining <==> |values| >= 2 && values[|values| - 1] - values[0] <= -0.1
  {
    if |values| < 2 then NoTrend
    else if AbsReal(values[|values| - 1] - values[0]) < 0.1 then Stable
    else if values[|values| - 1] > values[0] then Improving
    else Declining
  }

  /** Two series with the same first and last values have the same trend. */
  lemma TrendEndpoints(a: seq<real>, b: seq<real>)
    requires |a| >= 2 && |b| >= 2 && a[0] == b[0] && a[|a| - 1] == b[|b| - 1]
    ensures CalculateTrend(a) == CalculateTrend(b)
  {
  }

  // ---------------------------------------------------------------- _generate_csv_report

  const NoResults := "No results found"

  const CsvFields: seq<string> := ["task_id", "approach", "model_instance", "status", "duration",
    "input_tokens", "output_tokens", "total_tokens", "sample_num", "start_time", "end_time", "error"]

  /** The header line: the field names joined by commas. */
  const CsvHeader := Join(CsvFields, ",")

  /** `str(result.get(field, ""))`, with None written as the empty string. */
  function CsvCell(result: seq<J.Entry>, field: string, repr: J.Json -> string): (r: string)
    ensures !J.HasKey(result, field) ==> r == ""
    ensures J.HasKey(result, field) && J.Get(result, field) == J.Null ==> r == ""
    ensures J.HasKey(result, field) && J.Get(result, field).Str? ==> r == J.Get(result, field).s
  {
    match J.GetOr(result, field, J.Str(""))
    case Null => ""
    case v => J.Show(v, repr)
  }

  /** The cells of one row, in header order. */
  function CsvCells(result: seq<J.Entry>, repr: J.Json -> string): (r: seq<string>)
    ensures |r| == |CsvFields|
    ensures forall i :: 0 <= i < |r| ==> r[i] == CsvCell(result, CsvFields[i], repr)
  {
    seq(|CsvFields|, i requires 0 <= i < |CsvFields| => CsvCell(result, CsvFields[i], repr))
  }

  /** One row: the cells joined by bare commas, without any quoting. */
  function CsvRow(result: seq<J.Entry>, repr: J.Json -> string): string
  {
    Join(CsvCells(result, repr), ",")
  }

  /** The row of one result, which raises when the result is not a dictionary. */
  function CsvLine(result: J.Json, repr: J.Json -> string): Result<string>
  {
    match result
    case Dict(es) => Ok(CsvRow(es, repr))
    case v => Err(J.NoGet(v))
  }

  function CsvLineOf(repr: J.Json -> string): J.Json -> Result<string>
  {
    (v: J.Json) => CsvLine(v, repr)
  }

  /** The rows of the results; the first result that is not a dictionary raises. */
  function CsvRows(results: seq<J.Json>, repr: J.Json -> string): Result<seq<string>>
  {
    MapAll(results, CsvLineOf(repr))
  }

  /** The report, or the error iterating over a `results` value that is not a list raises. */
  function CsvReport(data: seq<J.Entry>, repr: J.Json -> string): Result<string>
  {
    var results := J.GetOr(data, "results", J.List([]));
    if !C.Truthy(results) then Ok(NoResults)
    else
      match results
      case List(items) =>
        (match CsvRows(items, repr)
         case Ok(rows) => Ok(Join([CsvHeader] + rows, "\n"))
         case Err(e) => Err(e))
      case Dict(_) => Err(J.NoGet(J.Str("")))
      case Str(_) => Err(J.NoGet(J.Str("")))
      case v => Err("TypeError: '" + J.TypeName(v) + "' object is not iterable")
  }

  /** The rows exist exactly when every result is a dictionary, one row per result in order. */
  lemma CsvRowsSpec(results: seq<J.Json>, repr: J.Json -> string)
    ensures CsvRows(results, repr).Ok? <==> forall i :: 0 <= i < |results| ==> results[i].Dict?
    ensures CsvRows(results, repr).Ok? ==>
      var rows := CsvRows(results, repr).value;
      |rows| == |results| && forall i :: 0 <= i < |results| ==> rows[i] == CsvRow(results[i].entries, repr)
  {
    MapAllSpec(results, CsvLineOf(repr));
    if !CsvRows(results, repr).Ok? {
      var i :| 0 <= i < |results| && CsvLineOf(repr)(results[i]).Err?;
      assert !results[i].Dict?;
    }
  }

  /** An absent or falsy result list gives "No results found". */
  lemma CsvReportEmpty(data: seq<J.Entry>, repr: J.Json -> string)
    ensures !J.HasKey(data, "results") ==> CsvReport(data, repr) == Ok(NoResults)
    ensures J.HasKey(data, "results") && !C.Truthy(J.Get(data, "results")) ==> CsvReport(data, repr) == Ok(NoResults)
  {
  }

  /** A non-empty list of results is iterated, and its rows follow the header. */
  lemma CsvReportList(data: seq<J.Entry>, items: seq<J.Json>, repr: J.Json -> string)
    requires J.GetOr(data, "results", J.List([])) == J.List(items) && items != []
    ensures CsvReport(data, repr) == match CsvRows(items, repr)
      case Ok(rows) => Ok(Join([CsvHeader] + rows, "\n"))
      case Err(e) => Err(e)
  {
  }

  /**
   * A non-empty list of results gives a report exactly when every result is a dictionary: the
   * 12-field header line and then one row per result, in order.
   */
  lemma CsvReportRows(data: seq<J.Entry>, items: seq<J.Json>, repr: J.Json -> string)
    requires J.GetOr(data, "results", J.List([])) == J.List(items) && items != []
    ensures CsvReport(data, repr).Ok? <==> forall i :: 0 <= i < |items| ==> items[i].Dict?
    ensures CsvReport(data, repr).Ok? ==>
      var rows := CsvRows(items, repr).value;
      && CsvReport(data, repr).value == Join([CsvHeader] + rows, "\n")
      && |rows| == |items| && forall i :: 0 <= i < |items| ==> rows[i] == CsvRow(items[i].entries, repr)
  {
    CsvRowsSpec(items, repr);
    CsvReportList(data, items, repr);
  }

  /**
   * Nothing is quoted: every comma inside a cell stays in the row beside the 11 separators, so a
   * row with such a cell splits into more than the 12 header fields.
   */
  lemma CsvNoQuoting(result: seq<J.Entry>, repr: J.Json -> string, k: int)
    requires 0 <= k < |CsvFields|
    ensures Count(CsvRow(result, repr), ',') >= |CsvFields| - 1 + Count(CsvCell(result, CsvFields[k], repr), ',')
  {
    JoinCount(CsvCells(result, repr), ',', k);
  }

  /** A value with a comma in it. */
  lemma CommaInError(repr: J.Json -> string)
    ensures Count(CsvCell([J.Entry("error", J.Str("a,b"))], "error", repr), ',') == 1
  {
    assert "a,b"[..2] == "a,";
    assert "a,"[..1] == "a";
    assert "a"[..0] == "";
  }

  /** The cells of one row, as the inner loop over the field names appends them. */
  method RowCells(result: seq<J.Entry>, repr: J.Json -> string) returns (row: seq<string>)
    ensures row == CsvCells(result, repr)
  {
    row := [];
    for k := 0 to |CsvFields|
      invariant row == CsvCells(result, repr)[..k]
    {
      row := row + [CsvCell(result, CsvFields[k], repr)];
    }
  }

  /** The loop over the results: the header, then one joined row per dictionary. */
  method CsvLines(items: seq<J.Json>, repr: J.Json -> string) returns (r: Result<seq<string>>)
    ensures r.Ok? <==> CsvRows(items, repr).Ok?
    ensures r.Ok? ==> r.value == [CsvHeader] + CsvRows(items, repr).value
    ensures r.Err? ==> r == Err(CsvRows(items, repr).msg)
  {
    var output := [CsvHeader];
    for i := 0 to |items|
      invariant CsvRows(items[..i], repr).Ok?
      invariant output == [CsvHeader] + CsvRows(items[..i], repr).value
    {
      assert items[..i + 1][..i] == items[..i];
      match items[i]
      case Dict(es) =>
        var row := RowCells(es, repr);
        output := output + [Join(row, ",")];
      case v =>
        MapAllErr(items, CsvLineOf(repr), i + 1);
        return Err(J.NoGet(v));
    }
    assert items[..|items|] == items;
    r := Ok(output);
  }

  /** `_generate_csv_report`. */
  method GenerateCsvReport(data: seq<J.Entry>, repr: J.Json -> string) returns (r: Result<string>)
    ensures r == CsvReport(data, repr)
  {
    var results := J.GetOr(data, "results", J.List([]));
    if !C.Truthy(results) {
      return Ok(NoResults);
    }
    match results
    case List(items) =>
      var lines := CsvLines(items, repr);
      r := if lines.Ok? then Ok(Join(lines.value, "\n")) else Err(lines.msg);
    case Dict(_) =>
      r := Err(J.NoGet(J.Str("")));
    case Str(_) =>
      r := Err(J.NoGet(J.Str("")));
    case v =>
      r := Err("TypeError: '" + J.TypeName(v) + "' object is not iterable");
  }

  // ---------------------------------------------------------------- create_summary_table

  const TableHeader := "| Configuration | Profile | Status | Token Reduction | Time Reduction | Efficiency |"
  const TableRule := "|---------------|---------|--------|-----------------|----------------|------------|"

  const Unknown := "unknown"
  const Failed := "Failed"
  const Success := "Success"
  const NotAvailable := "N/A"

  /** One table row, each cell between bars. */
  function TableRow(name: string, profile: string, status: string, tokens: string, time: string, efficiency: string): string
  {
    "| " + name + " | " + profile + " | " + status + " | " + tokens + " | " + time + " | " + efficiency + " |"
  }

  /**
   * `f"{v:.1f}%"`: numbers (and booleans, which are integers in Python) through the one-decimal
   * formatter; any other value has no `f` format and raises.
   */
  function Percent(v: J.Json, fixed1: real -> string): Result<string>
  {
    match v
    case Int(n) => Ok(fixed1(n as real) + "%")
    case Float(x) => Ok(fixed1(x) + "%")
    case Bool(b) => Ok(fixed1(if b then 1.0 else 0.0) + "%")
    case Str(_) => Err("ValueError: Unknown format code 'f' for object of type 'str'")
    case _ => Err("TypeError: unsupported format string passed to " + J.TypeName(v) + ".__format__")
  }

  /** What the table prints with but does not define: `format(x, ".1f")` and `str` of a float, list or dict. */
  datatype Printers = Printers(fixed1: real -> string, repr: J.Json -> string)

  /** The three percentages of a successful result. */
  function Reductions(result: seq<J.Entry>, p: Printers): Result<(string, string, string)>
  {
    match J.GetOr(result, "comparison_metrics", J.Dict([]))
    case Dict(cm) =>
      (match Percent(J.GetOr(cm, "token_reduction_percent", J.Int(0)), p.fixed1)
       case Err(e) => Err(e)
       case Ok(tokens) =>
         match Percent(J.GetOr(cm, "time_reduction_percent", J.Int(0)), p.fixed1)
         case Err(e) => Err(e)
         case Ok(time) =>
           match Percent(J.GetOr(cm, "efficiency_improvement_percent", J.Int(0)), p.fixed1)
           case Err(e) => Err(e)
           case Ok(efficiency) => Ok((tokens, time, efficiency)))
    case v => Err(J.NoGet(v))
  }

  /** The row of one batch result. */
  function SummaryRow(result: J.Json, p: Printers): Result<string>
  {
    match result
    case Dict(es) =>
      (match J.GetOr(es, "batch_info", J.Dict([]))
       case Dict(info) =>
         var name := J.Show(J.GetOr(info, "name", J.Str(Unknown)), p.repr);
         var profile := J.Show(J.GetOr(info, "profile", J.Str(Unknown)), p.repr);
         if J.HasKey(es, "error") then Ok(TableRow(name, profile, Failed, NotAvailable, NotAvailable, NotAvailable))
         else
           (match Reductions(es, p)
            case Ok(cells) => Ok(TableRow(name, profile, Success, cells.0, cells.1, cells.2))
            case Err(e) => Err(e))
       case v => Err(J.NoGet(v)))
    case v => Err(J.NoGet(v))
  }

  function SummaryRowOf(p: Printers): J.Json -> Result<string>
  {
    (v: J.Json) => SummaryRow(v, p)
  }

  /** The rows of the results; the first one that raises ends the table. */
  function SummaryRows(results: seq<J.Json>, p: Printers): Result<seq<string>>
  {
    MapAll(results, SummaryRowOf(p))
  }

  function SummaryTable(results: seq<J.Json>, p: Printers): Result<string>
  {
    match SummaryRows(results, p)
    case Ok(rows) => Ok(Join([TableHeader, TableRule] + rows, "\n"))
    case Err(e) => Err(e)
  }

  /** A failed result (one with an "error" key) shows Failed and N/A in every percentage column. */
  lemma FailedRow(es: seq<J.Entry>, info: seq<J.Entry>, p: Printers)
    requires J.HasKey(es, "error") && J.GetOr(es, "batch_info", J.Dict([])) == J.Dict(info)
    ensures SummaryRow(J.Dict(es), p) == Ok(TableRow(J.Show(J.GetOr(info, "name", J.Str(Unknown)), p.repr),
      J.Show(J.GetOr(info, "profile", J.Str(Unknown)), p.repr), Failed, NotAvailable, NotAvailable, NotAvailable))
  {
  }

  /** A missing batch_info or name prints as "unknown". */
  lemma UnknownConfiguration(es: seq<J.Entry>, p: Printers)
    requires !J.HasKey(es, "batch_info") && J.HasKey(es, "error")
    ensures SummaryRow(J.Dict(es), p) == Ok(TableRow(Unknown, Unknown, Failed, NotAvailable, NotAvailable, NotAvailable))
  {
  }

  /** The table is the two header lines and then one line per result. */
  lemma SummaryTableSpec(results: seq<J.Json>, p: Printers)
    ensures SummaryTable(results, p).Ok? <==> forall i :: 0 <= i < |results| ==> SummaryRow(results[i], p).Ok?
    ensures SummaryTable(results, p).Ok? ==>
      var lines := [TableHeader, TableRule] + SummaryRows(results, p).value;
      && SummaryTable(results, p).value == Join(lines, "\n")
      && |lines| == |results| + 2
      && forall i :: 0 <= i < |results| ==> lines[i + 2] == SummaryRow(results[i], p).value
  {
    var f := SummaryRowOf(p);
    MapAllSpec(results, f);
    assert forall i :: 0 <= i < |results| ==> f(results[i]) == SummaryRow(results[i], p);
  }

  /** `create_summary_table`. */
  method CreateSummaryTable(results: seq<J.Json>, p: Printers) returns (r: Result<string>)
    ensures r == SummaryTable(results, p)
  {
    var lines := [TableHeader, TableRule];
    for i := 0 to |results|
      invariant SummaryRows(results[..i], p).Ok?
      invariant lines == [TableHeader, TableRule] + SummaryRows(results[..i], p).value
    {
      assert results[..i + 1][..i] == results[..i];
      var row := SummaryRow(results[i], p);
      if row.Err? {
        MapAllErr(results, SummaryRowOf(p), i + 1);
        return Err(row.msg);
      }
      lines := lines + [row.value];
    }
    assert results[..|results|] == results;
    r := Ok(Join(lines, "\n"));
  }

  // ---------------------------------------------------------------- _aggregate_batch_data

  /** The three percentages one successful configuration contributes to the aggregated statistics. */
  datatype Contribution = Contribution(tokenReduction: J.Json, timeReduction: J.Json, efficiencyImprovement: J.Json)

  datatype RunSummary = RunSummary(totalRuns: nat, successfulRuns: nat, timestamp: real)

  /** The three counts `aggregated_stats` holds beside the statistics of each percentage. */
  datatype Counts = Counts(totalConfigurations: nat, successfulConfigurations: nat, successRate: real)

  /**
   * What `_aggregate_batch_data` returns, apart from the mean, median, deviation, minimum and
   * maximum of each percentage: the counts are absent when no percentage was collected, the runs
   * summary when nothing succeeded.
   */
  datatype Aggregate = Aggregate(batchResults: seq<J.Json>, contributions: seq<Contribution>,
    counts: Option<Counts>, summary: Option<RunSummary>)

  /** A result succeeded when its overall_metrics are truthy; a result without `get` raises. */
  function SuccessfulResults(results: seq<J.Json>): Result<seq<seq<J.Entry>>>
  {
    if results == [] then Ok([])
    else
      match SuccessfulResults(results[..|results| - 1])
      case Err(e) => Err(e)
      case Ok(done) =>
        match results[|results| - 1]
        case Dict(es) => Ok(done + if C.Truthy(J.GetOr(es, "overall_metrics", J.Null)) then [es] else [])
        case v => Err(J.NoGet(v))
  }

  /** The contributions of the successful results whose comparison_metrics are truthy. */
  function Contributions(successful: seq<seq<J.Entry>>): Result<seq<Contribution>>
  {
    if successful == [] then Ok([])
    else
      match Contributions(successful[..|successful| - 1])
      case Err(e) => Err(e)
      case Ok(done) =>
        var comparison := J.GetOr(successful[|successful| - 1], "comparison_metrics", J.Dict([]));
        if !C.Truthy(comparison) then Ok(done)
        else
          match comparison
          case Dict(cm) => Ok(done + [Contribution(J.GetOr(cm, "token_reduction_percent", J.Int(0)),
            J.GetOr(cm, "time_reduction_percent", J.Int(0)), J.GetOr(cm, "efficiency_improvement_percent", J.Int(0)))])
          case v => Err(J.NoGet(v))
  }

  /** The values `statistics` accepts from JSON: an int, a float or a bool. */
  predicate Numeric(v: J.Json)
  {
    v.Int? || v.Float? || v.Bool?
  }

  /** The first value that is not a number, if any. */
  function FirstNonNumeric(xs: seq<J.Json>): (r: Option<J.Json>)
    ensures r.None? <==> forall i :: 0 <= i < |xs| ==> Numeric(xs[i])
    ensures r.Some? ==> exists i :: 0 <= i < |xs| && xs[i] == r.value && !Numeric(xs[i])
                                    && forall j :: 0 <= j < i ==> Numeric(xs[j])
  {
    if xs == [] then None
    else if !Numeric(xs[0]) then Some(xs[0])
    else
      var r := FirstNonNumeric(xs[1..]);
      assert forall i :: 1 <= i < |xs| ==> xs[i] == xs[1..][i - 1];
      r
  }

  function TokenReductions(cs: seq<Contribution>): seq<J.Json>
  {
    seq(|cs|, i requires 0 <= i < |cs| => cs[i].tokenReduction)
  }

  function TimeReductions(cs: seq<Contribution>): seq<J.Json>
  {
    seq(|cs|, i requires 0 <= i < |cs| => cs[i].timeReduction)
  }

  function EfficiencyImprovements(cs: seq<Contribution>): seq<J.Json>
  {
    seq(|cs|, i requires 0 <= i < |cs| => cs[i].efficiencyImprovement)
  }

  /**
   * The value `statistics.mean` stops at: the three lists are summarised in turn, each from its
   * first value, so the first non-number of the first list that has one.
   */
  function StatsBlocker(cs: seq<Contribution>): Option<J.Json>
  {
    match FirstNonNumeric(TokenReductions(cs))
    case Some(v) => Some(v)
    case None =>
      match FirstNonNumeric(TimeReductions(cs))
      case Some(v) => Some(v)
      case None => FirstNonNumeric(EfficiencyImprovements(cs))
  }

  /** The TypeError `statistics.mean` raises on a value that is not a number. */
  function NotANumber(v: J.Json): string
  {
    "TypeError: can't convert type '" + J.TypeName(v) + "' to numerator/denominator"
  }

  function AggregateOf(results: seq<J.Json>, now: real): Result<Aggregate>
  {
    match SuccessfulResults(results)
    case Err(e) => Err(e)
    case Ok(successful) =>
      if successful == [] then Ok(Aggregate(results, [], None, None))
      else
        match Contributions(successful)
        case Err(e) => Err(e)
        case Ok(cs) =>
          match StatsBlocker(cs)
          case Some(v) => Err(NotANumber(v))
          case None =>
            var counts := if cs != [] then Some(Counts(|results|, |successful|, SuccessRate(|successful|, |results|))) else None;
            Ok(Aggregate(results, cs, counts, Some(RunSummary(|results|, |successful|, now))))
  }

  /** The successful results are the dictionaries among the results with truthy overall_metrics. */
  lemma {:induction false} SuccessfulResultsSpec(results: seq<J.Json>)
    ensures SuccessfulResults(results).Ok? <==> forall i :: 0 <= i < |results| ==> results[i].Dict?
    ensures SuccessfulResults(results).Ok? ==>
      && |SuccessfulResults(results).value| == CountWhere(results, Succeeded)
      && |SuccessfulResults(results).value| <= |results|
  {
    if results != [] {
      var init := results[..|results| - 1];
      SuccessfulResultsSpec(init);
      assert forall i :: 0 <= i < |init| ==> init[i] == results[i];
    }
  }

  predicate Succeeded(r: J.Json)
  {
    r.Dict? && C.Truthy(J.GetOr(r.entries, "overall_metrics", J.Null))
  }

  lemma {:induction false} ContributionsBound(successful: seq<seq<J.Entry>>)
    ensures Contributions(successful).Ok? ==> |Contributions(successful).value| <= |successful|
  {
    if successful != [] {
      ContributionsBound(successful[..|successful| - 1]);
    }
  }

  /**
   * The runs summary counts every result as a run and the ones with truthy overall_metrics as
   * successful, so successful_runs <= total_runs; it is absent exactly when nothing succeeded,
   * and at most one contribution comes from each successful run.
   */
  lemma AggregateSpec(results: seq<J.Json>, now: real)
    ensures AggregateOf(results, now).Ok? ==>
      var a := AggregateOf(results, now).value;
      && a.batchResults == results
      && (a.summary.None? <==> CountWhere(results, Succeeded) == 0)
      && (a.summary.Some? ==>
        && a.summary.value.totalRuns == |results|
        && a.summary.value.successfulRuns == CountWhere(results, Succeeded)
        && a.summary.value.successfulRuns <= a.summary.value.totalRuns
        && |a.contributions| <= a.summary.value.successfulRuns)
      && (a.summary.None? ==> a.contributions == [])
  {
    SuccessfulResultsSpec(results);
    if SuccessfulResults(results).Ok? {
      ContributionsBound(SuccessfulResults(results).value);
    }
  }

  /** success_rate: the share of the configurations that succeeded, 0 when there are none. */
  function SuccessRate(successful: nat, total: nat): (rate: real)
    ensures total == 0 ==> rate == 0.0
    ensures total != 0 ==> rate * total as real == successful as real
    ensures 0 < successful <= total ==> 0.0 < rate <= 1.0
  {
    if total != 0 then successful as real / total as real else 0.0
  }

  /**
   * The counts of `aggregated_stats` are present exactly when some percentage was collected;
   * they repeat the runs summary's two counts, and success_rate is their quotient, in (0, 1].
   */
  lemma AggregateCounts(results: seq<J.Json>, now: real)
    ensures AggregateOf(results, now).Ok? ==>
      var a := AggregateOf(results, now).value;
      && (a.counts.Some? <==> a.contributions != [])
      && (a.counts.Some? ==>
        && a.summary.Some?
        && a.counts.value.totalConfigurations == a.summary.value.totalRuns
        && a.counts.value.successfulConfigurations == a.summary.value.successfulRuns
        && 0 < a.counts.value.totalConfigurations
        && a.counts.value.successRate * a.counts.value.totalConfigurations as real
           == a.counts.value.successfulConfigurations as real
        && 0.0 < a.counts.value.successRate <= 1.0)
  {
    if AggregateOf(results, now).Ok? {
      SuccessfulResultsSpec(results);
      var successful := SuccessfulResults(results).value;
      if successful != [] {
        var cs := Contributions(successful).value;
        assert AggregateOf(results, now).value.counts
               == if cs != [] then Some(Counts(|results|, |successful|, SuccessRate(|successful|, |results|))) else None;
      }
    }
  }

  /**
   * Once percentages were collected, every one of them must be a number: the first value of
   * the token list, then of the time list, then of the efficiency list, that is not an int, a
   * float or a bool raises the TypeError, and nothing is returned.
   */
  lemma AggregateNonNumeric(results: seq<J.Json>, now: real)
    requires SuccessfulResults(results).Ok? && Contributions(SuccessfulResults(results).value).Ok?
    ensures var cs := Contributions(SuccessfulResults(results).value).value;
      && (AggregateOf(results, now).Ok? <==> AllNumeric(cs))
      && (!(forall i :: 0 <= i < |cs| ==> Numeric(cs[i].tokenReduction)) ==>
           exists i :: 0 <= i < |cs| && AggregateOf(results, now) == Err(NotANumber(cs[i].tokenReduction))
                       && !Numeric(cs[i].tokenReduction)
                       && forall j :: 0 <= j < i ==> Numeric(cs[j].tokenReduction))
  {
    var successful := SuccessfulResults(results).value;
    var cs := Contributions(successful).value;
    ContributionsBound(successful);
    StatsBlockerSpec(cs);
    if successful == [] {
      assert cs == [];
    }
  }

  predicate AllNumeric(cs: seq<Contribution>)
  {
    forall i :: 0 <= i < |cs| ==>
      Numeric(cs[i].tokenReduction) && Numeric(cs[i].timeReduction) && Numeric(cs[i].efficiencyImprovement)
  }

  /** Nothing stops the statistics exactly when every percentage is a number; the token list is checked first. */
  lemma StatsBlockerSpec(cs: seq<Contribution>)
    ensures StatsBlocker(cs).None? <==> AllNumeric(cs)
    ensures !(forall i :: 0 <= i < |cs| ==> Numeric(cs[i].tokenReduction)) ==>
              exists i :: 0 <= i < |cs| && StatsBlocker(cs) == Some(cs[i].tokenReduction)
                          && !Numeric(cs[i].tokenReduction)
                          && forall j :: 0 <= j < i ==> Numeric(cs[j].tokenReduction)
  {
    var tok, tim, eff := TokenReductions(cs), TimeReductions(cs), EfficiencyImprovements(cs);
    assert forall i :: 0 <= i < |cs| ==>
      tok[i] == cs[i].tokenReduction && tim[i] == cs[i].timeReduction && eff[i] == cs[i].efficiencyImprovement;
  }

  /** The comprehension over the results: keep the ones with truthy overall_metrics. */
  method SelectSuccessful(results: seq<J.Json>) returns (r: Result<seq<seq<J.Entry>>>)
    ensures r == SuccessfulResults(results)
  {
    var successful := [];
    for i := 0 to |results|
      invariant SuccessfulResults(results[..i]) == Ok(successful)
    {
      assert results[..i + 1][..i] == results[..i];
      match results[i]
      case Dict(es) =>
        if C.Truthy(J.GetOr(es, "overall_metrics", J.Null)) {
          successful := successful + [es];
        } else {
          assert successful + [] == successful;
        }
      case v =>
        SuccessfulErr(results, i + 1);
        return Err(J.NoGet(v));
    }
    assert results[..|results|] == results;
    r := Ok(successful);
  }

  lemma {:induction false} SuccessfulErr(results: seq<J.Json>, n: nat)
    requires n <= |results| && SuccessfulResults(results[..n]).Err?
    ensures SuccessfulResults(results) == SuccessfulResults(results[..n])
    decreases |results| - n
  {
    if n < |results| {
      assert results[..n + 1][..n] == results[..n];
      SuccessfulErr(results, n + 1);
    } else {
      assert results[..n] == results;
    }
  }

  /** The loop over the successful results appending their percentages. */
  method CollectContributions(successful: seq<seq<J.Entry>>) returns (r: Result<seq<Contribution>>)
    ensures r == Contributions(successful)
  {
    var cs := [];
    for i := 0 to |successful|
      invariant Contributions(successful[..i]) == Ok(cs)
    {
      assert successful[..i + 1][..i] == successful[..i];
      var comparison := J.GetOr(successful[i], "comparison_metrics", J.Dict([]));
      if C.Truthy(comparison) && comparison.Dict? {
        var cm := comparison.entries;
        cs := cs + [Contribution(J.GetOr(cm, "token_reduction_percent", J.Int(0)),
          J.GetOr(cm, "time_reduction_percent", J.Int(0)), J.GetOr(cm, "efficiency_improvement_percent", J.Int(0)))];
      } else if C.Truthy(comparison) {
        ContributionsErr(successful, i + 1);
        return Err(J.NoGet(comparison));
      }
    }
    assert successful[..|successful|] == successful;
    r := Ok(cs);
  }

  lemma {:induction false} ContributionsErr(successful: seq<seq<J.Entry>>, n: nat)
    requires n <= |successful| && Contributions(successful[..n]).Err?
    ensures Contributions(successful) == Contributions(successful[..n])
    decreases |successful| - n
  {
    if n < |successful| {
      assert successful[..n + 1][..n] == successful[..n];
      ContributionsErr(successful, n + 1);
    } else {
      assert successful[..n] == successful;
    }
  }

  /** `_aggregate_batch_data`, with the clock reading as a parameter. */
  method AggregateBatchData(results: seq<J.Json>, now: real) returns (r: Result<Aggregate>)
    ensures r == AggregateOf(results, now)
  {
    var successful := SelectSuccessful(results);
    if successful.Err? {
      return Err(successful.msg);
    }
    if successful.value == [] {
      return Ok(Aggregate(results, [], None, None));
    }
    var cs := CollectContributions(successful.value);
    if cs.Err? {
      return Err(cs.msg);
    }
    var blocker := StatsBlocker(cs.value);
    if blocker.Some? {
      return Err(NotANumber(blocker.value));
    }
    var counts := if cs.value != [] then Some(Counts(|results|, |successful.value|, SuccessRate(|successful.value|, |results|))) else None;
    r := Ok(Aggregate(results, cs.value, counts, Some(RunSummary(|results|, |successful.value|, now))));
  }

  // ---------------------------------------------------------------- generate_report

  const UnsupportedYaml := "ValueError: Unsupported format: OutputFormat.YAML"

  /** The file name without its extension: the given one, or "benchmark_<profile>_<timestamp>". */
  function ReportName(data: seq<J.Entry>, filename: Option<string>, timestamp: string, repr: J.Json -> string): Result<string>
  {
    match filename
    case Some(f) => Ok(f)
    case None =>
      match J.GetOr(data, "benchmark_info", J.Dict([]))
      case Dict(info) => Ok("benchmark_" + J.Show(J.GetOr(info, "profile", J.Str(Unknown)), repr) + "_" + timestamp)
      case v => Err(J.NoGet(v))
  }

  /**
   * `generate_report`: the path written for the file formats, the text itself for the console.
   * The Markdown and console renderers are parameters that may fail (they raise when
   * "benchmark_info" is not a dict or "profile" is not a string); the JSON rendering never fails,
   * the CSV report is the one above, and the file write is assumed to succeed.
   */
  function GenerateReport(outputDir: string, data: seq<J.Entry>, format: C.OutputFormat, filename: Option<string>,
                          timestamp: string, markdown: seq<J.Entry> -> Result<string>, console: seq<J.Entry> -> Result<string>, repr: J.Json -> string): Result<string>
  {
    match ReportName(data, filename, timestamp, repr)
    case Err(e) => Err(e)
    case Ok(name) =>
      var path := outputDir + "/" + name + "." + C.FormatValue(format);
      match format
      case JsonOutput => Ok(path)
      case MarkdownOutput => (match markdown(data) case Ok(_) => Ok(path) case Err(e) => Err(e))
      case CsvOutput => (match CsvReport(data, repr) case Ok(_) => Ok(path) case Err(e) => Err(e))
      case ConsoleOutput => console(data)
      case YamlOutput => Err(UnsupportedYaml)
  }

  /** Any format outside JSON, Markdown, CSV and console, which leaves YAML, raises ValueError. */
  lemma ReportYaml(outputDir: string, data: seq<J.Entry>, filename: Option<string>, timestamp: string,
                   markdown: seq<J.Entry> -> Result<string>, console: seq<J.Entry> -> Result<string>, repr: J.Json -> string)
    ensures GenerateReport(outputDir, data, C.YamlOutput, filename, timestamp, markdown, console, repr).Err?
    ensures filename.Some? ==> GenerateReport(outputDir, data, C.YamlOutput, filename, timestamp, markdown, console, repr) == Err(UnsupportedYaml)
  {
  }

  /** The console format returns the report text, or the renderer's error, and writes nothing. */
  lemma ReportConsole(outputDir: string, data: seq<J.Entry>, filename: Option<string>, timestamp: string,
                      markdown: seq<J.Entry> -> Result<string>, console: seq<J.Entry> -> Result<string>, repr: J.Json -> string)
    requires ReportName(data, filename, timestamp, repr).Ok?
    ensures GenerateReport(outputDir, data, C.ConsoleOutput, filename, timestamp, markdown, console, repr) == console(data)
  {
  }

  /** A Markdown renderer that raises makes the report raise, and nothing is written. */
  lemma ReportMarkdownError(outputDir: string, data: seq<J.Entry>, filename: Option<string>, timestamp: string,
                            markdown: seq<J.Entry> -> Result<string>, console: seq<J.Entry> -> Result<string>, repr: J.Json -> string)
    requires ReportName(data, filename, timestamp, repr).Ok? && markdown(data).Err?
    ensures GenerateReport(outputDir, data, C.MarkdownOutput, filename, timestamp, markdown, console, repr) == Err(markdown(data).msg)
  {
  }

  /**
   * A file format returns the path "<output dir>/<name>.<format value>", where the name is the
   * one given or "benchmark_<profile>_<timestamp>".
   */
  lemma ReportPath(outputDir: string, data: seq<J.Entry>, format: C.OutputFormat, filename: Option<string>,
                   timestamp: string, markdown: seq<J.Entry> -> Result<string>, console: seq<J.Entry> -> Result<string>, repr: J.Json -> string)
    requires format != C.ConsoleOutput
    requires GenerateReport(outputDir, data, format, filename, timestamp, markdown, console, repr).Ok?
    ensures format != C.YamlOutput
    ensures exists name ::
      && GenerateReport(outputDir, data, format, filename, timestamp, markdown, console, repr)
        == Ok(outputDir + "/" + name + "." + C.FormatValue(format))
      && (filename.Some? ==> name == filename.value)
      && (filename.None? ==> exists profile :: name == "benchmark_" + profile + "_" + timestamp)
  {
    var name := ReportName(data, filename, timestamp, repr).value;
    if filename.None? {
      var profile := J.Show(J.GetOr(J.GetOr(data, "benchmark_info", J.Dict([])).entries, "profile", J.Str(Unknown)), repr);
      assert name == "benchmark_" + profile + "_" + timestamp;
    }
    assert GenerateReport(outputDir, data, format, filename, timestamp, markdown, console, repr)
      == Ok(outputDir + "/" + name + "." + C.FormatValue(format));
  }

  /** With no profile recorded, the default name is "benchmark_unknown_<timestamp>". */
  lemma DefaultReportName(data: seq<J.Entry>, timestamp: string, repr: J.Json -> string)
    requires !J.HasKey(data, "benchmark_info")
    ensures ReportName(data, None, timestamp, repr) == Ok("benchmark_" + Unknown + "_" + timestamp)
  {
  }
}
