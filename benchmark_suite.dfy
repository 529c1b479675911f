/**
 * The comparison step of the standardized benchmark suite: task results are grouped by task and
 * model, each group with a baseline result and at least one tools result is compared, the tools
 * results being averaged first, and the comparison gives the percentage reductions of tokens
 * and time. Values read from the metrics dicts are JSON values, so the `TypeError`s Python
 * raises for non-numeric values are modelled.
 */
module BenchmarkSuite {
  import opened Common
  import J = JsonText
  import D = Dicts

  /** A task result: the keys `_generate_comparisons` reads from it. */
  datatype TaskResult = TaskResult(taskId: string, model: string, approach: string, metrics: seq<J.Entry>)

  const BaselineApproach := "baseline"
  const TokensKey := "total_tokens"
  const TimeKey := "execution_time"

  predicate IsBaseline(r: TaskResult)
  {
    r.approach == BaselineApproach
  }

  /** `f"{task_id}_{model}"`. */
  function GroupKey(r: TaskResult): string
  {
    r.taskId + "_" + r.model
  }

  /** A metrics value, `0` when the key is missing. */
  function Field(metrics: seq<J.Entry>, key: string): J.Json
  {
    J.GetOr(metrics, key, J.Int(0))
  }

  // ---------------------------------------------------------------- numbers

  /** The numeric value of an `int`, `float` or `bool`; nothing for the other types. */
  function Number(v: J.Json): Option<real>
  {
    match v
    case Bool(b) => Some(if b then 1.0 else 0.0)
    case Int(n) => Some(n as real)
    case Float(x) => Some(x)
    case _ => None
  }

  predicate IntLike(v: J.Json)
  {
    v.Int? || v.Bool?
  }

  function IntValue(v: J.Json): int
    requires IntLike(v)
  {
    if v.Int? then v.n else if v.b then 1 else 0
  }

  /** The `TypeError` of a binary operator applied to a non-number. */
  function OperandError(op: string, a: J.Json, b: J.Json): string
  {
    "TypeError: unsupported operand type(s) for " + op + ": '" + J.TypeName(a) + "' and '" + J.TypeName(b) + "'"
  }

  /** Python's `a + b` on JSON numbers: an `int` for two integers, a `float` otherwise. */
  function Plus(a: J.Json, b: J.Json): (r: Result<J.Json>)
    ensures r.Ok? <==> Number(a).Some? && Number(b).Some?
    ensures r.Ok? ==> (r.value.Int? || r.value.Float?) && Number(r.value) == Some(Number(a).value + Number(b).value)
  {
    if Number(a).None? || Number(b).None? then Err(OperandError("+", a, b))
    else if IntLike(a) && IntLike(b) then Ok(J.Int(IntValue(a) + IntValue(b)))
    else Ok(J.Float(Number(a).value + Number(b).value))
  }

  // ---------------------------------------------------------------- _calculate_reduction

  /** `baseline == 0` in Python: true for `0`, `0.0` and `False`, false for every non-number. */
  predicate IsZero(v: J.Json)
  {
    Number(v) == Some(0.0)
  }

  /** `_calculate_reduction`: 0 for a zero baseline, else the reduction in percent. */
  function CalculateReduction(baseline: J.Json, tools: J.Json): Result<real>
  {
    if IsZero(baseline) then Ok(0.0)
    else if Number(baseline).None? || Number(tools).None? then Err(OperandError("-", baseline, tools))
    else
      var b := Number(baseline).value;
      Ok((b - Number(tools).value) / b * 100.0)
  }

  /**
   * A zero baseline gives 0; otherwise two numbers give the reduction `r` with
   * `r * b == (b - t) * 100`, positive for a positive baseline exactly when the tools figure is
   * smaller, and anything else is the `TypeError` of the subtraction.
   */
  lemma CalculateReductionSpec(baseline: J.Json, tools: J.Json)
    ensures IsZero(baseline) ==> CalculateReduction(baseline, tools) == Ok(0.0)
    ensures !IsZero(baseline) && (Number(baseline).None? || Number(tools).None?) ==>
      CalculateReduction(baseline, tools) == Err(OperandError("-", baseline, tools))
    ensures !IsZero(baseline) && Number(baseline).Some? && Number(tools).Some? ==>
      var b := Number(baseline).value;
      var t := Number(tools).value;
      && CalculateReduction(baseline, tools).Ok?
      && CalculateReduction(baseline, tools).value * b == (b - t) * 100.0
      && (b > 0.0 ==> (CalculateReduction(baseline, tools).value > 0.0 <==> t < b))
  {
  }

  // ---------------------------------------------------------------- _average_tool_results

  /** `sum(r["metrics"].get(key, 0) for r in ts)`, which starts from the integer 0. */
  function SumField(ts: seq<TaskResult>, key: string): (r: Result<J.Json>)
    ensures r.Ok? ==> r.value.Int? || r.value.Float?
  {
    if ts == [] then Ok(J.Int(0))
    else
      match SumField(ts[..|ts| - 1], key)
      case Err(e) => Err(e)
      case Ok(acc) => Plus(acc, Field(ts[|ts| - 1].metrics, key))
  }

  /** The values are all numbers. */
  predicate Numeric(ts: seq<TaskResult>, key: string)
  {
    forall i :: 0 <= i < |ts| ==> Number(Field(ts[i].metrics, key)).Some?
  }

  /** The arithmetic sum of the values, reading a non-number as 0. */
  function FieldTotal(ts: seq<TaskResult>, key: string): real
  {
    if ts == [] then 0.0
    else
      var v := Number(Field(ts[|ts| - 1].metrics, key));
      FieldTotal(ts[..|ts| - 1], key) + if v.Some? then v.value else 0.0
  }

  /** The sum succeeds exactly when every value is a number, and is then the arithmetic sum. */
  lemma {:induction false} SumFieldSpec(ts: seq<TaskResult>, key: string)
    ensures SumField(ts, key).Ok? <==> Numeric(ts, key)
    ensures SumField(ts, key).Ok? ==> Number(SumField(ts, key).value) == Some(FieldTotal(ts, key))
  {
    if ts != [] {
      var n := |ts| - 1;
      SumFieldSpec(ts[..n], key);
      assert forall i :: 0 <= i < n ==> ts[..n][i] == ts[i];
      if !Numeric(ts[..n], key) {
        var i :| 0 <= i < n && Number(Field(ts[..n][i].metrics, key)).None?;
        assert Number(Field(ts[i].metrics, key)).None?;
      }
    }
  }

  /**
   * `_average_tool_results`, as the metrics dict of the dict it returns: `{}` for no results,
   * the one result's own metrics, or the means of the tokens and times.
   */
  function AverageToolResults(ts: seq<TaskResult>): Result<seq<J.Entry>>
  {
    if ts == [] then Ok([])
    else if |ts| == 1 then Ok(ts[0].metrics)
    else
      match SumField(ts, TokensKey)
      case Err(e) => Err(e)
      case Ok(tokens) =>
        match SumField(ts, TimeKey)
        case Err(e) => Err(e)
        case Ok(time) =>
          Ok([J.Entry(TokensKey, J.Float(MeanOf(Number(tokens).value, |ts|))),
              J.Entry(TimeKey, J.Float(MeanOf(Number(time).value, |ts|)))])
  }

  /**
   * No results give `{}`, one result gives its own metrics, and more than one give a result
   * exactly when all their token and time values are numbers.
   */
  lemma AverageToolResultsSpec(ts: seq<TaskResult>)
    ensures ts == [] ==> AverageToolResults(ts) == Ok([])
    ensures |ts| == 1 ==> AverageToolResults(ts) == Ok(ts[0].metrics)
    ensures |ts| >= 2 ==> (AverageToolResults(ts).Ok? <==> Numeric(ts, TokensKey) && Numeric(ts, TimeKey))
  {
    SumFieldSpec(ts, TokensKey);
    SumFieldSpec(ts, TimeKey);
  }

  /**
   * For two or more results with numeric values, the result holds the token mean and then the
   * time mean, each the arithmetic sum of its values divided by the count.
   */
  lemma AverageToolResultsMeans(ts: seq<TaskResult>)
    requires |ts| >= 2 && Numeric(ts, TokensKey) && Numeric(ts, TimeKey)
    ensures AverageToolResults(ts) ==
      Ok([J.Entry(TokensKey, J.Float(MeanOf(FieldTotal(ts, TokensKey), |ts|))),
          J.Entry(TimeKey, J.Float(MeanOf(FieldTotal(ts, TimeKey), |ts|)))])
  {
    SumFieldSpec(ts, TokensKey);
    SumFieldSpec(ts, TimeKey);
  }

  /** `total / count` in the source's floating division, as a real. */
  function MeanOf(total: real, count: nat): (r: real)
    requires count > 0
    ensures r * count as real == total
  {
    total / count as real
  }

  // ---------------------------------------------------------------- grouping

  /** A group: the last baseline result, and the tools results in order. */
  datatype Group = Group(baseline: Option<TaskResult>, tools: seq<TaskResult>)

  const NewGroup := Group(None, [])

  /** One result filed into its group. */
  function Place(g: Group, r: TaskResult): Group
  {
    if IsBaseline(r) then g.(baseline := Some(r)) else g.(tools := g.tools + [r])
  }

  /** The `grouped` dict after the given results. */
  function Grouped(rs: seq<TaskResult>): D.Dict<string, Group>
  {
    if rs == [] then []
    else
      var prev := Grouped(rs[..|rs| - 1]);
      var r := rs[|rs| - 1];
      D.Set(prev, GroupKey(r), Place(D.GetOr(prev, GroupKey(r), NewGroup), r))
  }

  function ResultKeys(rs: seq<TaskResult>): (r: seq<string>)
    ensures |r| == |rs| && forall i :: 0 <= i < |rs| ==> r[i] == GroupKey(rs[i])
  {
    seq(|rs|, i requires 0 <= i < |rs| => GroupKey(rs[i]))
  }

  /** The last baseline result with key `k`. */
  function LastBaseline(rs: seq<TaskResult>, k: string): Option<TaskResult>
  {
    if rs == [] then None
    else if GroupKey(rs[|rs| - 1]) == k && IsBaseline(rs[|rs| - 1]) then Some(rs[|rs| - 1])
    else LastBaseline(rs[..|rs| - 1], k)
  }

  /** The tools results with key `k`, in order. */
  function ToolsFor(rs: seq<TaskResult>, k: string): seq<TaskResult>
  {
    if rs == [] then []
    else if GroupKey(rs[|rs| - 1]) == k && !IsBaseline(rs[|rs| - 1]) then ToolsFor(rs[..|rs| - 1], k) + [rs[|rs| - 1]]
    else ToolsFor(rs[..|rs| - 1], k)
  }

  lemma {:induction false} AbsentKey(rs: seq<TaskResult>, k: string)
    requires k !in ResultKeys(rs)
    ensures LastBaseline(rs, k) == None && ToolsFor(rs, k) == []
  {
    if rs != [] {
      var n := |rs| - 1;
      assert ResultKeys(rs[..n]) == ResultKeys(rs)[..n];
      AbsentKey(rs[..n], k);
    }
  }

  /**
   * Grouping keeps one entry per key of the results, holding that key's last baseline result
   * and all its tools results in order.
   */
  lemma {:induction false} GroupedSpec(rs: seq<TaskResult>, k: string)
    ensures D.UniqueKeys(Grouped(rs))
    ensures D.Get(Grouped(rs), k) == if k in ResultKeys(rs) then Some(Group(LastBaseline(rs, k), ToolsFor(rs, k))) else None
  {
    if rs != [] {
      var n := |rs| - 1;
      var prev := Grouped(rs[..n]);
      var r := rs[n];
      var key := GroupKey(r);
      var placed := Place(D.GetOr(prev, key, NewGroup), r);
      GroupedSpec(rs[..n], k);
      GroupedSpec(rs[..n], key);
      D.SetUnique(prev, key, placed);
      D.GetSet(prev, key, placed, k);
      assert ResultKeys(rs) == ResultKeys(rs[..n]) + [key];
      if k == key && k !in ResultKeys(rs[..n]) {
        AbsentKey(rs[..n], k);
      }
    }
  }

  // ---------------------------------------------------------------- comparisons

  datatype Comparison = Comparison(
    taskId: string,
    model: string,
    tokenReductionPercent: real,
    timeReductionPercent: real,
    baselineMetrics: seq<J.Entry>,
    toolsMetrics: seq<J.Entry>)

  /** `group["baseline"] and group["tools"]`: a result dict is never empty, so only presence counts. */
  predicate Eligible(g: Group)
  {
    g.baseline.Some? && g.tools != []
  }

  /** The comparison of one eligible group, in the order Python evaluates it. */
  function CompareGroup(g: Group): Result<Comparison>
    requires Eligible(g)
  {
    var b := g.baseline.value;
    match AverageToolResults(g.tools)
    case Err(e) => Err(e)
    case Ok(avg) =>
      match CalculateReduction(Field(b.metrics, TokensKey), Field(avg, TokensKey))
      case Err(e) => Err(e)
      case Ok(tokens) =>
        match CalculateReduction(Field(b.metrics, TimeKey), Field(avg, TimeKey))
        case Err(e) => Err(e)
        case Ok(time) => Ok(Comparison(b.taskId, b.model, tokens, time, b.metrics, avg))
  }

  /** The `comparisons` dict after the given groups; the first exception ends it. */
  function Comparisons(gs: D.Dict<string, Group>): Result<D.Dict<string, Comparison>>
  {
    if gs == [] then Ok([])
    else
      match Comparisons(gs[..|gs| - 1])
      case Err(e) => Err(e)
      case Ok(cs) =>
        var (k, g) := gs[|gs| - 1];
        if !Eligible(g) then Ok(cs)
        else
          match CompareGroup(g)
          case Err(e) => Err(e)
          case Ok(c) => Ok(D.Set(cs, k, c))
  }

  /** `_generate_comparisons`. */
  function GenerateComparisonsOf(rs: seq<TaskResult>): Result<D.Dict<string, Comparison>>
  {
    Comparisons(Grouped(rs))
  }

  /** Once the comparisons of a prefix fail, so do those of the whole dict, with the same error. */
  lemma {:induction false} ComparisonsErr(gs: D.Dict<string, Group>, k: nat)
    requires k <= |gs| && Comparisons(gs[..k]).Err?
    ensures Comparisons(gs) == Comparisons(gs[..k])
    decreases |gs| - k
  {
    if k < |gs| {
      assert gs[..k + 1][..k] == gs[..k];
      ComparisonsErr(gs, k + 1);
    } else {
      assert gs[..k] == gs;
    }
  }

  /**
   * Over groups with distinct keys, the comparisons hold exactly the eligible groups' keys,
   * each with its group's comparison.
   */
  lemma {:induction false} ComparisonsSpec(gs: D.Dict<string, Group>, q: string)
    requires D.UniqueKeys(gs)
    requires Comparisons(gs).Ok?
    ensures match D.Get(gs, q)
      case None => D.Get(Comparisons(gs).value, q) == None
      case Some(g) =>
        && (Eligible(g) ==> CompareGroup(g).Ok? && D.Get(Comparisons(gs).value, q) == Some(CompareGroup(g).value))
        && (!Eligible(g) ==> D.Get(Comparisons(gs).value, q) == None)
  {
    if gs != [] {
      var n := |gs| - 1;
      var p := gs[..n];
      var (k, g) := gs[n];
      assert gs == p + [(k, g)];
      D.KeysAppend(p, k, g);
      assert D.Keys(p) == D.Keys(gs)[..n];
      assert D.UniqueKeys(p);
      assert k !in D.Keys(p);
      D.GetSpec(p, k);
      D.GetAppend(p, k, g, q);
      ComparisonsSpec(p, q);
      var cs := Comparisons(p).value;
      if Eligible(g) {
        D.GetSet(cs, k, CompareGroup(g).value, q);
        if q == k {
          ComparisonsNone(p, k);
        }
      }
    }
  }

  /** A key absent from the groups is absent from their comparisons. */
  lemma {:induction false} ComparisonsNone(gs: D.Dict<string, Group>, q: string)
    requires Comparisons(gs).Ok? && q !in D.Keys(gs)
    ensures D.Get(Comparisons(gs).value, q) == None
  {
    if gs != [] {
      var n := |gs| - 1;
      var p := gs[..n];
      var (k, g) := gs[n];
      assert D.Keys(p) == D.Keys(gs)[..n];
      ComparisonsNone(p, q);
      if Eligible(g) && CompareGroup(g).Ok? {
        D.GetSet(Comparisons(p).value, k, CompareGroup(g).value, q);
      }
    }
  }

  /**
   * `_generate_comparisons` on the results: a key has a comparison exactly when it has a
   * baseline result and at least one tools result, and the comparison is that of its last
   * baseline against all its tools results.
   */
  lemma GenerateComparisonsSpec(rs: seq<TaskResult>, k: string)
    requires GenerateComparisonsOf(rs).Ok?
    ensures var cs := GenerateComparisonsOf(rs).value;
      var g := Group(LastBaseline(rs, k), ToolsFor(rs, k));
      && (D.Get(cs, k).Some? <==> LastBaseline(rs, k).Some? && ToolsFor(rs, k) != [])
      && (D.Get(cs, k).Some? ==> CompareGroup(g).Ok? && D.Get(cs, k) == Some(CompareGroup(g).value))
  {
    GroupedSpec(rs, k);
    ComparisonsSpec(Grouped(rs), k);
    if k !in ResultKeys(rs) {
      AbsentKey(rs, k);
    }
  }

  /**
   * Metrics dicts shaped like a metrics summary, with the time under `execution_time` as a
   * nested dict and no `total_tokens` key, make every comparison fail: on the time subtraction,
   * or earlier when averaging the tool results already fails.
   */
  lemma NestedMetricsRaise(g: Group)
    requires Eligible(g)
    requires !J.HasKey(g.baseline.value.metrics, TokensKey)
    requires Field(g.baseline.value.metrics, TimeKey).Dict?
    ensures CompareGroup(g).Err?
  {
  }

  // ---------------------------------------------------------------- the loops

  /** The grouping loop of `_generate_comparisons`. */
  method GroupResults(rs: seq<TaskResult>) returns (grouped: D.Dict<string, Group>)
    ensures grouped == Grouped(rs)
  {
    grouped := [];
    for i := 0 to |rs|
      invariant grouped == Grouped(rs[..i])
    {
      assert rs[..i + 1][..i] == rs[..i];
      var r := rs[i];
      var key := GroupKey(r);
      // a key seen for the first time starts with no baseline and no tools
      var group := D.GetOr(grouped, key, NewGroup);
      if IsBaseline(r) {
        group := group.(baseline := Some(r));
      } else {
        group := group.(tools := group.tools + [r]);
      }
      grouped := D.Set(grouped, key, group);
    }
    assert rs[..|rs|] == rs;
  }

  /** `_generate_comparisons`: the result `GenerateComparisonsOf` gives. */
  method GenerateComparisons(rs: seq<TaskResult>) returns (r: Result<D.Dict<string, Comparison>>)
    ensures r == GenerateComparisonsOf(rs)
  {
    var grouped := GroupResults(rs);
    var comparisons: D.Dict<string, Comparison> := [];
    for i := 0 to |grouped|
      invariant Comparisons(grouped[..i]) == Ok(comparisons)
    {
      assert grouped[..i + 1][..i] == grouped[..i];
      var (key, group) := grouped[i];
      if Eligible(group) {
        var c := CompareGroup(group);
        if c.Err? {
          ComparisonsErr(grouped, i + 1);
          return Err(c.msg);
        }
        comparisons := D.Set(comparisons, key, c.value);
      }
    }
    assert grouped[..|grouped|] == grouped;
    r := Ok(comparisons);
  }
}
