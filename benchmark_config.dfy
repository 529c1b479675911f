// Benchmark configuration: validated records, defaults, the pyproject
// `[tool.ai-dev-tools.benchmark]` merge and the runtime checks
// (src/ai_dev_tools/benchmark/config.py).

module BenchmarkConfig {
  import opened Common
  import opened Dicts
  import J = JsonText

  datatype HardwareProfile = Light | Medium | Heavy

  /** The members of `HardwareProfile` in declaration order, as `for profile in HardwareProfile` visits them. */
  const AllProfiles: seq<HardwareProfile> := [Light, Medium, Heavy]

  function ProfileValue(p: HardwareProfile): string
  {
    match p
    case Light => "light"
    case Medium => "medium"
    case Heavy => "heavy"
  }

  /** How an f-string shows a `(str, Enum)` member on the Python versions that have `tomllib`. */
  function ProfileLabel(p: HardwareProfile): string
  {
    match p
    case Light => "HardwareProfile.LIGHT"
    case Medium => "HardwareProfile.MEDIUM"
    case Heavy => "HardwareProfile.HEAVY"
  }

  /** `HardwareProfile(s)`, None where it raises ValueError. */
  function ParseProfile(s: string): (r: Option<HardwareProfile>)
  {
    if s == "light" then Some(Light)
    else if s == "medium" then Some(Medium)
    else if s == "heavy" then Some(Heavy)
    else None
  }

  /** Parsing accepts exactly the three values and inverts `ProfileValue`. */
  lemma ParseProfileSpec(s: string, p: HardwareProfile)
    ensures ParseProfile(ProfileValue(p)) == Some(p)
    ensures ParseProfile(s) == Some(p) <==> s == ProfileValue(p)
    ensures ParseProfile(s).None? <==> forall q :: ProfileValue(q) != s
  {
    assert ProfileValue(Light) == "light" && ProfileValue(Medium) == "medium" && ProfileValue(Heavy) == "heavy";
  }

  datatype ExecutionMode = Sequential | Parallel | Async

  function ParseExecutionMode(s: string): Option<ExecutionMode>
  {
    if s == "sequential" then Some(Sequential)
    else if s == "parallel" then Some(Parallel)
    else if s == "async" then Some(Async)
    else None
  }

  datatype OutputFormat = JsonOutput | YamlOutput | MarkdownOutput | CsvOutput | ConsoleOutput

  function FormatValue(f: OutputFormat): string
  {
    match f
    case JsonOutput => "json"
    case YamlOutput => "yaml"
    case MarkdownOutput => "markdown"
    case CsvOutput => "csv"
    case ConsoleOutput => "console"
  }

  function ParseOutputFormat(s: string): (r: Option<OutputFormat>)
    ensures r.Some? ==> FormatValue(r.value) == s
  {
    if s == "json" then Some(JsonOutput)
    else if s == "yaml" then Some(YamlOutput)
    else if s == "markdown" then Some(MarkdownOutput)
    else if s == "csv" then Some(CsvOutput)
    else if s == "console" then Some(ConsoleOutput)
    else None
  }

  datatype WorkflowType = PatternAnalysis | SafetyCheck | ContextAnalysis | SystematicFix | RepoAnalysis

  function WorkflowValue(w: WorkflowType): string
  {
    match w
    case PatternAnalysis => "pattern_analysis"
    case SafetyCheck => "safety_check"
    case ContextAnalysis => "context_analysis"
    case SystematicFix => "systematic_fix"
    case RepoAnalysis => "repo_analysis"
  }

  // ------------------------------------------------------------ model instances

  datatype ModelInstance = ModelInstance(name: string, model: string, host: string, port: int, timeout: int, maxConcurrent: int)

  /** What a constructed `ModelInstance` always satisfies. */
  predicate ValidInstance(m: ModelInstance)
  {
    !IsBlank(m.name) && Strip(m.name) == m.name
    && 1 <= m.port <= 65535 && m.timeout >= 1 && m.maxConcurrent >= 1
  }

  /** `ModelInstance(...)`: the field bounds and the name validator, Err for a ValidationError. */
  function NewModelInstance(name: string, model: string, host: string := "localhost", port: int,
                            timeout: int := 30, maxConcurrent: int := 3): (r: Result<ModelInstance>)
  {
    if IsBlank(name) then Err("Model instance name cannot be empty")
    else if !(1 <= port <= 65535) then Err("port: value must be between 1 and 65535")
    else if timeout < 1 then Err("timeout: value must be at least 1")
    else if maxConcurrent < 1 then Err("max_concurrent: value must be at least 1")
    else Ok(ModelInstance(Strip(name), model, host, port, timeout, maxConcurrent))
  }

  /**
   * Construction succeeds iff the name is not blank and the bounds hold; it stores the name
   * stripped and every other field as given, and what it builds is valid.
   */
  lemma NewModelInstanceSpec(name: string, model: string, host: string, port: int, timeout: int, maxConcurrent: int)
    ensures var r := NewModelInstance(name, model, host, port, timeout, maxConcurrent);
      (r.Ok? <==> !IsBlank(name) && 1 <= port <= 65535 && timeout >= 1 && maxConcurrent >= 1)
      && (r.Ok? ==>
            ValidInstance(r.value) && r.value.name == Strip(name)
            && r.value.(name := name) == ModelInstance(name, model, host, port, timeout, maxConcurrent))
  {
    StripBlank(name);
    StripIdempotent(name);
    StripBlank(Strip(name));
  }

  /** Re-validating a valid instance gives it back unchanged. */
  lemma NewModelInstanceValid(m: ModelInstance)
    requires ValidInstance(m)
    ensures NewModelInstance(m.name, m.model, m.host, m.port, m.timeout, m.maxConcurrent) == Ok(m)
  {
  }

  /** The `url` property. */
  function Url(m: ModelInstance): string
  {
    "http://" + m.host + ":" + IntToString(m.port)
  }

  /** The URL splits back, at its last ':', into the host and the port's digits. */
  lemma UrlSplit(m: ModelInstance)
    requires m.port >= 0
    ensures var u := Url(m); var c := 7 + |m.host|;
      u[..7] == "http://" && u[7..c] == m.host && u[c] == ':'
      && u[c + 1..] == NatToString(m.port) && LastIndex(u, ':') == c
  {
    var u := Url(m);
    var c := 7 + |m.host|;
    var digits := NatToString(m.port);
    assert u == "http://" + m.host + ":" + digits;
    assert u[c + 1..] == digits;
    assert forall i :: c < i < |u| ==> u[i] == digits[i - c - 1];
    assert LastIndex(u, ':') == c by {
      var r := LastIndex(u, ':');
      assert u[c] == ':';
      assert r >= c;
    }
  }

  // ------------------------------------------------------------ batch configurations

  datatype BatchConfiguration = BatchConfiguration(name: string, profile: HardwareProfile, sampleSize: int,
                                                   repetitions: int, description: string, timeout: int)

  predicate ValidBatch(b: BatchConfiguration)
  {
    1 <= b.sampleSize <= 100 && 1 <= b.repetitions <= 50 && b.timeout >= 30
  }

  /** `BatchConfiguration(...)`: Ok iff the field bounds hold. */
  function NewBatch(name: string, profile: HardwareProfile, sampleSize: int, repetitions: int := 1,
                    description: string := "", timeout: int := 300): (r: Result<BatchConfiguration>)
    ensures r.Ok? <==> 1 <= sampleSize <= 100 && 1 <= repetitions <= 50 && timeout >= 30
    ensures r.Ok? ==> ValidBatch(r.value) && r.value == BatchConfiguration(name, profile, sampleSize, repetitions, description, timeout)
  {
    if !(1 <= sampleSize <= 100) then Err("sample_size: value must be between 1 and 100")
    else if !(1 <= repetitions <= 50) then Err("repetitions: value must be between 1 and 50")
    else if timeout < 30 then Err("timeout: value must be at least 30")
    else Ok(BatchConfiguration(name, profile, sampleSize, repetitions, description, timeout))
  }

  /** `_create_default_batch_configs`. */
  function DefaultBatchConfigs(): Dict<string, BatchConfiguration>
  {
    [("quick", BatchConfiguration("quick", Light, 2, 1, "Quick validation (2 samples)", 300)),
     ("standard", BatchConfiguration("standard", Medium, 8, 1, "Standard benchmarking (8 samples)", 600)),
     ("comprehensive", BatchConfiguration("comprehensive", Heavy, 20, 1, "Comprehensive analysis (20 samples)", 1200)),
     ("scaling", BatchConfiguration("scaling", Medium, 5, 3, "Model scaling test (5 samples \U{D7} 3 runs)", 900))]
  }

  /** Every default batch passes validation and is stored under its own name. */
  lemma DefaultBatchesValid()
    ensures UniqueKeys(DefaultBatchConfigs())
    ensures forall i :: 0 <= i < |DefaultBatchConfigs()| ==>
      ValidBatch(DefaultBatchConfigs()[i].1) && DefaultBatchConfigs()[i].1.name == DefaultBatchConfigs()[i].0
  {
    var d := DefaultBatchConfigs();
    assert Keys(d) == ["quick", "standard", "comprehensive", "scaling"];
  }

  // ------------------------------------------------------------ the configuration

  datatype BenchmarkConfig = BenchmarkConfig(
    profiles: Dict<HardwareProfile, seq<ModelInstance>>,
    sampleSizes: Dict<HardwareProfile, int>,
    executionMode: ExecutionMode,
    maxConcurrentBatches: int,
    outputFormat: OutputFormat,
    outputDirectory: string,
    dockerComposeFile: string,
    containerStartupTimeout: int,
    batchConfigurations: Dict<string, BatchConfiguration>,
    taskTimeout: int,
    retryAttempts: int)

  /** `validate_profiles`: the first profile, in declaration order, without instances or a sample size. */
  function ValidateProfiles(profiles: Dict<HardwareProfile, seq<ModelInstance>>, sampleSizes: Dict<HardwareProfile, int>,
                            ps: seq<HardwareProfile>): Result<()>
  {
    if ps == [] then Ok(())
    else
      var p := ps[0];
      match Get(profiles, p)
      case None => Err("Missing configuration for profile: " + ProfileLabel(p))
      case Some(instances) =>
        if instances == [] then Err("Empty model instances for profile: " + ProfileLabel(p))
        else if Get(sampleSizes, p).None? then Err("Missing sample size for profile: " + ProfileLabel(p))
        else ValidateProfiles(profiles, sampleSizes, ps[1..])
  }

  predicate ProfilesComplete(profiles: Dict<HardwareProfile, seq<ModelInstance>>, sampleSizes: Dict<HardwareProfile, int>)
  {
    forall p :: Get(profiles, p).Some? && Get(profiles, p).value != [] && Get(sampleSizes, p).Some?
  }

  lemma {:induction false} ValidateProfilesAmong(profiles: Dict<HardwareProfile, seq<ModelInstance>>,
                                                 sampleSizes: Dict<HardwareProfile, int>, ps: seq<HardwareProfile>)
    ensures ValidateProfiles(profiles, sampleSizes, ps).Ok? <==>
      forall i :: 0 <= i < |ps| ==> Get(profiles, ps[i]).Some? && Get(profiles, ps[i]).value != [] && Get(sampleSizes, ps[i]).Some?
  {
    if ps != [] {
      ValidateProfilesAmong(profiles, sampleSizes, ps[1..]);
      assert forall i :: 1 <= i < |ps| ==> ps[i] == ps[1..][i - 1];
    }
  }

  /** The validator accepts a configuration iff all three profiles have instances and a sample size. */
  lemma ValidateProfilesSpec(profiles: Dict<HardwareProfile, seq<ModelInstance>>, sampleSizes: Dict<HardwareProfile, int>)
    ensures ValidateProfiles(profiles, sampleSizes, AllProfiles).Ok? <==> ProfilesComplete(profiles, sampleSizes)
  {
    ValidateProfilesAmong(profiles, sampleSizes, AllProfiles);
    if ValidateProfiles(profiles, sampleSizes, AllProfiles).Ok? {
      forall p ensures Get(profiles, p).Some? && Get(profiles, p).value != [] && Get(sampleSizes, p).Some? {
        assert p == AllProfiles[if p == Light then 0 else if p == Medium then 1 else 2];
      }
    }
  }

  predicate FieldsInRange(c: BenchmarkConfig)
  {
    1 <= c.maxConcurrentBatches <= 10 && c.containerStartupTimeout >= 30
    && c.taskTimeout >= 5 && 1 <= c.retryAttempts <= 10
  }

  /** What every constructed `BenchmarkConfig` satisfies. */
  predicate ValidConfig(c: BenchmarkConfig)
  {
    FieldsInRange(c) && ProfilesComplete(c.profiles, c.sampleSizes)
  }

  /** `BenchmarkConfig(...)`: the field bounds, then the model validator. */
  function NewConfig(c: BenchmarkConfig): (r: Result<BenchmarkConfig>)
    ensures r.Ok? ==> r.value == c
  {
    if !FieldsInRange(c) then Err(RangeError(c))
    else match ValidateProfiles(c.profiles, c.sampleSizes, AllProfiles)
      case Err(e) => Err(e)
      case Ok(_) => Ok(c)
  }

  /** The first field bound a configuration breaks. */
  function RangeError(c: BenchmarkConfig): string
  {
    if !(1 <= c.maxConcurrentBatches <= 10) then "max_concurrent_batches: value must be between 1 and 10"
    else if c.containerStartupTimeout < 30 then "container_startup_timeout: value must be at least 30"
    else if c.taskTimeout < 5 then "task_timeout: value must be at least 5"
    else "retry_attempts: value must be between 1 and 10"
  }

  /** A configuration is accepted iff it is valid. */
  lemma NewConfigSpec(c: BenchmarkConfig)
    ensures NewConfig(c).Ok? <==> ValidConfig(c)
  {
    ValidateProfilesSpec(c.profiles, c.sampleSizes);
  }

  /** `_get_default_profile_instances`. */
  function DefaultProfileInstances(p: HardwareProfile): seq<ModelInstance>
  {
    var small := ModelInstance("small", "llama3.2:1b", "localhost", 11434, 30, 3);
    var medium := ModelInstance("medium", "llama3.2:3b", "localhost", 11435, 30, 3);
    match p
    case Light => [small]
    case Medium => [small, medium]
    case Heavy => [small, medium,
                   ModelInstance("large", "llama3.1:8b", "localhost", 11436, 30, 3),
                   ModelInstance("code", "codellama:7b", "localhost", 11437, 30, 3)]
  }

  function DefaultSampleSize(p: HardwareProfile): int
  {
    match p
    case Light => 3
    case Medium => 6
    case Heavy => 12
  }

  /** The default sample sizes, in declaration order. */
  function DefaultSampleSizes(): Dict<HardwareProfile, int>
  {
    [(Light, 3), (Medium, 6), (Heavy, 12)]
  }

  function Ports(instances: seq<ModelInstance>): (r: seq<int>)
    ensures |r| == |instances| && forall i :: 0 <= i < |r| ==> r[i] == instances[i].port
  {
    seq(|instances|, i requires 0 <= i < |instances| => instances[i].port)
  }

  /** The default instances have 1, 2 and 4 members, are valid, and use distinct ports. */
  lemma DefaultInstancesValid(p: HardwareProfile)
    ensures |DefaultProfileInstances(p)| == match p case Light => 1 case Medium => 2 case Heavy => 4
    ensures forall i :: 0 <= i < |DefaultProfileInstances(p)| ==> ValidInstance(DefaultProfileInstances(p)[i])
    ensures Distinct(Ports(DefaultProfileInstances(p)))
  {
    assert Strip("small") == "small" && Strip("medium") == "medium";
    assert Strip("large") == "large" && Strip("code") == "code";
    var d := DefaultProfileInstances(p);
    assert forall i :: 0 <= i < |d| ==> d[i].port == 11434 + i;
  }

  /** `_create_default_config`. */
  function DefaultConfig(): BenchmarkConfig
  {
    BenchmarkConfig(
      [(Light, DefaultProfileInstances(Light)), (Medium, DefaultProfileInstances(Medium)), (Heavy, DefaultProfileInstances(Heavy))],
      DefaultSampleSizes(), Async, 2, JsonOutput, "benchmark_results", "docker-compose.yml", 180,
      DefaultBatchConfigs(), 30, 3)
  }

  /** The default configuration passes its own validation. */
  lemma DefaultConfigValid()
    ensures NewConfig(DefaultConfig()) == Ok(DefaultConfig())
    ensures ValidConfig(DefaultConfig())
  {
    var c := DefaultConfig();
    assert Get(c.profiles, Light).Some? && Get(c.profiles, Medium).Some? && Get(c.profiles, Heavy).Some?;
    NewConfigSpec(c);
  }

  // ------------------------------------------------------------ lookups

  /** `get_profile_instances`. */
  function GetProfileInstances(c: BenchmarkConfig, p: HardwareProfile): (r: seq<ModelInstance>)
    ensures Get(c.profiles, p).None? ==> r == []
    ensures Get(c.profiles, p).Some? ==> r == Get(c.profiles, p).value
  {
    GetOr(c.profiles, p, [])
  }

  /** `get_sample_size`. */
  function GetSampleSize(c: BenchmarkConfig, p: HardwareProfile): (r: int)
    ensures Get(c.sampleSizes, p).None? ==> r == 6
    ensures Get(c.sampleSizes, p).Some? ==> r == Get(c.sampleSizes, p).value
  {
    GetOr(c.sampleSizes, p, 6)
  }

  /** `get_batch_config`. */
  function GetBatchConfig(c: BenchmarkConfig, name: string): (r: Option<BatchConfiguration>)
    ensures r.Some? <==> name in Keys(c.batchConfigurations)
  {
    GetSpec(c.batchConfigurations, name);
    Get(c.batchConfigurations, name)
  }

  /** In a valid configuration no profile lookup comes back empty. */
  lemma ValidConfigLookups(c: BenchmarkConfig, p: HardwareProfile)
    requires ValidConfig(c)
    ensures GetProfileInstances(c, p) != []
    ensures GetSampleSize(c, p) == Get(c.sampleSizes, p).value
  {
  }

  // ------------------------------------------------------------ from_toml over the parsed TOML

  /** Python truthiness of a parsed TOML value. */
  predicate Truthy(j: J.Json)
  {
    match j
    case Null => false
    case Bool(b) => b
    case Int(n) => n != 0
    case Float(x) => x != 0.0
    case Str(s) => s != ""
    case List(items) => items != []
    case Dict(entries) => entries != []
  }

  /** `j.get(key, {})`, Err when `j` has no `get` (an AttributeError). */
  function Section(j: J.Json, key: string): Result<J.Json>
  {
    match j
    case Dict(es) => Ok(J.GetOr(es, key, J.Dict([])))
    case _ => Err("AttributeError: object has no attribute 'get'")
  }

  /** `data.get("tool", {}).get("ai-dev-tools", {}).get("benchmark", {})`. */
  function BenchmarkSection(data: J.Json): Result<J.Json>
  {
    match Section(data, "tool")
    case Err(e) => Err(e)
    case Ok(tool) =>
      match Section(tool, "ai-dev-tools")
      case Err(e) => Err(e)
      case Ok(adt) => Section(adt, "benchmark")
  }

  /** `section.get(key, {}).items()`. */
  function SectionItems(section: J.Json, key: string): Result<seq<J.Entry>>
  {
    match Section(section, key)
    case Err(e) => Err(e)
    case Ok(Dict(es)) => Ok(es)
    case Ok(_) => Err("AttributeError: object has no attribute 'items'")
  }

  /** A string keyword argument: None where pydantic rejects it (missing or not a string). */
  function StrArg(es: seq<J.Entry>, key: string, default: Option<string>): Option<string>
  {
    match J.Lookup(es, key)
    case None => default
    case Some(Str(s)) => Some(s)
    case Some(_) => None
  }

  /**
   * Pydantic's lax coercion of a value into an `int` field: an integer, a boolean as 0 or 1,
   * a float with no fractional part, or a string that, stripped, is a decimal integer literal.
   */
  function LaxInt(j: J.Json): (r: Option<int>)
    ensures j.Int? ==> r == Some(j.n)
    ensures j.Null? || j.List? || j.Dict? ==> r.None?
    ensures j.Float? ==> (r.Some? <==> j.x == j.x.Floor as real)
    ensures r.Some? && j.Float? ==> r.value as real == j.x
  {
    match j
    case Int(n) => Some(n)
    case Bool(b) => Some(if b then 1 else 0)
    case Float(x) => if x == x.Floor as real then Some(x.Floor) else None
    case Str(s) => ParseDecimal(Strip(s))
    case _ => None
  }

  /** The text of an integer, such as `"11434"`, is coerced to that integer. */
  lemma LaxIntOfText(n: int)
    ensures LaxInt(J.Str(IntToString(n))) == Some(n)
  {
    var t := IntToString(n);
    assert !IsSpace(t[0]) && !IsSpace(t[|t| - 1]) by {
      if n < 0 {
        assert t[|t| - 1] == NatToString(-n)[|NatToString(-n)| - 1];
      }
    }
    assert Strip(t) == t;
    IntToStringRoundTrip(n);
  }

  /** An integer keyword argument, coerced as pydantic does: None where pydantic rejects it. */
  function IntArg(es: seq<J.Entry>, key: string, default: Option<int>): Option<int>
  {
    match J.Lookup(es, key)
    case None => default
    case Some(v) => LaxInt(v)
  }

  /**
   * `ModelInstance(**instance)`: Err for a non-mapping (a TypeError, which escapes),
   * Ok(None) for a ValidationError (which `from_toml` catches as a ValueError).
   */
  function InstanceFromToml(j: J.Json): (r: Result<Option<ModelInstance>>)
    ensures r.Ok? <==> j.Dict?
    ensures r.Ok? && r.value.Some? ==> ValidInstance(r.value.value)
  {
    match j
    case Dict(es) => Ok(InstanceArgs(es))
    case _ => Err("TypeError: argument after ** must be a mapping")
  }

  /** `ModelInstance(**es)` for a mapping: None for a ValidationError. */
  function InstanceArgs(es: seq<J.Entry>): (r: Option<ModelInstance>)
    ensures r.Some? ==> ValidInstance(r.value)
  {
    var name, model, host := StrArg(es, "name", None), StrArg(es, "model", None), StrArg(es, "host", Some("localhost"));
    var port, timeout, mc := IntArg(es, "port", None), IntArg(es, "timeout", Some(30)), IntArg(es, "max_concurrent", Some(3));
    if name.None? || model.None? || host.None? || port.None? || timeout.None? || mc.None? then None
    else
      NewModelInstanceSpec(name.value, model.value, host.value, port.value, timeout.value, mc.value);
      match NewModelInstance(name.value, model.value, host.value, port.value, timeout.value, mc.value)
      case Ok(m) => Some(m)
      case Err(_) => None
  }

  /** An instance table whose port is written as text, such as `port = "11434"`, still builds an instance. */
  lemma TextPortBuildsInstance(es: seq<J.Entry>, name: string, model: string, port: int)
    requires J.Lookup(es, "name") == Some(J.Str(name)) && !IsBlank(name)
    requires J.Lookup(es, "model") == Some(J.Str(model))
    requires J.Lookup(es, "port") == Some(J.Str(IntToString(port))) && 1 <= port <= 65535
    requires J.Lookup(es, "host").None? && J.Lookup(es, "timeout").None? && J.Lookup(es, "max_concurrent").None?
    ensures InstanceArgs(es) == Some(ModelInstance(Strip(name), model, "localhost", port, 30, 3))
  {
    LaxIntOfText(port);
    NewModelInstanceSpec(name, model, "localhost", port, 30, 3);
  }

  /** The list comprehension over a TOML array: the first failure decides. */
  function InstancesFrom(items: seq<J.Json>): (r: Result<Option<seq<ModelInstance>>>)
    ensures r.Ok? && r.value.Some? ==> |r.value.value| == |items|
  {
    if items == [] then Ok(Some([]))
    else
      match InstancesFrom(items[..|items| - 1])
      case Err(e) => Err(e)
      case Ok(None) => Ok(None)
      case Ok(Some(xs)) =>
        match InstanceFromToml(items[|items| - 1])
        case Err(e) => Err(e)
        case Ok(None) => Ok(None)
        case Ok(Some(m)) => Ok(Some(xs + [m]))
  }

  /** `[ModelInstance(**instance) for instance in instances]` for any TOML value. */
  function InstancesFromToml(v: J.Json): Result<Option<seq<ModelInstance>>>
  {
    match v
    case List(items) => InstancesFrom(items)
    case Dict(es) => if es == [] then Ok(Some([])) else Err("TypeError: argument after ** must be a mapping")
    case Str(s) => if s == "" then Ok(Some([])) else Err("TypeError: argument after ** must be a mapping")
    case _ => Err("TypeError: object is not iterable")
  }

  /** One pass of the `ollama_profiles` loop. */
  function ProfileStep(acc: Dict<HardwareProfile, seq<ModelInstance>>, e: J.Entry): Result<Dict<HardwareProfile, seq<ModelInstance>>>
  {
    match ParseProfile(e.key)
    case None => Ok(acc)
    case Some(p) =>
      match InstancesFromToml(e.value)
      case Err(msg) => Err(msg)
      case Ok(None) => Ok(acc)
      case Ok(Some(instances)) => Ok(Set(acc, p, instances))
  }

  /** The profiles after the first `n` passes of the `ollama_profiles` loop. */
  function TomlProfiles(es: seq<J.Entry>, n: nat): Result<Dict<HardwareProfile, seq<ModelInstance>>>
    requires n <= |es|
  {
    if n == 0 then Ok([])
    else
      match TomlProfiles(es, n - 1)
      case Err(msg) => Err(msg)
      case Ok(acc) => ProfileStep(acc, es[n - 1])
  }

  /** The `sample_sizes` loop: known profile names keep their (not yet validated) values. */
  function TomlSizes(es: seq<J.Entry>, n: nat): Dict<HardwareProfile, J.Json>
    requires n <= |es|
  {
    if n == 0 then []
    else
      var acc := TomlSizes(es, n - 1);
      match ParseProfile(es[n - 1].key)
      case None => acc
      case Some(p) => Set(acc, p, es[n - 1].value)
  }

  /** A "fill in missing ... with defaults" loop over the profiles `ps`. */
  function FillDefaults<V>(acc: Dict<HardwareProfile, V>, ps: seq<HardwareProfile>, default: HardwareProfile -> V): Dict<HardwareProfile, V>
  {
    if ps == [] then acc
    else
      var acc' := FillDefaults(acc, ps[..|ps| - 1], default);
      var p := ps[|ps| - 1];
      if p in Keys(acc') then acc' else Set(acc', p, default(p))
  }

  /** Filling keeps every present value and supplies the default for every missing profile. */
  lemma {:induction false} FillDefaultsSpec<V>(acc: Dict<HardwareProfile, V>, ps: seq<HardwareProfile>, default: HardwareProfile -> V, q: HardwareProfile)
    ensures Get(FillDefaults(acc, ps, default), q) ==
      if Get(acc, q).Some? then Get(acc, q) else if q in ps then Some(default(q)) else None
  {
    if ps != [] {
      var init := ps[..|ps| - 1];
      var p := ps[|ps| - 1];
      FillDefaultsSpec(acc, init, default, q);
      var acc' := FillDefaults(acc, init, default);
      GetSpec(acc', p);
      if p !in Keys(acc') {
        GetSet(acc', p, default(p), q);
      }
      assert q in ps <==> q in init || q == p;
    }
  }

  function SizeDefault(p: HardwareProfile): J.Json
  {
    J.Int(DefaultSampleSize(p))
  }

  /** Pydantic's check of `Dict[HardwareProfile, int]`: every value must coerce to an integer. */
  function SizesAsInts(d: Dict<HardwareProfile, J.Json>): (r: Result<Dict<HardwareProfile, int>>)
  {
    if d == [] then Ok([])
    else
      match LaxInt(d[0].1)
      case Some(n) =>
        (match SizesAsInts(d[1..])
         case Err(e) => Err(e)
         case Ok(rest) => Ok([(d[0].0, n)] + rest))
      case None => Err("sample_sizes: input should be a valid integer")
  }

  /** The validated sizes hold, under the same keys, the integers the document's values coerce to. */
  lemma {:induction false} SizesAsIntsGet(d: Dict<HardwareProfile, J.Json>, p: HardwareProfile)
    requires SizesAsInts(d).Ok?
    ensures Get(d, p).None? <==> Get(SizesAsInts(d).value, p).None?
    ensures Get(d, p).Some? ==> LaxInt(Get(d, p).value) == Some(Get(SizesAsInts(d).value, p).value)
  {
    if d != [] {
      SizesAsIntsGet(d[1..], p);
    }
  }

  function IntSetting(section: seq<J.Entry>, key: string, default: int): Result<int>
  {
    match J.Lookup(section, key)
    case None => Ok(default)
    case Some(v) => if LaxInt(v).Some? then Ok(LaxInt(v).value) else Err(key + ": input should be a valid integer")
  }

  /** `Path(section.get(key, default))`; the path is kept as text. */
  function PathSetting(section: seq<J.Entry>, key: string, default: string): Result<string>
  {
    match J.Lookup(section, key)
    case None => Ok(default)
    case Some(Str(s)) => Ok(s)
    case Some(_) => Err("TypeError: expected str, bytes or os.PathLike object")
  }

  function ModeSetting(section: seq<J.Entry>): Result<ExecutionMode>
  {
    match J.Lookup(section, "execution_mode")
    case None => Ok(Async)
    case Some(Str(s)) => if ParseExecutionMode(s).Some? then Ok(ParseExecutionMode(s).value) else Err("ValueError: not a valid ExecutionMode")
    case Some(_) => Err("ValueError: not a valid ExecutionMode")
  }

  function FormatSetting(section: seq<J.Entry>): Result<OutputFormat>
  {
    match J.Lookup(section, "output_format")
    case None => Ok(JsonOutput)
    case Some(Str(s)) => if ParseOutputFormat(s).Some? then Ok(ParseOutputFormat(s).value) else Err("ValueError: not a valid OutputFormat")
    case Some(_) => Err("ValueError: not a valid OutputFormat")
  }

  /** The settings the final `config_data.update(...)` reads. */
  datatype Settings = Settings(mode: ExecutionMode, batches: int, format: OutputFormat, dir: string, compose: string,
                               startup: int, taskTimeout: int, retries: int)

  function ReadSettings(section: seq<J.Entry>): Result<Settings>
  {
    match (ModeSetting(section), IntSetting(section, "max_concurrent_batches", 2), FormatSetting(section),
           PathSetting(section, "output_directory", "benchmark_results"),
           PathSetting(section, "docker_compose_file", "docker-compose.yml"),
           IntSetting(section, "container_startup_timeout", 180), IntSetting(section, "task_timeout", 30),
           IntSetting(section, "retry_attempts", 3))
    case (Ok(mode), Ok(batches), Ok(format), Ok(dir), Ok(compose), Ok(startup), Ok(taskTimeout), Ok(retries)) =>
      Ok(Settings(mode, batches, format, dir, compose, startup, taskTimeout, retries))
    case _ => Err("invalid benchmark setting")
  }

  /** `cls(**config_data)` once the profiles and sample sizes are filled. */
  function Assemble(section: seq<J.Entry>, profiles: Dict<HardwareProfile, seq<ModelInstance>>,
                    sizes: Dict<HardwareProfile, J.Json>): (r: Result<BenchmarkConfig>)
    ensures r.Ok? ==> r.value.profiles == profiles && SizesAsInts(sizes) == Ok(r.value.sampleSizes)
    ensures r.Ok? ==> r.value.batchConfigurations == DefaultBatchConfigs() && NewConfig(r.value) == r
  {
    match ReadSettings(section)
    case Err(e) => Err(e)
    case Ok(t) =>
      match SizesAsInts(sizes)
      case Err(e) => Err(e)
      case Ok(ints) =>
        NewConfig(BenchmarkConfig(profiles, ints, t.mode, t.batches, t.format, t.dir, t.compose, t.startup,
                                  DefaultBatchConfigs(), t.taskTimeout, t.retries))
  }

  /**
   * `from_toml` on the parsed document. Err stands for an exception escaping it (which
   * `load_config` turns into the default configuration).
   */
  method FromToml(data: J.Json) returns (r: Result<BenchmarkConfig>)
    ensures r == FromTomlSpec(data)
  {
    var sectionResult := BenchmarkSection(data);
    if sectionResult.Err? {
      return Err(sectionResult.msg);
    }
    var section := sectionResult.value;
    if !Truthy(section) {
      return Ok(DefaultConfig());
    }
    if !section.Dict? {
      return Err("AttributeError: object has no attribute 'get'");
    }
    r := FromEntries(section.entries);
  }

  /** The body of `from_toml` once a benchmark table has been found. */
  method FromEntries(sec: seq<J.Entry>) returns (r: Result<BenchmarkConfig>)
    ensures r == FromSection(sec)
  {
    var profileItems := SectionItems(J.Dict(sec), "ollama_profiles");
    if profileItems.Err? {
      return Err(profileItems.msg);
    }
    var profiles := LoadProfiles(profileItems.value);
    if profiles.Err? {
      return Err(profiles.msg);
    }
    var sizeItems := SectionItems(J.Dict(sec), "sample_sizes");
    if sizeItems.Err? {
      return Err(sizeItems.msg);
    }
    var sizes := LoadSizes(sizeItems.value);
    r := Assemble(sec, profiles.value, sizes);
  }

  /** The `ollama_profiles` loop, then the loop that fills in missing profiles. */
  method LoadProfiles(es: seq<J.Entry>) returns (r: Result<Dict<HardwareProfile, seq<ModelInstance>>>)
    ensures TomlProfiles(es, |es|).Err? ==> r == Err(TomlProfiles(es, |es|).msg)
    ensures TomlProfiles(es, |es|).Ok? ==> r == Ok(FillDefaults(TomlProfiles(es, |es|).value, AllProfiles, DefaultProfileInstances))
  {
    var profiles: Dict<HardwareProfile, seq<ModelInstance>> := [];
    for i := 0 to |es|
      invariant TomlProfiles(es, i) == Ok(profiles)
    {
      var step := ProfileStep(profiles, es[i]);
      if step.Err? {
        TomlProfilesErr(es, i + 1, |es|);
        return Err(step.msg);
      }
      profiles := step.value;
    }
    for k := 0 to |AllProfiles|
      invariant profiles == FillDefaults(TomlProfiles(es, |es|).value, AllProfiles[..k], DefaultProfileInstances)
    {
      assert AllProfiles[..k + 1][..k] == AllProfiles[..k];
      if AllProfiles[k] !in Keys(profiles) {
        profiles := Set(profiles, AllProfiles[k], DefaultProfileInstances(AllProfiles[k]));
      }
    }
    assert AllProfiles[..|AllProfiles|] == AllProfiles;
    r := Ok(profiles);
  }

  /** The `sample_sizes` loop, then the loop that fills in the 3/6/12 defaults. */
  method LoadSizes(ss: seq<J.Entry>) returns (sizes: Dict<HardwareProfile, J.Json>)
    ensures sizes == FillDefaults(TomlSizes(ss, |ss|), AllProfiles, SizeDefault)
  {
    sizes := [];
    for i := 0 to |ss|
      invariant sizes == TomlSizes(ss, i)
    {
      var p := ParseProfile(ss[i].key);
      if p.Some? {
        sizes := Set(sizes, p.value, ss[i].value);
      }
    }
    for k := 0 to |AllProfiles|
      invariant sizes == FillDefaults(TomlSizes(ss, |ss|), AllProfiles[..k], SizeDefault)
    {
      assert AllProfiles[..k + 1][..k] == AllProfiles[..k];
      if AllProfiles[k] !in Keys(sizes) {
        sizes := Set(sizes, AllProfiles[k], SizeDefault(AllProfiles[k]));
      }
    }
    assert AllProfiles[..|AllProfiles|] == AllProfiles;
  }

  /** `from_toml`, as one expression over the parsed document. */
  function FromTomlSpec(data: J.Json): Result<BenchmarkConfig>
  {
    match BenchmarkSection(data)
    case Err(e) => Err(e)
    case Ok(section) =>
      if !Truthy(section) then Ok(DefaultConfig())
      else if !section.Dict? then Err("AttributeError: object has no attribute 'get'")
      else FromSection(section.entries)
  }

  /** `from_toml` past the check for a benchmark section, on that section's entries. */
  function FromSection(sec: seq<J.Entry>): Result<BenchmarkConfig>
  {
    match SectionItems(J.Dict(sec), "ollama_profiles")
    case Err(e) => Err(e)
    case Ok(es) =>
      match TomlProfiles(es, |es|)
      case Err(e) => Err(e)
      case Ok(found) =>
        match SectionItems(J.Dict(sec), "sample_sizes")
        case Err(e) => Err(e)
        case Ok(ss) =>
          Assemble(sec, FillDefaults(found, AllProfiles, DefaultProfileInstances),
                   FillDefaults(TomlSizes(ss, |ss|), AllProfiles, SizeDefault))
  }

  /** A failure in the first `k` passes of the `ollama_profiles` loop is the loop's result. */
  lemma {:induction false} TomlProfilesErr(es: seq<J.Entry>, k: nat, n: nat)
    requires k <= n <= |es| && TomlProfiles(es, k).Err?
    ensures TomlProfiles(es, n) == TomlProfiles(es, k)
    decreases n
  {
    if n > k {
      TomlProfilesErr(es, k, n - 1);
    }
  }

  /** The last entry naming `p` whose instances all validate, as the first `n` passes leave it. */
  function ProfileFound(es: seq<J.Entry>, n: nat, p: HardwareProfile): Option<seq<ModelInstance>>
    requires n <= |es|
  {
    if n == 0 then None
    else if es[n - 1].key == ProfileValue(p) && InstancesFromToml(es[n - 1].value).Ok?
         && InstancesFromToml(es[n - 1].value).value.Some?
    then InstancesFromToml(es[n - 1].value).value
    else ProfileFound(es, n - 1, p)
  }

  /** The `ollama_profiles` loop keeps, per profile, exactly what `ProfileFound` names; other names do nothing. */
  lemma {:induction false} TomlProfilesGet(es: seq<J.Entry>, n: nat, p: HardwareProfile)
    requires n <= |es| && TomlProfiles(es, n).Ok?
    ensures Get(TomlProfiles(es, n).value, p) == ProfileFound(es, n, p)
  {
    if n > 0 {
      var acc := TomlProfiles(es, n - 1).value;
      TomlProfilesGet(es, n - 1, p);
      var e := es[n - 1];
      ParseProfileSpec(e.key, p);
      match ParseProfile(e.key)
      case None =>
      case Some(q) =>
        match InstancesFromToml(e.value)
        case Ok(None) =>
        case Ok(Some(instances)) => GetSet(acc, q, instances, p);
    }
  }

  /** The last `sample_sizes` entry naming `p`. */
  function SizeFound(ss: seq<J.Entry>, n: nat, p: HardwareProfile): Option<J.Json>
    requires n <= |ss|
  {
    if n == 0 then None
    else if ss[n - 1].key == ProfileValue(p) then Some(ss[n - 1].value)
    else SizeFound(ss, n - 1, p)
  }

  lemma {:induction false} TomlSizesGet(ss: seq<J.Entry>, n: nat, p: HardwareProfile)
    requires n <= |ss|
    ensures Get(TomlSizes(ss, n), p) == SizeFound(ss, n, p)
  {
    if n > 0 {
      TomlSizesGet(ss, n - 1, p);
      ParseProfileSpec(ss[n - 1].key, p);
      match ParseProfile(ss[n - 1].key)
      case None =>
      case Some(q) => GetSet(TomlSizes(ss, n - 1), q, ss[n - 1].value, p);
    }
  }

  /** Without a (truthy) benchmark section the result is the default configuration. */
  lemma FromTomlNoSection(data: J.Json)
    requires BenchmarkSection(data).Ok? && !Truthy(BenchmarkSection(data).value)
    ensures FromTomlSpec(data) == Ok(DefaultConfig())
  {
  }

  /** Whatever `from_toml` returns passes validation and carries the default batches. */
  lemma FromTomlValid(data: J.Json)
    requires FromTomlSpec(data).Ok?
    ensures ValidConfig(FromTomlSpec(data).value)
    ensures FromTomlSpec(data).value.batchConfigurations == DefaultBatchConfigs()
  {
    var section := BenchmarkSection(data).value;
    if !Truthy(section) {
      DefaultConfigValid();
    } else {
      FromSectionValid(section.entries);
    }
  }

  lemma FromSectionValid(sec: seq<J.Entry>)
    requires FromSection(sec).Ok?
    ensures ValidConfig(FromSection(sec).value)
    ensures FromSection(sec).value.batchConfigurations == DefaultBatchConfigs()
  {
    NewConfigSpec(FromSection(sec).value);
  }

  /**
   * Each profile holds the instances of the last TOML entry that names it and validates,
   * or else its default instances; unknown names and rejected instance lists change nothing.
   */
  lemma FromTomlProfiles(sec: seq<J.Entry>, es: seq<J.Entry>, p: HardwareProfile)
    requires SectionItems(J.Dict(sec), "ollama_profiles") == Ok(es)
    requires FromSection(sec).Ok?
    ensures Get(FromSection(sec).value.profiles, p) ==
      Some(match ProfileFound(es, |es|, p) case Some(xs) => xs case None => DefaultProfileInstances(p))
  {
    var found := TomlProfiles(es, |es|).value;
    TomlProfilesGet(es, |es|, p);
    FillDefaultsSpec(found, AllProfiles, DefaultProfileInstances, p);
    assert p in AllProfiles;
  }

  /**
   * Each sample size is the integer the last TOML entry naming the profile coerces to, or else
   * the 3/6/12 default; a value that does not coerce makes `from_toml` fail.
   */
  lemma FromTomlSizes(sec: seq<J.Entry>, ss: seq<J.Entry>, p: HardwareProfile)
    requires SectionItems(J.Dict(sec), "sample_sizes") == Ok(ss)
    requires FromSection(sec).Ok?
    ensures Get(FromSection(sec).value.sampleSizes, p).Some?
    ensures SizeFound(ss, |ss|, p).None? ==> Get(FromSection(sec).value.sampleSizes, p) == Some(DefaultSampleSize(p))
    ensures SizeFound(ss, |ss|, p).Some? ==> LaxInt(SizeFound(ss, |ss|, p).value) == Some(Get(FromSection(sec).value.sampleSizes, p).value)
  {
    var sizes := FillDefaults(TomlSizes(ss, |ss|), AllProfiles, SizeDefault);
    FromSectionSizes(sec, ss);
    TomlSizesGet(ss, |ss|, p);
    FillDefaultsSpec(TomlSizes(ss, |ss|), AllProfiles, SizeDefault, p);
    assert p in AllProfiles;
    SizesAsIntsGet(sizes, p);
  }

  lemma FromSectionSizes(sec: seq<J.Entry>, ss: seq<J.Entry>)
    requires SectionItems(J.Dict(sec), "sample_sizes") == Ok(ss)
    requires FromSection(sec).Ok?
    ensures SizesAsInts(FillDefaults(TomlSizes(ss, |ss|), AllProfiles, SizeDefault)) == Ok(FromSection(sec).value.sampleSizes)
  {
  }

  // ------------------------------------------------------------ validate_runtime

  /** `len(set(xs))` equals `len(xs)` exactly when no element repeats. */
  lemma {:induction false} DistinctCard<T>(xs: seq<T>)
    ensures |set x | x in xs| <= |xs|
    ensures Distinct(xs) <==> |set x | x in xs| == |xs|
  {
    if xs != [] {
      var init := xs[..|xs| - 1];
      var last := xs[|xs| - 1];
      DistinctCard(init);
      assert xs == init + [last];
      assert (set x | x in xs) == (set x | x in init) + {last};
      if last in init {
        assert (set x | x in xs) == (set x | x in init);
        var j :| 0 <= j < |init| && init[j] == last;
        assert xs[j] == xs[|xs| - 1];
      } else {
        assert Distinct(xs) <==> Distinct(init) by {
          if Distinct(init) {
            forall i, j | 0 <= i < j < |xs| ensures xs[i] != xs[j] {
              if j < |xs| - 1 {
                assert xs[i] == init[i] && xs[j] == init[j];
              } else {
                assert xs[i] in init;
              }
            }
          }
          if Distinct(xs) {
            assert forall i :: 0 <= i < |init| ==> init[i] == xs[i];
          }
        }
      }
    }
  }

  /** Python's `repr` of a list of ints. */
  function IntListRepr(xs: seq<int>): string
  {
    "[" + Join(seq(|xs|, i requires 0 <= i < |xs| => IntToString(xs[i])), ", ") + "]"
  }

  function NoInstancesMessage(p: HardwareProfile): string
  {
    "No model instances configured for profile: " + ProfileLabel(p)
  }

  function PortConflictMessage(p: HardwareProfile, ports: seq<int>): string
  {
    "Port conflicts in profile " + ProfileLabel(p) + ": " + IntListRepr(ports)
  }

  /** The issues one profile contributes: the emptiness check, then `len(ports) != len(set(ports))`. */
  function ProfileIssueList(p: HardwareProfile, instances: seq<ModelInstance>): seq<string>
  {
    var ports := Ports(instances);
    (if instances == [] then [NoInstancesMessage(p)] else [])
    + (if |ports| != |set x | x in ports| then [PortConflictMessage(p, ports)] else [])
  }

  lemma FirstCharsDiffer(x: string, s: string, y: string, t: string)
    requires x != [] && y != [] && x[0] != y[0]
    ensures x + s != y + t
  {
    assert (x + s)[0] == x[0] && (y + t)[0] == y[0];
  }

  /** A profile is reported empty iff it has no instances, and in conflict iff a port repeats. */
  lemma ProfileIssueListSpec(p: HardwareProfile, instances: seq<ModelInstance>)
    ensures NoInstancesMessage(p) in ProfileIssueList(p, instances) <==> instances == []
    ensures PortConflictMessage(p, Ports(instances)) in ProfileIssueList(p, instances) <==> !Distinct(Ports(instances))
    ensures |ProfileIssueList(p, instances)| == if instances == [] || !Distinct(Ports(instances)) then 1 else 0
  {
    var ports := Ports(instances);
    DistinctCard(ports);
    MessagesDiffer(p, ports);
    var none := if instances == [] then [NoInstancesMessage(p)] else [];
    var conflict := if !Distinct(ports) then [PortConflictMessage(p, ports)] else [];
    assert ProfileIssueList(p, instances) == none + conflict;
  }

  lemma MessagesDiffer(p: HardwareProfile, ports: seq<int>)
    ensures NoInstancesMessage(p) != PortConflictMessage(p, ports)
  {
    FirstCharsDiffer("No model instances configured for profile: ", ProfileLabel(p),
                     "Port conflicts in profile ", ProfileLabel(p) + ": " + IntListRepr(ports));
    ConcatAssoc("Port conflicts in profile ", ProfileLabel(p) + ": ", IntListRepr(ports));
    ConcatAssoc("Port conflicts in profile ", ProfileLabel(p), ": ");
  }

  /** The issues of the first `n` profile entries, in dict order. */
  function ProfileIssues(d: Dict<HardwareProfile, seq<ModelInstance>>, n: nat): seq<string>
    requires n <= |d|
  {
    if n == 0 then [] else ProfileIssues(d, n - 1) + ProfileIssueList(d[n - 1].0, d[n - 1].1)
  }

  /** The directory and compose-file checks; `mkdir` and `exists` are inputs. */
  function EnvironmentIssues(c: BenchmarkConfig, mkdirError: Option<string>, composeExists: bool): seq<string>
  {
    (if mkdirError.Some? then ["Cannot create output directory: " + mkdirError.value] else [])
    + (if !composeExists then ["Docker compose file not found: " + c.dockerComposeFile] else [])
  }

  /** `validate_runtime`. */
  method ValidateRuntime(c: BenchmarkConfig, mkdirError: Option<string>, composeExists: bool) returns (issues: seq<string>)
    ensures issues == EnvironmentIssues(c, mkdirError, composeExists) + ProfileIssues(c.profiles, |c.profiles|)
  {
    var env := EnvironmentIssues(c, mkdirError, composeExists);
    var found := CheckProfiles(c.profiles);
    issues := env + found;
  }

  /** The `for profile, instances in self.profiles.items()` loop. */
  method CheckProfiles(d: Dict<HardwareProfile, seq<ModelInstance>>) returns (issues: seq<string>)
    ensures issues == ProfileIssues(d, |d|)
  {
    issues := [];
    for i := 0 to |d|
      invariant issues == ProfileIssues(d, i)
    {
      var found := CheckProfile(d[i].0, d[i].1);
      issues := issues + found;
    }
  }

  /** The body of the `validate_runtime` loop for one profile. */
  method CheckProfile(profile: HardwareProfile, instances: seq<ModelInstance>) returns (found: seq<string>)
    ensures found == ProfileIssueList(profile, instances)
  {
    found := [];
    if instances == [] {
      found := found + [NoInstancesMessage(profile)];
    }
    var ports := Ports(instances);
    if |ports| != |set x | x in ports| {
      found := found + [PortConflictMessage(profile, ports)];
    }
  }

  /** One issue per empty or port-conflicting profile. */
  lemma {:induction false} ProfileIssuesCount(d: Dict<HardwareProfile, seq<ModelInstance>>, n: nat)
    requires n <= |d|
    ensures |ProfileIssues(d, n)| == CountWhere(d[..n], (e: (HardwareProfile, seq<ModelInstance>)) => e.1 == [] || !Distinct(Ports(e.1)))
  {
    if n > 0 {
      ProfileIssuesCount(d, n - 1);
      ProfileIssueListSpec(d[n - 1].0, d[n - 1].1);
      assert d[..n][..n - 1] == d[..n - 1];
    }
  }

  /**
   * With a creatable directory, an existing compose file and every profile non-empty with
   * distinct ports (as the defaults are), `validate_runtime` reports nothing.
   */
  lemma RuntimeClean(c: BenchmarkConfig)
    requires forall i :: 0 <= i < |c.profiles| ==> c.profiles[i].1 != [] && Distinct(Ports(c.profiles[i].1))
    ensures EnvironmentIssues(c, None, true) + ProfileIssues(c.profiles, |c.profiles|) == []
  {
    var f := (e: (HardwareProfile, seq<ModelInstance>)) => e.1 == [] || !Distinct(Ports(e.1));
    ProfileIssuesCount(c.profiles, |c.profiles|);
    assert c.profiles[..|c.profiles|] == c.profiles;
    CountWhereNone(c.profiles, f);
  }

  lemma DefaultRuntimeClean()
    ensures EnvironmentIssues(DefaultConfig(), None, true) + ProfileIssues(DefaultConfig().profiles, 3) == []
  {
    DefaultInstancesValid(Light);
    DefaultInstancesValid(Medium);
    DefaultInstancesValid(Heavy);
    RuntimeClean(DefaultConfig());
  }
}
