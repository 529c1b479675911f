/**
 * The output strategies: compact JSON with empty values stripped (the default for machines),
 * indented JSON, one-line human text, and silence, chosen through a formatter whose every entry
 * point defaults to silence; and the short-key result record the tools hand to it.
 */
module OutputStrategy {
  import opened Common
  import opened JsonText

  // ---------------------------------------------------------------- CompactStrategy._clean_data

  /** The test of the list comprehension: `item is not None`. */
  predicate IsPresent(v: Json)
  {
    v != Null
  }

  /** `value is None or value == [] or value == {}`: the values the cleaner drops outright. */
  predicate Blank(v: Json)
  {
    v == Null || v == List([]) || v == Dict([])
  }

  /** `_clean_data` over the first `n` entries of the dictionary `d`. */
  function CleanPrefix(d: Json, n: nat): seq<Entry>
    requires d.Dict? && n <= |d.entries|
    decreases d, n, 1
  {
    if n == 0 then [] else CleanPrefix(d, n - 1) + CleanStep(d, n - 1)
  }

  /** What the loop adds for the entry at index `k` of the dictionary `d`. */
  function CleanStep(d: Json, k: nat): seq<Entry>
    requires d.Dict? && k < |d.entries|
    decreases d, k + 1, 0
  {
    var e := d.entries[k];
    if Blank(e.value) then []
    else
      match e.value
      case Dict(nested) =>
        var c := CleanPrefix(e.value, |nested|);
        if c == [] then [] else [Entry(e.key, Dict(c))]
      case List(items) =>
        var c := Filter(items, IsPresent);
        if c == [] then [] else [Entry(e.key, List(c))]
      case _ => [e]
  }

  /** `_clean_data(data)`. */
  function Clean(data: seq<Entry>): seq<Entry>
  {
    CleanPrefix(Dict(data), |data|)
  }

  /** The cleaner's loop, recursing into nested dictionaries. */
  method CleanData(data: seq<Entry>) returns (cleaned: seq<Entry>)
    ensures cleaned == Clean(data)
    decreases Dict(data)
  {
    cleaned := [];
    for i := 0 to |data|
      invariant cleaned == CleanPrefix(Dict(data), i)
    {
      var key, value := data[i].key, data[i].value;
      if value != Null && value != List([]) && value != Dict([]) {
        match value {
          case Dict(nested) =>
            var cleanedNested := CleanData(nested);
            if cleanedNested != [] {
              cleaned := cleaned + [Entry(key, Dict(cleanedNested))];
            }
          case List(items) =>
            var cleanedList := Filter(items, IsPresent);
            if cleanedList != [] {
              cleaned := cleaned + [Entry(key, List(cleanedList))];
            }
          case _ =>
            cleaned := cleaned + [Entry(key, value)];
        }
      }
    }
  }

  /**
   * Reference definition of what survives cleaning: a value other than None that is a scalar, a
   * list with an element other than None, or a dictionary with a surviving value.
   */
  predicate Substantive(v: Json)
    decreases v
  {
    match v
    case Null => false
    case List(items) => exists i :: 0 <= i < |items| && IsPresent(items[i])
    case Dict(es) => exists i :: 0 <= i < |es| && Substantive(es[i].value)
    case _ => true
  }

  predicate Kept(e: Entry)
  {
    Substantive(e.value)
  }

  /** What a surviving value becomes: dictionaries are cleaned, lists lose their Nones. */
  function CleanedValue(v: Json): Json
  {
    match v
    case Dict(es) => Dict(Clean(es))
    case List(items) => List(Filter(items, IsPresent))
    case _ => v
  }

  function CleanedEntry(e: Entry): Entry
  {
    Entry(e.key, CleanedValue(e.value))
  }

  lemma {:induction false} CleanPrefixCollect(d: Json, n: nat)
    requires d.Dict? && n <= |d.entries|
    ensures CleanPrefix(d, n) == Collect(d.entries[..n], Kept, CleanedEntry)
    decreases d, n, 1
  {
    if n > 0 {
      CleanPrefixCollect(d, n - 1);
      CleanStepCollect(d, n - 1);
      assert d.entries[..n][..n - 1] == d.entries[..n - 1];
      assert d.entries[..n][n - 1] == d.entries[n - 1];
    }
  }

  lemma {:induction false} CleanStepCollect(d: Json, k: nat)
    requires d.Dict? && k < |d.entries|
    ensures var e := d.entries[k]; CleanStep(d, k) == if Kept(e) then [CleanedEntry(e)] else []
    decreases d, k + 1, 0
  {
    var e := d.entries[k];
    match e.value {
      case Dict(nested) =>
        CleanPrefixCollect(e.value, |nested|);
        assert nested[..|nested|] == nested;
        CollectEmpty(nested, Kept, CleanedEntry);
      case List(items) =>
        FilterSpec(items, IsPresent);
        if Filter(items, IsPresent) != [] {
          var x := Filter(items, IsPresent)[0];
          var i :| 0 <= i < |items| && items[i] == x;
        }
      case _ =>
    }
  }

  lemma {:induction false} KeysCollect(xs: seq<Entry>)
    ensures Keys(Collect(xs, Kept, CleanedEntry)) == Keys(Filter(xs, Kept))
  {
    if xs != [] {
      var n := |xs| - 1;
      KeysCollect(xs[..n]);
      var a, b := Collect(xs[..n], Kept, CleanedEntry), Filter(xs[..n], Kept);
      if Kept(xs[n]) {
        assert Keys(a + [CleanedEntry(xs[n])]) == Keys(a) + [xs[n].key];
        assert Keys(b + [xs[n]]) == Keys(b) + [xs[n].key];
      } else {
        assert a + [] == a && b + [] == b;
      }
    }
  }

  /**
   * Cleaning keeps, in their order, exactly the entries whose value survives, each with its
   * value cleaned; so its keys are an order-preserving selection of the input's keys.
   */
  lemma CleanSpec(data: seq<Entry>)
    ensures Clean(data) == Collect(data, Kept, CleanedEntry)
    ensures Keys(Clean(data)) == Keys(Filter(data, Kept))
    ensures Clean(data) == [] <==> forall i :: 0 <= i < |data| ==> !Kept(data[i])
  {
    CleanPrefixCollect(Dict(data), |data|);
    assert data[..|data|] == data;
    KeysCollect(data);
    CollectEmpty(data, Kept, CleanedEntry);
  }

  /** A list loses its Nones and nothing else: every other element, a dictionary too, stays as it was. */
  lemma ListCleaning(items: seq<Json>)
    ensures forall x :: x in CleanedValue(List(items)).items <==> x in items && x != Null
  {
    FilterSpec(items, IsPresent);
    forall x | x in CleanedValue(List(items)).items
      ensures x in items && x != Null
    {
      var k :| 0 <= k < |Filter(items, IsPresent)| && Filter(items, IsPresent)[k] == x;
    }
  }

  /**
   * The cleaner's output shape: no None, [] or {} on any dictionary level, and every list free of
   * None.
   */
  predicate Tidy(v: Json)
    decreases v
  {
    match v
    case Null => false
    case List(items) => items != [] && forall i :: 0 <= i < |items| ==> IsPresent(items[i])
    case Dict(es) => es != [] && forall i :: 0 <= i < |es| ==> Tidy(es[i].value)
    case _ => true
  }

  predicate TidyEntries(es: seq<Entry>)
  {
    forall i :: 0 <= i < |es| ==> Tidy(es[i].value)
  }

  lemma {:induction false} CleanedTidy(v: Json)
    requires Substantive(v)
    ensures Tidy(CleanedValue(v))
    decreases v, 1
  {
    match v {
      case Dict(es) => CleanTidyUnder(es, v);
      case List(items) =>
        FilterSpec(items, IsPresent);
        var i :| 0 <= i < |items| && IsPresent(items[i]);
        assert items[i] in Filter(items, IsPresent);
      case _ =>
    }
  }

  lemma {:induction false} CleanTidyUnder(es: seq<Entry>, v: Json)
    requires v == Dict(es)
    ensures TidyEntries(Clean(es))
    ensures Substantive(v) ==> Clean(es) != []
    decreases v, 0
  {
    var c := Clean(es);
    CleanSpec(es);
    forall k | 0 <= k < |c|
      ensures Tidy(c[k].value)
    {
      CollectSource(es, Kept, CleanedEntry, k);
      var i :| 0 <= i < |es| && Kept(es[i]) && c[k] == CleanedEntry(es[i]);
      CleanedTidy(es[i].value);
    }
  }

  /** Nothing the cleaner returns is empty, at any level. */
  lemma CleanTidy(data: seq<Entry>)
    ensures TidyEntries(Clean(data))
  {
    CleanTidyUnder(data, Dict(data));
  }

  /** The cleaner leaves tidy data as it is. */
  lemma {:induction false} TidyFixed(d: Json, n: nat)
    requires d.Dict? && n <= |d.entries| && TidyEntries(d.entries)
    ensures CleanPrefix(d, n) == d.entries[..n]
    decreases d, n, 1
  {
    if n > 0 {
      TidyFixed(d, n - 1);
      var e := d.entries[n - 1];
      assert Tidy(e.value);
      assert CleanPrefix(d, n) == d.entries[..n - 1] + CleanStep(d, n - 1);
      match e.value {
        case Dict(nested) =>
          TidyFixed(e.value, |nested|);
          assert nested[..|nested|] == nested;
        case List(items) =>
          FilterAll(items, IsPresent);
        case _ =>
      }
      assert d.entries[..n] == d.entries[..n - 1] + [e];
    }
  }

  /** Cleaning a cleaned value changes nothing. */
  lemma CleanIdempotent(data: seq<Entry>)
    ensures Clean(Clean(data)) == Clean(data)
  {
    var c := Clean(data);
    CleanTidy(data);
    TidyFixed(Dict(c), |c|);
    assert c[..|c|] == c;
  }

  // ---------------------------------------------------------------- the strategies

  datatype OutputFormat = CompactFormat | JsonFormat | HumanFormat | SilentFormat

  datatype Strategy = CompactStrategy | JsonStrategy | HumanStrategy | SilentStrategy

  /**
   * What the strategies print with but the tools do not define: `float.__repr__`, and `str` of a
   * float, a list or a dictionary.
   */
  datatype Printers = Printers(realText: real -> string, repr: Json -> string)

  /**
   * `HumanStrategy.format_result`: a count wins over a risk level, a risk level over a health
   * record, and everything else is printed whole; a health value that is not a dictionary has no
   * `get` and raises.
   */
  function HumanResult(data: seq<Entry>, p: Printers): (r: Result<string>)
    ensures HasKey(data, "count") ==> r == Ok("Found " + Show(Get(data, "count"), p.repr) + " results")
    ensures !HasKey(data, "count") && HasKey(data, "risk_level")
      ==> r == Ok("Risk Level: " + Show(Get(data, "risk_level"), p.repr) + " - " + Show(GetOr(data, "message", Str("")), p.repr))
    ensures !HasKey(data, "count") && !HasKey(data, "risk_level") && HasKey(data, "health") && Get(data, "health").Dict?
      ==> r == Ok("Repository Health: " + Show(GetOr(Get(data, "health").entries, "status", Str("unknown")), p.repr))
    ensures !HasKey(data, "count") && !HasKey(data, "risk_level") && !HasKey(data, "health") ==> r == Ok(p.repr(Dict(data)))
    ensures r.Err? <==> !HasKey(data, "count") && !HasKey(data, "risk_level") && HasKey(data, "health") && !Get(data, "health").Dict?
  {
    if HasKey(data, "count") then Ok("Found " + Show(Get(data, "count"), p.repr) + " results")
    else if HasKey(data, "risk_level") then
      Ok("Risk Level: " + Show(Get(data, "risk_level"), p.repr) + " - " + Show(GetOr(data, "message", Str("")), p.repr))
    else if HasKey(data, "health") then
      match Get(data, "health")
      case Dict(h) => Ok("Repository Health: " + Show(GetOr(h, "status", Str("unknown")), p.repr))
      case v => Err(NoGet(v))
    else Ok(p.repr(Dict(data)))
  }

  /** `{"error": error, "code": code}`. */
  function ErrorObject(error: string, code: int): Json
  {
    Dict([Entry("error", Str(error)), Entry("code", Int(code))])
  }

  /** `format_result` of each strategy. */
  function FormatResult(s: Strategy, data: seq<Entry>, p: Printers): Result<string>
  {
    match s
    case CompactStrategy => Ok(Dumps(Dict(Clean(data)), Minified, p.realText))
    case JsonStrategy => Ok(Dumps(Dict(data), Indented(2), p.realText))
    case HumanStrategy => HumanResult(data, p)
    case SilentStrategy => Ok("")
  }

  /** `format_error` of each strategy. */
  function FormatErrorWith(s: Strategy, error: string, code: int, p: Printers): string
  {
    match s
    case CompactStrategy => Dumps(ErrorObject(error, code), Minified, p.realText)
    case JsonStrategy => Dumps(ErrorObject(error, code), Indented(2), p.realText)
    case HumanStrategy => "Error: " + error
    case SilentStrategy => ""
  }

  /** `OutputFormatter.get_strategy`. */
  function GetStrategy(format: OutputFormat := SilentFormat): Strategy
  {
    match format
    case CompactFormat => CompactStrategy
    case JsonFormat => JsonStrategy
    case HumanFormat => HumanStrategy
    case SilentFormat => SilentStrategy
  }

  /** `OutputFormatter.format_output`: silent unless asked; only the human text can raise. */
  function FormatOutput(data: seq<Entry>, p: Printers, format: OutputFormat := SilentFormat): (r: Result<string>)
    ensures format == SilentFormat ==> r == Ok("")
    ensures r.Err? ==> format == HumanFormat
  {
    FormatResult(GetStrategy(format), data, p)
  }

  /** `OutputFormatter.format_error`: silent unless asked, code 1 unless given. */
  function FormatError(error: string, p: Printers, code: int := 1, format: OutputFormat := SilentFormat): (r: string)
    ensures format == SilentFormat ==> r == ""
    ensures format == HumanFormat ==> r == "Error: " + error
  {
    FormatErrorWith(GetStrategy(format), error, code, p)
  }

  /** Called with nothing but the data, the formatter prints nothing. */
  lemma DefaultsAreSilent(data: seq<Entry>, error: string, p: Printers)
    ensures FormatOutput(data, p) == Ok("")
    ensures FormatError(error, p) == "" && FormatError(error, p, 2) == ""
  {
  }

  /**
   * The compact error is the one-line object `{"error":…,"code":…}` (the keys are written as
   * they are), and its message reads back unchanged.
   */
  lemma CompactErrorText(error: string, code: int, p: Printers)
    ensures FormatError(error, p, code, CompactFormat)
      == "{" + Quote("error") + ":" + Quote(error) + "," + Quote("code") + ":" + IntToString(code) + "}"
    ensures Unescape(Escape(error)) == Some(error)
  {
    CompactErrorIsObject(error, code, p);
    MinifiedPair("error", Str(error), "code", Int(code), p.realText);
    assert Encode(Str(error), Minified, 1, p.realText) == Quote(error);
    assert Encode(Int(code), Minified, 1, p.realText) == IntToString(code);
    EscapeRoundTrip(error);
  }

  lemma CompactErrorIsObject(error: string, code: int, p: Printers)
    ensures FormatError(error, p, code, CompactFormat) == Dumps(ErrorObject(error, code), Minified, p.realText)
  {
  }

  /** The error object's keys are written as they are. */
  lemma ErrorKeysPlain()
    ensures Quote("error") == "\"error\"" && Quote("code") == "\"code\""
  {
    EscapePlain("error");
    EscapePlain("code");
  }

  /** The compact result is one line of printable ASCII, and holds only cleaned data. */
  lemma CompactResultText(data: seq<Entry>, p: Printers)
    requires forall x :: AllPrintable(p.realText(x))
    ensures FormatOutput(data, p, CompactFormat).Ok?
    ensures AllPrintable(FormatOutput(data, p, CompactFormat).value)
    ensures FormatOutput(data, p, CompactFormat) == FormatOutput(Clean(data), p, CompactFormat)
  {
    MinifiedPrintable(Dict(Clean(data)), 0, p.realText);
    CleanIdempotent(data);
  }

  // ---------------------------------------------------------------- create_ai_optimized_result

  predicate IsNumber(v: Json)
  {
    v.Int? || v.Bool? || v.Float?
  }

  /** `v < 1.0`: numbers compare, anything else raises. */
  function BelowOne(v: Json): (r: Result<bool>)
    ensures r.Ok? <==> IsNumber(v)
  {
    match v
    case Int(n) => Ok(n < 1)
    case Bool(b) => Ok(!b)
    case Float(x) => Ok(x < 1.0)
    case _ => Err(NotComparable(v))
  }

  function NotComparable(v: Json): string
  {
    "TypeError: '<' not supported between instances of '" + TypeName(v) + "' and 'float'"
  }

  /** `round(v, 2)` of a number: an integer (a bool too) comes back as an integer. */
  function RoundConfidence(v: Json): Json
    requires IsNumber(v)
  {
    match v
    case Int(n) => Int(n)
    case Bool(b) => Int(if b then 1 else 0)
    case Float(x) => Float(Round2(x))
  }

  /** `{k: v}` when there is a value to write, `{}` when there is none. */
  function Short(k: string, v: Option<Json>): (r: seq<Entry>)
    ensures |r| <= 1
  {
    match v
    case None => []
    case Some(x) => [Entry(k, x)]
  }

  lemma LookupShort(k: string, v: Option<Json>, q: string)
    ensures HasKey(Short(k, v), q) <==> v.Some? && q == k
    ensures Lookup(Short(k, v), q) == if q == k then v else None
  {
    if v.Some? {
      LookupSingle(k, v.value, q);
    }
  }

  /** Lookup in four parts laid end to end. */
  lemma LookupFour(a: seq<Entry>, b: seq<Entry>, c: seq<Entry>, d: seq<Entry>, q: string)
    ensures HasKey(a + b + c + d, q) <==> HasKey(a, q) || HasKey(b, q) || HasKey(c, q) || HasKey(d, q)
    ensures Lookup(a + b + c + d, q)
      == if HasKey(a, q) then Lookup(a, q) else if HasKey(b, q) then Lookup(b, q)
         else if HasKey(c, q) then Lookup(c, q) else Lookup(d, q)
  {
    LookupAppend(a + b + c, d, q);
    LookupAppend(a + b, c, q);
    LookupAppend(a, b, q);
  }

  /** Four optional entries under distinct keys: each key finds its own value. */
  lemma LookupShorts(ka: string, va: Option<Json>, kb: string, vb: Option<Json>,
                     kc: string, vc: Option<Json>, kd: string, vd: Option<Json>, q: string)
    requires ka != kb && ka != kc && ka != kd && kb != kc && kb != kd && kc != kd
    ensures Lookup(Short(ka, va) + Short(kb, vb) + Short(kc, vc) + Short(kd, vd), q)
      == if q == ka then va else if q == kb then vb else if q == kc then vc else if q == kd then vd else None
  {
    LookupFour(Short(ka, va), Short(kb, vb), Short(kc, vc), Short(kd, vd), q);
    LookupShort(ka, va, q);
    LookupShort(kb, vb, q);
    LookupShort(kc, vc, q);
    LookupShort(kd, vd, q);
  }

  /** The "conf" value of an item's confidence `c`: its rounding when below 1.0, none otherwise. */
  function ShortConfidence(c: Option<Json>): (r: Result<Option<Json>>)
    ensures r.Err? <==> c.Some? && !IsNumber(c.value)
  {
    match c
    case None => Ok(None)
    case Some(v) =>
      match BelowOne(v)
      case Err(e) => Err(e)
      case Ok(below) => Ok(if below then Some(RoundConfidence(v)) else None)
  }

  lemma ShortConfidenceSome(c: Json)
    requires IsNumber(c)
    ensures ShortConfidence(Some(c)).value.Some? <==> BelowOne(c) == Ok(true)
    ensures ShortConfidence(Some(c)).value.Some? ==> ShortConfidence(Some(c)).value.value == RoundConfidence(c)
  {
  }

  /** The item's confidence test raises. */
  predicate ConfidenceRaises(item: seq<Entry>)
  {
    HasKey(item, "confidence") && !IsNumber(Get(item, "confidence"))
  }

  /** An item under the short keys, in the order the loop writes them. */
  function Essential(item: seq<Entry>): Result<seq<Entry>>
  {
    match ShortConfidence(Lookup(item, "confidence"))
    case Err(e) => Err(e)
    case Ok(conf) =>
      Ok(Short("f", Lookup(item, "file")) + Short("l", Lookup(item, "line"))
        + Short("conf", conf) + Short("risk", Lookup(item, "risk_level")))
  }

  lemma EssentialRaises(item: seq<Entry>)
    ensures Essential(item).Err? <==> ConfidenceRaises(item)
  {
  }

  /** Each short key finds what the item holds under its long key. */
  lemma EssentialAt(item: seq<Entry>, q: string)
    requires Essential(item).Ok?
    ensures Lookup(Essential(item).value, q)
      == if q == "f" then Lookup(item, "file") else if q == "l" then Lookup(item, "line")
         else if q == "conf" then ShortConfidence(Lookup(item, "confidence")).value
         else if q == "risk" then Lookup(item, "risk_level") else None
  {
    var conf := ShortConfidence(Lookup(item, "confidence")).value;
    var file, line, risk := Lookup(item, "file"), Lookup(item, "line"), Lookup(item, "risk_level");
    assert Essential(item).value == Short("f", file) + Short("l", line) + Short("conf", conf) + Short("risk", risk);
    LookupShorts("f", file, "l", line, "conf", conf, "risk", risk, q);
  }

  /**
   * Each item maps file to f, line to l and risk_level to risk, and confidence to conf (rounded)
   * only when it is below 1.0; nothing else is kept.
   */
  lemma EssentialSpec(item: seq<Entry>)
    requires Essential(item).Ok?
    ensures var e := Essential(item).value;
      && Lookup(e, "f") == Lookup(item, "file")
      && Lookup(e, "l") == Lookup(item, "line")
      && Lookup(e, "risk") == Lookup(item, "risk_level")
      && (HasKey(e, "conf") <==> HasKey(item, "confidence") && BelowOne(Get(item, "confidence")) == Ok(true))
      && (HasKey(e, "conf") ==> Get(e, "conf") == RoundConfidence(Get(item, "confidence")))
      && forall k :: k != "f" && k != "l" && k != "conf" && k != "risk" ==> !HasKey(e, k)
  {
    EssentialAt(item, "f");
    EssentialAt(item, "l");
    EssentialAt(item, "risk");
    EssentialConf(item);
    var e := Essential(item).value;
    forall k | k != "f" && k != "l" && k != "conf" && k != "risk"
      ensures !HasKey(e, k)
    {
      EssentialAt(item, k);
    }
  }

  lemma EssentialConf(item: seq<Entry>)
    requires Essential(item).Ok?
    ensures var e := Essential(item).value;
      && (HasKey(e, "conf") <==> HasKey(item, "confidence") && BelowOne(Get(item, "confidence")) == Ok(true))
      && (HasKey(e, "conf") ==> Get(e, "conf") == RoundConfidence(Get(item, "confidence")))
  {
    EssentialAt(item, "conf");
    var c := Lookup(item, "confidence");
    if c.Some? {
      ShortConfidenceSome(c.value);
    }
  }

  /** One item's record, or its exception. */
  function EssentialRecord(item: seq<Entry>): Result<Json>
  {
    match Essential(item)
    case Err(e) => Err(e)
    case Ok(essential) => Ok(Dict(essential))
  }

  /** `essential_items` after the loop, or the first item's exception. */
  function EssentialItems(items: seq<seq<Entry>>): Result<seq<Json>>
  {
    MapAll(items, EssentialRecord)
  }

  /** `v is not None and v != "" and v != []`. */
  predicate MetaKept(e: Entry)
  {
    e.value != Null && e.value != Str("") && e.value != List([])
  }

  /** The "items" value: the short records when some items were given. */
  function ItemsValue(items: Option<seq<seq<Entry>>>): Result<Option<Json>>
  {
    if items.Some? && items.value != [] then
      match EssentialItems(items.value)
      case Err(e) => Err(e)
      case Ok(essential) => Ok(if essential != [] then Some(List(essential)) else None)
    else Ok(None)
  }

  /** The "meta" value: the non-default metadata, if any is left. */
  function MetaValue(metadata: Option<seq<Entry>>): Option<Json>
  {
    if metadata.Some? && metadata.value != [] then
      var filtered := Filter(metadata.value, MetaKept);
      if filtered != [] then Some(Dict(filtered)) else None
    else None
  }

  /** `create_ai_optimized_result(count, items, metadata)`. */
  function AiResult(count: int, items: Option<seq<seq<Entry>>>, metadata: Option<seq<Entry>>): Result<seq<Entry>>
  {
    match ItemsValue(items)
    case Err(e) => Err(e)
    case Ok(listed) => Ok([Entry("c", Int(count))] + Short("items", listed) + Short("meta", MetaValue(metadata)))
  }

  /** The builder's loop over the items and its metadata filter. */
  method CreateAiOptimizedResult(count: int, items: Option<seq<seq<Entry>>>, metadata: Option<seq<Entry>>)
    returns (r: Result<seq<Entry>>)
    ensures r == AiResult(count, items, metadata)
  {
    var result := [Entry("c", Int(count))];
    if items.Some? && items.value != [] {
      var all := items.value;
      var essentialItems: seq<Json> := [];
      for i := 0 to |all|
        invariant EssentialItems(all[..i]) == Ok(essentialItems)
      {
        assert all[..i + 1][..i] == all[..i];
        var essential := Essential(all[i]);
        if essential.Err? {
          MapAllErr(all, EssentialRecord, i + 1);
          return Err(essential.msg);
        }
        essentialItems := essentialItems + [Dict(essential.value)];
      }
      assert all[..|all|] == all;
      if essentialItems != [] {
        result := result + [Entry("items", List(essentialItems))];
      }
    }
    assert ItemsValue(items).Ok? && result == [Entry("c", Int(count))] + Short("items", ItemsValue(items).value);
    if metadata.Some? && metadata.value != [] {
      var filtered := Filter(metadata.value, MetaKept);
      if filtered != [] {
        result := result + [Entry("meta", Dict(filtered))];
      }
    }
    assert result == [Entry("c", Int(count))] + Short("items", ItemsValue(items).value) + Short("meta", MetaValue(metadata));
    r := Ok(result);
  }

  /** The builder raises exactly when an item's confidence is not a number. */
  lemma AiResultRaises(count: int, items: Option<seq<seq<Entry>>>, metadata: Option<seq<Entry>>)
    ensures AiResult(count, items, metadata).Err?
      <==> items.Some? && exists i :: 0 <= i < |items.value| && ConfidenceRaises(items.value[i])
  {
    if items.Some? {
      MapAllSpec(items.value, EssentialRecord);
      forall i | 0 <= i < |items.value|
        ensures EssentialRecord(items.value[i]).Err? <==> ConfidenceRaises(items.value[i])
      {
        EssentialRaises(items.value[i]);
      }
    }
  }

  /** Some items give one short record per item, in order. */
  lemma ItemsValueSpec(items: Option<seq<seq<Entry>>>)
    requires ItemsValue(items).Ok?
    ensures ItemsValue(items).value.Some? <==> items.Some? && items.value != []
    ensures ItemsValue(items).value.Some? ==>
      var listed := ItemsValue(items).value.value;
      listed.List? && |listed.items| == |items.value|
      && forall i :: 0 <= i < |items.value| ==> Essential(items.value[i]).Ok? && listed.items[i] == Dict(Essential(items.value[i]).value)
  {
    if items.Some? && items.value != [] {
      MapAllSpec(items.value, EssentialRecord);
    }
  }

  /** Metadata leaves a "meta" value exactly when some value is not None, "" or []; it holds those entries. */
  lemma MetaValueSpec(metadata: Option<seq<Entry>>)
    ensures MetaValue(metadata).Some? <==> metadata.Some? && exists i :: 0 <= i < |metadata.value| && MetaKept(metadata.value[i])
    ensures MetaValue(metadata).Some? ==> MetaValue(metadata).value == Dict(Filter(metadata.value, MetaKept))
  {
    if metadata.Some? && metadata.value != [] {
      var fm := Filter(metadata.value, MetaKept);
      FilterSpec(metadata.value, MetaKept);
      if fm != [] {
        var i :| 0 <= i < |metadata.value| && metadata.value[i] == fm[0];
      }
    }
  }

  /**
   * The result always leads with "c" = count; it has "items" exactly when some items were given,
   * holding one short-key record per item, and "meta" exactly when some metadata value is not
   * None, "" or [], holding those entries.
   */
  lemma AiResultSpec(count: int, items: Option<seq<seq<Entry>>>, metadata: Option<seq<Entry>>)
    requires AiResult(count, items, metadata).Ok?
    ensures var r := AiResult(count, items, metadata).value;
      && r[0] == Entry("c", Int(count)) && Lookup(r, "c") == Some(Int(count))
      && Lookup(r, "items") == ItemsValue(items).value
      && (HasKey(r, "items") <==> items.Some? && items.value != [])
      && Lookup(r, "meta") == MetaValue(metadata)
      && (HasKey(r, "meta") <==> metadata.Some? && exists i :: 0 <= i < |metadata.value| && MetaKept(metadata.value[i]))
      && forall k :: HasKey(r, k) ==> k in {"c", "items", "meta"}
  {
    var listed, meta := ItemsValue(items).value, MetaValue(metadata);
    var r := AiResult(count, items, metadata).value;
    ItemsValueSpec(items);
    MetaValueSpec(metadata);
    assert r == Short("c", Some(Int(count))) + Short("items", listed) + Short("meta", meta) + Short("-", None);
    forall q
      ensures Lookup(r, q) == if q == "c" then Some(Int(count)) else if q == "items" then listed
        else if q == "meta" then meta else None
    {
      LookupShorts("c", Some(Int(count)), "items", listed, "meta", meta, "-", None, q);
    }
    assert Lookup(r, "c") == Some(Int(count));
    assert Lookup(r, "items") == listed;
    assert Lookup(r, "meta") == meta;
  }
}
