/**
 * The exit-code protocol every tool reports through: counts are clamped to
 * 0..254, risk levels to 0..3, booleans are 0/1 and 255 is the error code.
 */
module ExitCodes {
  import opened Common

  const ErrorCode: int := 255
  const MaxCount: int := 254

  datatype RiskName = Safe | Medium | High | Critical

  /** `ExitCodeEncoder.encode_count`: clamp a count so it never reaches 255. */
  function EncodeCount(count: int): (r: int)
    ensures 0 <= r <= MaxCount
    ensures 0 <= count <= MaxCount ==> r == count
    ensures count < 0 ==> r == 0
    ensures count > MaxCount ==> r == MaxCount
  {
    if count < 0 then 0
    else if count > 254 then 254
    else count
  }

  /** `ExitCodeEncoder.encode_risk_level`: `max(0, min(3, level))`. */
  function EncodeRiskLevel(level: int): (r: int)
    ensures 0 <= r <= 3
    ensures 0 <= level <= 3 ==> r == level
    ensures level < 0 ==> r == 0
    ensures level > 3 ==> r == 3
  {
    Max(0, Min(3, level))
  }

  function EncodeBoolean(b: bool): (r: int)
    ensures r == 0 || r == 1
    ensures r == 1 <==> b
  {
    if b then 1 else 0
  }

  function EncodeError(): (r: int)
    ensures r == ErrorCode
  {
    255
  }

  function DecodeCount(code: int): (r: Option<int>)
    ensures r.Some? <==> 0 <= code <= MaxCount
    ensures r.Some? ==> r.value == code
  {
    if 0 <= code <= 254 then Some(code) else None
  }

  /** `decode_risk_level`: the lookup in `{0: SAFE, 1: MEDIUM, 2: HIGH, 3: CRITICAL}`. */
  function DecodeRiskLevel(code: int): (r: Option<RiskName>)
    ensures r.Some? <==> 0 <= code <= 3
    ensures code == 0 ==> r == Some(Safe)
    ensures code == 1 ==> r == Some(Medium)
    ensures code == 2 ==> r == Some(High)
    ensures code == 3 ==> r == Some(Critical)
  {
    match code
    case 0 => Some(Safe)
    case 1 => Some(Medium)
    case 2 => Some(High)
    case 3 => Some(Critical)
    case _ => None
  }

  function DecodeBoolean(code: int): (r: Option<bool>)
    ensures r.Some? <==> (code == 0 || code == 1)
    ensures r.Some? ==> (r.value <==> code == 1)
  {
    if code == 0 then Some(false)
    else if code == 1 then Some(true)
    else None
  }

  predicate IsError(code: int)
  {
    code == 255
  }

  lemma CountRoundTrip(n: int)
    requires 0 <= n <= MaxCount
    ensures DecodeCount(EncodeCount(n)) == Some(n)
  {
  }

  lemma ErrorNotACount()
    ensures DecodeCount(EncodeError()) == None
    ensures IsError(EncodeError())
  {
  }

  lemma RiskLevelIdempotent(level: int)
    ensures EncodeRiskLevel(EncodeRiskLevel(level)) == EncodeRiskLevel(level)
    ensures DecodeRiskLevel(EncodeRiskLevel(level)).Some?
  {
  }

  /** Distinct codes in 0..3 decode to distinct risk names. */
  lemma RiskLevelDecodeInjective(a: int, b: int)
    requires 0 <= a <= 3 && 0 <= b <= 3
    requires DecodeRiskLevel(a) == DecodeRiskLevel(b)
    ensures a == b
  {
  }

  lemma BooleanRoundTrip(b: bool)
    ensures DecodeBoolean(EncodeBoolean(b)) == Some(b)
  {
  }

  /** No encoder other than `encode_error` can produce the error code. */
  lemma EncodersNeverError(n: int, level: int, b: bool)
    ensures !IsError(EncodeCount(n))
    ensures !IsError(EncodeRiskLevel(level))
    ensures !IsError(EncodeBoolean(b))
    ensures forall c :: IsError(c) <==> c == ErrorCode
  {
  }
}
