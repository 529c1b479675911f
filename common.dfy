/** Small shared vocabulary: optional values, integer clamps, Python string and path tests. */
module Common {

  datatype Option<+T> = None | Some(value: T)

  /** A raised exception, or a value. */
  datatype Result<+T> = Ok(value: T) | Err(msg: string)

  function Min(a: int, b: int): (r: int)
    ensures r <= a && r <= b && (r == a || r == b)
  {
    if a <= b then a else b
  }

  function Max(a: int, b: int): (r: int)
    ensures r >= a && r >= b && (r == a || r == b)
  {
    if a >= b then a else b
  }

  /** `min(x, 1.0)`: a ratio capped at one. */
  function CapOne(x: real): (r: real)
    ensures r <= 1.0 && r <= x && (r == x || r == 1.0)
  {
    if x <= 1.0 then x else 1.0
  }

  function MaxReal(a: real, b: real): (r: real)
    ensures r >= a && r >= b && (r == a || r == b)
  {
    if a >= b then a else b
  }

  /** Python's `int(x)` for a non-negative real: the largest integer not above x. */
  function Floor(x: real): (r: int)
    requires x >= 0.0
    ensures r >= 0 && r as real <= x < r as real + 1.0
  {
    x.Floor
  }

  /** Python's `int(x)`: the integer part, truncated toward zero. */
  function Truncate(x: real): (r: int)
    ensures x >= 0.0 ==> 0 <= r && r as real <= x < r as real + 1.0
    ensures x < 0.0 ==> r <= 0 && r as real - 1.0 < x <= r as real
  {
    if x >= 0.0 then x.Floor else -((-x).Floor)
  }

  /** Python's `round(x, 2)`: to the nearest hundredth, ties to the even hundredth. */
  function Round2(x: real): (r: real)
    ensures x - 0.005 <= r <= x + 0.005
    ensures x >= 0.0 ==> r >= 0.0
    ensures x <= 1.0 ==> r <= 1.0
  {
    var y := x * 100.0;
    var f := y.Floor;
    var d := y - f as real;
    var n := if d > 0.5 || (d == 0.5 && f % 2 == 1) then f + 1 else f;
    n as real / 100.0
  }

  // ---------------------------------------------------------------- strings

  predicate StartsWith(s: string, prefix: string)
  {
    |prefix| <= |s| && s[..|prefix|] == prefix
  }

  predicate EndsWith(s: string, suffix: string)
  {
    |suffix| <= |s| && s[|s| - |suffix|..] == suffix
  }

  /** `w` occurs in `s` starting at index `i`. */
  predicate OccursAt(s: string, i: int, w: string)
  {
    0 <= i && i + |w| <= |s| && s[i..i + |w|] == w
  }

  /** `w` occurs in `s` at some index `>= j`. */
  predicate OccursFrom(s: string, j: nat, w: string)
    decreases |s| - j
  {
    j <= |s| && (OccursAt(s, j, w) || OccursFrom(s, j + 1, w))
  }

  /** Python's `sub in s` on strings. */
  predicate Contains(s: string, sub: string)
  {
    OccursFrom(s, 0, sub)
  }

  lemma OccursFromWitness(s: string, j: nat, w: string, k: int)
    requires j <= k && OccursAt(s, k, w)
    ensures OccursFrom(s, j, w)
    decreases k - j
  {
    if j < k {
      OccursFromWitness(s, j + 1, w, k);
    }
  }

  /** Whatever contains `w` contains each prefix of `w`. */
  lemma {:induction false} OccursFromPrefix(s: string, j: nat, w: string, n: nat)
    requires OccursFrom(s, j, w) && n <= |w|
    ensures OccursFrom(s, j, w[..n])
    decreases |s| - j
  {
    if OccursAt(s, j, w) {
      assert s[j..j + n] == s[j..j + |w|][..n];
      assert OccursAt(s, j, w[..n]);
    } else {
      OccursFromPrefix(s, j + 1, w, n);
    }
  }

  /** `str.isspace()` on ASCII: blank, tab, the line and form separators, and `\x1c`..`\x1f`. */
  predicate IsSpace(c: char)
  {
    c == ' ' || c == '\t' || c == '\n' || c == '\r' || c == '\U{000B}' || c == '\U{000C}'
    || ('\U{001C}' <= c <= '\U{001F}')
  }

  /** Word characters of a regular expression's `\w` (ASCII letters, digits and `_`). */
  predicate IsWordChar(c: char)
  {
    ('a' <= c <= 'z') || ('A' <= c <= 'Z') || ('0' <= c <= '9') || c == '_'
  }

  predicate WordAt(s: string, p: int)
  {
    0 <= p < |s| && IsWordChar(s[p])
  }

  /** A regular expression's `\b` at position `p` of `s`. */
  predicate Boundary(s: string, p: int)
  {
    WordAt(s, p - 1) != WordAt(s, p)
  }

  /** `re.search(r"\b" + re.escape(w) + r"\b", s)` succeeds with a match at `k`. */
  predicate WholeWordAt(s: string, k: int, w: string)
  {
    OccursAt(s, k, w) && Boundary(s, k) && Boundary(s, k + |w|)
  }

  predicate HasWholeWord(s: string, w: string)
  {
    exists k | 0 <= k <= |s| :: WholeWordAt(s, k, w)
  }

  /** The first index at or after `p` that does not hold a whitespace character. */
  function SkipSpaces(s: string, p: nat): (r: nat)
    requires p <= |s|
    ensures p <= r <= |s|
    ensures forall q :: p <= q < r ==> IsSpace(s[q])
    ensures r < |s| ==> !IsSpace(s[r])
    decreases |s| - p
  {
    if p < |s| && IsSpace(s[p]) then SkipSpaces(s, p + 1) else p
  }

  function LowerChar(c: char): char
  {
    if 'A' <= c <= 'Z' then (c as int + 32) as char else c
  }

  /** Python's `str.lower()` on ASCII letters. */
  function Lower(s: string): (r: string)
    ensures |r| == |s|
    ensures forall i :: 0 <= i < |s| ==> r[i] == LowerChar(s[i])
  {
    if s == [] then [] else [LowerChar(s[0])] + Lower(s[1..])
  }

  /** Python's `str.lstrip()`. */
  function LStrip(s: string): (r: string)
    ensures |r| <= |s| && r == s[|s| - |r|..]
    ensures r == [] || !IsSpace(r[0])
    ensures forall i :: 0 <= i < |s| - |r| ==> IsSpace(s[i])
  {
    if s == [] then [] else if IsSpace(s[0]) then LStrip(s[1..]) else s
  }

  /** Python's `str.rstrip()`. */
  function RStrip(s: string): (r: string)
    ensures |r| <= |s| && r == s[..|r|]
    ensures r == [] || !IsSpace(r[|r| - 1])
    ensures forall i :: |r| <= i < |s| ==> IsSpace(s[i])
  {
    if s == [] then [] else if IsSpace(s[|s| - 1]) then RStrip(s[..|s| - 1]) else s
  }

  /** Python's `str.strip()`. */
  function Strip(s: string): (r: string)
    ensures |r| <= |s|
    ensures r == [] || (!IsSpace(r[0]) && !IsSpace(r[|r| - 1]))
    decreases |s|
  {
    if s == [] then []
    else if IsSpace(s[0]) then Strip(s[1..])
    else if IsSpace(s[|s| - 1]) then Strip(s[..|s| - 1])
    else s
  }

  /** A line that `strip()` leaves empty. */
  predicate IsBlank(s: string)
  {
    forall i :: 0 <= i < |s| ==> IsSpace(s[i])
  }

  /** `s.strip()` is empty exactly for a blank string. */
  lemma {:induction false} StripBlank(s: string)
    ensures Strip(s) == [] <==> IsBlank(s)
    decreases |s|
  {
    if s != [] {
      if IsSpace(s[0]) {
        StripBlank(s[1..]);
        assert IsBlank(s) <==> IsBlank(s[1..]) by {
          assert forall i :: 0 <= i < |s| - 1 ==> s[1..][i] == s[i + 1];
        }
      } else if IsSpace(s[|s| - 1]) {
        StripBlank(s[..|s| - 1]);
        assert !IsBlank(s[..|s| - 1]) && !IsBlank(s) by {
          assert s[..|s| - 1][0] == s[0];
        }
      }
    }
  }

  lemma StripIdempotent(s: string)
    ensures Strip(Strip(s)) == Strip(s)
  {
  }

  /** Python's `str(n)` for an integer. */
  function IntToString(n: int): (r: string)
    ensures |r| >= 1
  {
    if n < 0 then "-" + NatToString(-n) else NatToString(n)
  }

  function NatToString(n: nat): (r: string)
    ensures |r| >= 1
    ensures forall i :: 0 <= i < |r| ==> '0' <= r[i] <= '9'
    decreases n
  {
    var d := [(48 + n % 10) as char];
    if n < 10 then d else NatToString(n / 10) + d
  }

  predicate AllDigits(s: string)
  {
    forall i :: 0 <= i < |s| ==> '0' <= s[i] <= '9'
  }

  /** The value of a string of decimal digits. */
  function DigitsValue(ds: string): nat
    requires AllDigits(ds)
  {
    if ds == [] then 0 else DigitsValue(ds[..|ds| - 1]) * 10 + (ds[|ds| - 1] as int - '0' as int)
  }

  /** A decimal integer literal: an optional `+` or `-` and at least one digit. */
  function ParseDecimal(s: string): (r: Option<int>)
    ensures r.Some? ==> |s| >= 1
  {
    if |s| >= 2 && (s[0] == '-' || s[0] == '+') && AllDigits(s[1..]) then
      var v: int := DigitsValue(s[1..]);
      Some(if s[0] == '-' then -v else v)
    else if |s| >= 1 && AllDigits(s) then Some(DigitsValue(s))
    else None
  }

  lemma {:induction false} NatToStringValue(n: nat)
    ensures DigitsValue(NatToString(n)) == n
    decreases n
  {
    var d := [(48 + n % 10) as char];
    if n >= 10 {
      NatToStringValue(n / 10);
      var t := NatToString(n / 10) + d;
      assert t[..|t| - 1] == NatToString(n / 10);
    }
  }

  lemma ParseDigits(t: string)
    requires |t| >= 1 && AllDigits(t)
    ensures ParseDecimal(t) == Some(DigitsValue(t))
    ensures ParseDecimal("-" + t) == Some(-(DigitsValue(t) as int))
  {
    assert t[0] != '-' && t[0] != '+';
    assert ("-" + t)[1..] == t;
  }

  /** Reading back the text `str(n)` gives `n`. */
  lemma IntToStringRoundTrip(n: int)
    ensures ParseDecimal(IntToString(n)) == Some(n)
  {
    var m: nat := if n < 0 then -n else n;
    var t := NatToString(m);
    NatToStringValue(m);
    ParseDigits(t);
    assert IntToString(n) == if n < 0 then "-" + t else t;
  }

  /** Python's `sep.join(parts)`. */
  function Join(parts: seq<string>, sep: string): string
  {
    if parts == [] then ""
    else if |parts| == 1 then parts[0]
    else Join(parts[..|parts| - 1], sep) + sep + parts[|parts| - 1]
  }

  lemma ConcatAssoc<T>(x: seq<T>, y: seq<T>, z: seq<T>)
    ensures x + (y + z) == x + y + z
  {
  }

  /** `any(p in s for p in subs)`. */
  predicate ContainsAny(s: string, subs: seq<string>)
  {
    subs != [] && (ContainsAny(s, subs[..|subs| - 1]) || Contains(s, subs[|subs| - 1]))
  }

  lemma {:induction false} ContainsAnySpec(s: string, subs: seq<string>)
    ensures ContainsAny(s, subs) <==> exists k :: 0 <= k < |subs| && Contains(s, subs[k])
  {
    if subs != [] {
      var init := subs[..|subs| - 1];
      ContainsAnySpec(s, init);
      if ContainsAny(s, init) {
        var k :| 0 <= k < |init| && Contains(s, init[k]);
        assert subs[k] == init[k];
      }
      if exists k :: 0 <= k < |subs| && Contains(s, subs[k]) {
        var k :| 0 <= k < |subs| && Contains(s, subs[k]);
        if k < |init| { assert init[k] == subs[k]; }
      }
    }
  }

  // ------------------------------------------------------------------ paths

  /** The index of the last '.' in `name`, or -1. */
  function LastDot(name: string): (r: int)
    ensures -1 <= r < |name|
    ensures r >= 0 ==> name[r] == '.'
    ensures forall i :: r < i < |name| ==> name[i] != '.'
  {
    if name == [] then -1
    else if name[|name| - 1] == '.' then |name| - 1
    else LastDot(name[..|name| - 1])
  }

  /** The index of the last `ch` in `s`, or -1. */
  function LastIndex(s: string, ch: char): (r: int)
    ensures -1 <= r < |s|
    ensures r >= 0 ==> s[r] == ch
    ensures forall i :: r < i < |s| ==> s[i] != ch
  {
    if s == [] then -1
    else if s[|s| - 1] == ch then |s| - 1
    else LastIndex(s[..|s| - 1], ch)
  }

  /** `PurePath(path).name`: the text after the last '/', trailing separators ignored. */
  function FileName(path: string): (r: string)
    ensures '/' !in r
  {
    var p := RStripChars(path, {'/'});
    var i := LastIndex(p, '/');
    var r := p[i + 1..];
    assert forall q :: 0 <= q < |r| ==> r[q] == p[i + 1 + q];
    r
  }

  /** `PurePath(name).suffix`: the last dotted part, unless the dot is first or last. */
  function Suffix(name: string): string
  {
    var i := LastDot(name);
    if 0 < i < |name| - 1 then name[i..] else ""
  }

  /** `PurePath(name).stem`: the name without its suffix. */
  function Stem(name: string): string
  {
    var i := LastDot(name);
    if 0 < i < |name| - 1 then name[..i] else name
  }

  // --------------------------------------------------- counting and tallies

  /** 1-based positions `i` with `p(lines[i - 1])`, as `enumerate(lines, 1)` yields them. */
  function Positions(lines: seq<string>, p: string -> bool): (r: seq<int>)
    ensures |r| <= |lines|
    ensures forall k :: 0 <= k < |r| ==> 1 <= r[k] <= |lines| && p(lines[r[k] - 1])
    ensures forall k, m :: 0 <= k < m < |r| ==> r[k] < r[m]
    ensures forall i :: 1 <= i <= |lines| && p(lines[i - 1]) ==> i in r
  {
    if lines == [] then []
    else
      var n := |lines|;
      var init := Positions(lines[..n - 1], p);
      assert forall i :: 0 <= i < n - 1 ==> lines[..n - 1][i] == lines[i];
      init + (if p(lines[n - 1]) then [n] else [])
  }

  function Count<K(==)>(keys: seq<K>, k: K): nat
  {
    if keys == [] then 0
    else Count(keys[..|keys| - 1], k) + (if keys[|keys| - 1] == k then 1 else 0)
  }

  /** The distinct elements of `keys` in order of first occurrence (a Python dict's key order). */
  function Dedup<K(==)>(keys: seq<K>): (r: seq<K>)
    ensures forall i :: 0 <= i < |r| ==> r[i] in keys
    ensures forall i :: 0 <= i < |keys| ==> keys[i] in r
    ensures forall i, j :: 0 <= i < j < |r| ==> r[i] != r[j]
  {
    if keys == [] then []
    else
      var d := Dedup(keys[..|keys| - 1]);
      assert forall i :: 0 <= i < |keys| - 1 ==> keys[i] == keys[..|keys| - 1][i];
      if keys[|keys| - 1] in d then d else d + [keys[|keys| - 1]]
  }

  lemma CountAppend<K>(keys: seq<K>, x: K, k: K)
    ensures Count(keys + [x], k) == Count(keys, k) + (if x == k then 1 else 0)
  {
    assert (keys + [x])[..|keys|] == keys;
  }

  lemma {:induction false} CountZero<K>(keys: seq<K>, k: K)
    ensures Count(keys, k) == 0 <==> k !in keys
  {
    if keys != [] {
      CountZero(keys[..|keys| - 1], k);
      assert keys == keys[..|keys| - 1] + [keys[|keys| - 1]];
    }
  }

  lemma {:induction false} CountConcat<K>(a: seq<K>, b: seq<K>, k: K)
    ensures Count(a + b, k) == Count(a, k) + Count(b, k)
  {
    if b != [] {
      var init := b[..|b| - 1];
      assert a + b == (a + init) + [b[|b| - 1]];
      CountAppend(a + init, b[|b| - 1], k);
      CountConcat(a, init, k);
    } else {
      assert a + b == a;
    }
  }

  /** Joining with a one-character separator adds one of it between every two parts. */
  lemma {:induction false} JoinCount(parts: seq<string>, sep: char, i: int)
    requires 0 <= i < |parts|
    ensures Count(Join(parts, [sep]), sep) >= |parts| - 1 + Count(parts[i], sep)
  {
    if |parts| > 1 {
      var init := parts[..|parts| - 1];
      var last := parts[|parts| - 1];
      CountConcat(Join(init, [sep]) + [sep], last, sep);
      CountAppend(Join(init, [sep]), sep, sep);
      if i < |parts| - 1 {
        JoinCount(init, sep, i);
      } else {
        JoinCount(init, sep, 0);
      }
    }
  }

  function SumCounts<K(==)>(keys: seq<K>, ks: seq<K>): nat
  {
    if ks == [] then 0 else SumCounts(keys, ks[..|ks| - 1]) + Count(keys, ks[|ks| - 1])
  }

  /** Appending `x` to the keys adds one to the summed counts iff `x` is among `ks`. */
  lemma {:induction false} SumCountsAppend<K>(keys: seq<K>, x: K, ks: seq<K>)
    requires forall i, j :: 0 <= i < j < |ks| ==> ks[i] != ks[j]
    ensures SumCounts(keys + [x], ks) == SumCounts(keys, ks) + (if x in ks then 1 else 0)
  {
    if ks != [] {
      var init := ks[..|ks| - 1];
      SumCountsAppend(keys, x, init);
      CountAppend(keys, x, ks[|ks| - 1]);
      assert x in ks <==> x in init || x == ks[|ks| - 1];
    }
  }

  /** The counts of the distinct keys add up to the number of keys. */
  lemma {:induction false} TallyTotal<K>(keys: seq<K>)
    ensures SumCounts(keys, Dedup(keys)) == |keys|
  {
    if keys != [] {
      var init := keys[..|keys| - 1];
      var x := keys[|keys| - 1];
      assert keys == init + [x];
      TallyTotal(init);
      var d := Dedup(init);
      SumCountsAppend(init, x, d);
      if x !in d {
        CountZero(init, x);
        CountAppend(init, x, x);
      }
    }
  }

  /**
   * Count each key into a dict keyed in first-occurrence order
   * (`d[k] = d.get(k, 0) + 1` in a loop).
   */
  lemma DedupAppend<K>(keys: seq<K>, x: K)
    ensures Dedup(keys + [x]) == if x in Dedup(keys) then Dedup(keys) else Dedup(keys) + [x]
  {
    assert (keys + [x])[..|keys|] == keys;
  }

  /** One step of `Tally`: count `x` after the keys `seen`. */
  method TallyAdd<K(==)>(seen: seq<K>, x: K, ks: seq<K>, m: map<K, nat>) returns (ks': seq<K>, m': map<K, nat>)
    requires ks == Dedup(seen)
    requires forall k :: k in m <==> k in ks
    requires forall k :: k in m ==> m[k] == Count(seen, k)
    ensures ks' == Dedup(seen + [x])
    ensures forall k :: k in m' <==> k in ks'
    ensures forall k :: k in m' ==> m'[k] == Count(seen + [x], k)
  {
    DedupAppend(seen, x);
    forall k | k in m ensures (if k == x then m[k] + 1 else m[k]) == Count(seen + [x], k) {
      CountAppend(seen, x, k);
    }
    CountAppend(seen, x, x);
    if x in m {
      m' := m[x := m[x] + 1];
      ks' := ks;
    } else {
      CountZero(seen, x);
      m' := m[x := 1];
      ks' := ks + [x];
    }
  }

  /**
   * Count each key into a dict keyed in first-occurrence order
   * (`d[k] = d.get(k, 0) + 1` in a loop).
   */
  method Tally<K(==)>(keys: seq<K>) returns (ks: seq<K>, counts: seq<nat>)
    ensures ks == Dedup(keys) && |counts| == |ks|
    ensures forall i :: 0 <= i < |ks| ==> counts[i] == Count(keys, ks[i]) && counts[i] > 0
  {
    ks := [];
    var m: map<K, nat> := map[];
    var i := 0;
    while i < |keys|
      invariant 0 <= i <= |keys|
      invariant ks == Dedup(keys[..i])
      invariant forall k :: k in m <==> k in ks
      invariant forall k :: k in m ==> m[k] == Count(keys[..i], k)
    {
      assert keys[..i + 1] == keys[..i] + [keys[i]];
      ks, m := TallyAdd(keys[..i], keys[i], ks, m);
      i := i + 1;
    }
    assert keys[..i] == keys;
    counts := seq(|ks|, j requires 0 <= j < |ks| => m[ks[j]]);
    forall j | 0 <= j < |ks| ensures counts[j] > 0 {
      CountZero(keys, ks[j]);
    }
  }

  /** "c1 k1, c2 k2, ..." over the distinct keys in first-occurrence order. */
  function CountsText(keys: seq<string>): string
  {
    var d := Dedup(keys);
    Join(seq(|d|, i requires 0 <= i < |d| => IntToString(Count(keys, d[i])) + " " + d[i]), ", ")
  }

  /** `", ".join(f"{count} {key}" for key, count in d.items())` for the dict `Tally` fills. */
  method TallyText(keys: seq<string>) returns (text: string)
    ensures text == CountsText(keys)
  {
    var ks, counts := Tally(keys);
    var parts := seq(|ks|, i requires 0 <= i < |ks| => IntToString(counts[i]) + " " + ks[i]);
    assert parts == seq(|ks|, i requires 0 <= i < |ks| => IntToString(Count(keys, ks[i])) + " " + ks[i]);
    text := Join(parts, ", ");
  }

  // ------------------------------------------------ strings, continued

  /** Python's `s.lstrip(chars)`. */
  function LStripChars(s: string, chars: set<char>): (r: string)
    ensures |r| <= |s| && r == s[|s| - |r|..]
    ensures r == [] || r[0] !in chars
    ensures forall i :: 0 <= i < |s| - |r| ==> s[i] in chars
  {
    if s != [] && s[0] in chars then
      var r := LStripChars(s[1..], chars);
      assert forall i :: 1 <= i < |s| ==> s[i] == s[1..][i - 1];
      assert s[1..][|s| - 1 - |r|..] == s[|s| - |r|..];
      r
    else s
  }

  /** Python's `s.rstrip(chars)`. */
  function RStripChars(s: string, chars: set<char>): (r: string)
    ensures |r| <= |s| && r == s[..|r|]
    ensures r == [] || r[|r| - 1] !in chars
    ensures forall i :: |r| <= i < |s| ==> s[i] in chars
  {
    if s != [] && s[|s| - 1] in chars then
      var r := RStripChars(s[..|s| - 1], chars);
      assert forall i :: 0 <= i < |s| - 1 ==> s[i] == s[..|s| - 1][i];
      assert s[..|s| - 1][..|r|] == s[..|r|];
      r
    else s
  }

  /** Python's `s.strip(chars)`. */
  function StripChars(s: string, chars: set<char>): (r: string)
    ensures |r| <= |s|
    ensures r == [] || (r[0] !in chars && r[|r| - 1] !in chars)
  {
    RStripChars(LStripChars(s, chars), chars)
  }

  /** The end of the run of characters passing `p` from `i`. */
  function RunEnd(s: string, i: nat, p: char -> bool): (r: nat)
    requires i <= |s|
    ensures i <= r <= |s|
    ensures forall q :: i <= q < r ==> p(s[q])
    ensures r < |s| ==> !p(s[r])
    decreases |s| - i
  {
    if i < |s| && p(s[i]) then RunEnd(s, i + 1, p) else i
  }

  /** Python's `s.split(sep)` for a one-character separator: never an empty list. */
  function SplitOn(s: string, sep: char): (r: seq<string>)
    ensures |r| >= 1
    ensures forall k :: 0 <= k < |r| ==> sep !in r[k]
    ensures sep !in s ==> r == [s]
  {
    if s == [] then [""]
    else
      var rest := SplitOn(s[1..], sep);
      if s[0] == sep then [""] + rest
      else
        assert sep !in s ==> sep !in s[1..];
        assert sep !in s ==> [s[0]] + s[1..] == s;
        [[s[0]] + rest[0]] + rest[1..]
  }

  // ------------------------------------------------- maxima and filters

  /** Python's `max(values)`, with 0 for no values (the scores are never negative). */
  function SeqMax(s: seq<nat>): (r: nat)
    ensures forall k :: 0 <= k < |s| ==> s[k] <= r
    ensures s == [] ==> r == 0
    ensures s != [] ==> exists k :: 0 <= k < |s| && s[k] == r
  {
    if s == [] then 0
    else
      var m := SeqMax(s[..|s| - 1]);
      assert forall k :: 0 <= k < |s| - 1 ==> s[..|s| - 1][k] == s[k];
      if s[|s| - 1] > m then s[|s| - 1] else m
  }

  /** The first index holding the maximum, as Python's `max(keys, key=...)` picks it. */
  function FirstArgMax(s: seq<nat>): (r: nat)
    requires s != []
    ensures r < |s| && s[r] == SeqMax(s)
    ensures forall j :: 0 <= j < r ==> s[j] < s[r]
  {
    if |s| == 1 then 0
    else
      var init := s[..|s| - 1];
      var k := FirstArgMax(init);
      assert forall j :: 0 <= j < |s| - 1 ==> init[j] == s[j];
      if s[|s| - 1] > SeqMax(init) then |s| - 1 else k
  }

  predicate Distinct<K(==)>(s: seq<K>)
  {
    forall i, j :: 0 <= i < j < |s| ==> s[i] != s[j]
  }

  /** `[x for x in xs if p(x)]`. */
  function Filter<K(==)>(xs: seq<K>, p: K -> bool): (r: seq<K>)
    ensures |r| <= |xs|
  {
    if xs == [] then []
    else Filter(xs[..|xs| - 1], p) + (if p(xs[|xs| - 1]) then [xs[|xs| - 1]] else [])
  }

  /** `Filter` keeps exactly the elements that pass. */
  lemma {:induction false} FilterSpec<K>(xs: seq<K>, p: K -> bool)
    ensures forall k :: 0 <= k < |Filter(xs, p)| ==> Filter(xs, p)[k] in xs && p(Filter(xs, p)[k])
    ensures forall i :: 0 <= i < |xs| && p(xs[i]) ==> xs[i] in Filter(xs, p)
  {
    if xs != [] {
      var init := xs[..|xs| - 1];
      FilterSpec(init, p);
      assert forall i :: 0 <= i < |xs| - 1 ==> init[i] == xs[i];
      assert forall x :: x in init ==> x in xs;
    }
  }

  lemma FilterStep<K>(xs: seq<K>, p: K -> bool, n: int)
    requires 0 <= n < |xs|
    ensures Filter(xs[..n + 1], p) == Filter(xs[..n], p) + (if p(xs[n]) then [xs[n]] else [])
  {
    assert xs[..n + 1][..n] == xs[..n];
  }

  /** `Filter` read from the front: the first element, then the rest. */
  lemma {:induction false} FilterCons<K>(x: K, xs: seq<K>, p: K -> bool)
    ensures Filter([x] + xs, p) == (if p(x) then [x] else []) + Filter(xs, p)
    decreases |xs|
  {
    var ys := [x] + xs;
    if xs == [] {
      assert ys[..|ys| - 1] == [];
    } else {
      var init := xs[..|xs| - 1];
      assert ys[..|ys| - 1] == [x] + init;
      FilterCons(x, init, p);
    }
  }

  /** When every element passes, `Filter` keeps them all. */
  lemma {:induction false} FilterAll<K>(xs: seq<K>, p: K -> bool)
    requires forall i :: 0 <= i < |xs| ==> p(xs[i])
    ensures Filter(xs, p) == xs
  {
    if xs != [] {
      FilterAll(xs[..|xs| - 1], p);
    }
  }

  /** `len([x for x in xs if p(x)])`. */
  function CountWhere<T>(xs: seq<T>, p: T -> bool): (r: nat)
    ensures r <= |xs|
  {
    if xs == [] then 0
    else CountWhere(xs[..|xs| - 1], p) + (if p(xs[|xs| - 1]) then 1 else 0)
  }

  /** Nothing passes, nothing is counted. */
  lemma {:induction false} CountWhereNone<T>(xs: seq<T>, p: T -> bool)
    requires forall i :: 0 <= i < |xs| ==> !p(xs[i])
    ensures CountWhere(xs, p) == 0
  {
    if xs != [] {
      CountWhereNone(xs[..|xs| - 1], p);
    }
  }

  lemma {:induction false} CountWhereFilter<T>(xs: seq<T>, p: T -> bool)
    ensures CountWhere(xs, p) == |Filter(xs, p)|
  {
    if xs != [] {
      CountWhereFilter(xs[..|xs| - 1], p);
    }
  }

  /** An element that passes makes the count positive. */
  lemma {:induction false} CountWhereMember<T>(xs: seq<T>, p: T -> bool, i: int)
    requires 0 <= i < |xs| && p(xs[i])
    ensures CountWhere(xs, p) >= 1
  {
    if i < |xs| - 1 {
      CountWhereMember(xs[..|xs| - 1], p, i);
    }
  }

  /** Counting two disjoint tests counts their union. */
  lemma {:induction false} CountWhereDisjoint<T>(xs: seq<T>, p: T -> bool, q: T -> bool, pq: T -> bool)
    requires forall x :: pq(x) == (p(x) || q(x)) && !(p(x) && q(x))
    ensures CountWhere(xs, pq) == CountWhere(xs, p) + CountWhere(xs, q)
  {
    if xs != [] {
      CountWhereDisjoint(xs[..|xs| - 1], p, q, pq);
    }
  }

  /** Filtering twice by the same test changes nothing. */
  lemma {:induction false} FilterIdempotent<K>(xs: seq<K>, p: K -> bool)
    ensures Filter(Filter(xs, p), p) == Filter(xs, p)
  {
    if xs != [] {
      var init := xs[..|xs| - 1];
      var x := xs[|xs| - 1];
      FilterIdempotent(init, p);
      var f := Filter(init, p);
      assert Filter(xs, p) == f + (if p(x) then [x] else []);
      if p(x) {
        assert (f + [x])[..|f|] == f;
        assert Filter(f + [x], p) == Filter(f, p) + [x];
        assert Filter(Filter(xs, p), p) == f + [x];
      } else {
        assert f + [] == f;
      }
    }
  }

  /** Filtering keeps the order, so it keeps distinct elements distinct. */
  lemma {:induction false} FilterDistinct<K>(xs: seq<K>, p: K -> bool)
    requires Distinct(xs)
    ensures Distinct(Filter(xs, p))
  {
    if xs != [] {
      var init := xs[..|xs| - 1];
      var x := xs[|xs| - 1];
      FilterDistinct(init, p);
      FilterSpec(init, p);
      assert x !in init;
    }
  }

  lemma DistinctAppend<K>(s: seq<K>, x: K)
    requires Distinct(s) && x !in s
    ensures Distinct(s + [x])
  {
  }

  /** `[f(x, i) for i, x in enumerate(xs)]`. */
  function Indexed<T, U>(xs: seq<T>, f: (T, nat) -> U): (r: seq<U>)
    ensures |r| == |xs|
    ensures forall i :: 0 <= i < |xs| ==> r[i] == f(xs[i], i)
  {
    seq(|xs|, i requires 0 <= i < |xs| => f(xs[i], i))
  }

  lemma IndexedStep<T, U>(xs: seq<T>, j: nat, f: (T, nat) -> U)
    requires j < |xs|
    ensures Indexed(xs[..j + 1], f) == Indexed(xs[..j], f) + [f(xs[j], j)]
  {
    var before, after := Indexed(xs[..j], f), Indexed(xs[..j + 1], f);
    forall i | 0 <= i < j
      ensures after[i] == before[i]
    {
      assert xs[..j + 1][i] == xs[..j][i];
    }
  }

  /** `[f(x) for x in xs if p(x)]`. */
  function Collect<T, U(==)>(xs: seq<T>, p: T -> bool, f: T -> U): (r: seq<U>)
    ensures |r| <= |xs|
    ensures forall i :: 0 <= i < |xs| && p(xs[i]) ==> f(xs[i]) in r
  {
    if xs == [] then []
    else
      var n := |xs| - 1;
      var init := Collect(xs[..n], p, f);
      assert forall i :: 0 <= i < n ==> xs[..n][i] == xs[i];
      init + (if p(xs[n]) then [f(xs[n])] else [])
  }

  /** Everything collected is the image of an element that passed the filter. */
  lemma {:induction false} CollectSource<T, U>(xs: seq<T>, p: T -> bool, f: T -> U, k: int)
    requires 0 <= k < |Collect(xs, p, f)|
    ensures exists i :: 0 <= i < |xs| && p(xs[i]) && Collect(xs, p, f)[k] == f(xs[i])
  {
    var n := |xs| - 1;
    var init := Collect(xs[..n], p, f);
    if k < |init| {
      CollectSource(xs[..n], p, f, k);
      var i :| 0 <= i < n && p(xs[..n][i]) && init[k] == f(xs[..n][i]);
      assert xs[..n][i] == xs[i];
    } else {
      assert p(xs[n]);
    }
  }

  /** Nothing is collected exactly when no element passes. */
  lemma {:induction false} CollectEmpty<T, U>(xs: seq<T>, p: T -> bool, f: T -> U)
    ensures Collect(xs, p, f) == [] <==> forall i :: 0 <= i < |xs| ==> !p(xs[i])
  {
    if xs != [] {
      var n := |xs| - 1;
      CollectEmpty(xs[..n], p, f);
      assert forall i :: 0 <= i < n ==> xs[..n][i] == xs[i];
    }
  }

  /** `[f(x) for x in xs]` where `f` may raise: the first exception ends the loop. */
  function MapAll<T, U>(xs: seq<T>, f: T -> Result<U>): Result<seq<U>>
  {
    if xs == [] then Ok([])
    else
      match MapAll(xs[..|xs| - 1], f)
      case Err(e) => Err(e)
      case Ok(prev) =>
        match f(xs[|xs| - 1])
        case Err(e) => Err(e)
        case Ok(y) => Ok(prev + [y])
  }

  /** The loop raises exactly when some element raises; otherwise it maps every element, in order. */
  lemma {:induction false} MapAllSpec<T, U>(xs: seq<T>, f: T -> Result<U>)
    ensures MapAll(xs, f).Err? <==> exists i :: 0 <= i < |xs| && f(xs[i]).Err?
    ensures MapAll(xs, f).Ok? ==>
      |MapAll(xs, f).value| == |xs| && forall i :: 0 <= i < |xs| ==> f(xs[i]).Ok? && MapAll(xs, f).value[i] == f(xs[i]).value
  {
    if xs != [] {
      var n := |xs| - 1;
      MapAllSpec(xs[..n], f);
      assert forall i :: 0 <= i < n ==> xs[..n][i] == xs[i];
      if MapAll(xs[..n], f).Err? {
        var i :| 0 <= i < n && f(xs[..n][i]).Err?;
        assert f(xs[i]).Err?;
      }
    }
  }

  /** Once an element raises, the rest of the loop does not run. */
  lemma {:induction false} MapAllErr<T, U>(xs: seq<T>, f: T -> Result<U>, k: nat)
    requires k <= |xs| && MapAll(xs[..k], f).Err?
    ensures MapAll(xs, f) == MapAll(xs[..k], f)
    decreases |xs| - k
  {
    if k < |xs| {
      assert xs[..k + 1][..k] == xs[..k];
      MapAllErr(xs, f, k + 1);
    } else {
      assert xs[..k] == xs;
    }
  }

  // ------------------------------------------------- ordering and slices

  /** `xs` is ordered by `key`, highest first. */
  predicate SortedDesc<T>(xs: seq<T>, key: T -> real)
  {
    forall i, j :: 0 <= i < j < |xs| ==> key(xs[i]) >= key(xs[j])
  }

  /** Places `x` after every element whose key is at least its own, so equal keys keep their order. */
  function Insert<T>(s: seq<T>, x: T, key: T -> real): (r: seq<T>)
  {
    if s == [] then [x]
    else if key(s[|s| - 1]) >= key(x) then s + [x]
    else Insert(s[..|s| - 1], x, key) + [s[|s| - 1]]
  }

  /** Python's stable `xs.sort(key=key, reverse=True)`. */
  function SortDesc<T>(xs: seq<T>, key: T -> real): seq<T>
  {
    if xs == [] then [] else Insert(SortDesc(xs[..|xs| - 1], key), xs[|xs| - 1], key)
  }

  lemma {:induction false} InsertPerm<T>(s: seq<T>, x: T, key: T -> real)
    ensures multiset(Insert(s, x, key)) == multiset(s) + multiset{x}
  {
    if s != [] && key(s[|s| - 1]) < key(x) {
      var init, last := s[..|s| - 1], s[|s| - 1];
      assert s == init + [last];
      InsertPerm(init, x, key);
    }
  }

  lemma {:induction false} InsertSorted<T>(s: seq<T>, x: T, key: T -> real)
    requires SortedDesc(s, key)
    ensures SortedDesc(Insert(s, x, key), key)
  {
    if s != [] && key(s[|s| - 1]) < key(x) {
      var init, last := s[..|s| - 1], s[|s| - 1];
      InsertSorted(init, x, key);
      InsertPerm(init, x, key);
      var ins := Insert(init, x, key);
      forall i | 0 <= i < |ins|
        ensures key(ins[i]) >= key(last)
      {
        var y := ins[i];
        assert y in multiset(ins);
        if y != x {
          assert y in multiset(init);
          var j :| 0 <= j < |init| && init[j] == y;
          assert s[j] == y;
        }
      }
      assert Insert(s, x, key) == ins + [last];
    }
  }

  /** The sort yields the same elements, highest key first. */
  lemma SortDescSpec<T>(xs: seq<T>, key: T -> real)
    ensures SortedDesc(SortDesc(xs, key), key)
    ensures multiset(SortDesc(xs, key)) == multiset(xs)
  {
    SortDescSorted(xs, key);
    SortDescPerm(xs, key);
  }

  lemma {:induction false} SortDescSorted<T>(xs: seq<T>, key: T -> real)
    ensures SortedDesc(SortDesc(xs, key), key)
  {
    if xs != [] {
      var init := xs[..|xs| - 1];
      SortDescSorted(init, key);
      InsertSorted(SortDesc(init, key), xs[|xs| - 1], key);
    }
  }

  lemma {:induction false} SortDescPerm<T>(xs: seq<T>, key: T -> real)
    ensures multiset(SortDesc(xs, key)) == multiset(xs)
  {
    if xs != [] {
      var init, last := xs[..|xs| - 1], xs[|xs| - 1];
      var sorted := SortDesc(init, key);
      SortDescPerm(init, key);
      InsertPerm(sorted, last, key);
      MultisetSnoc(Insert(sorted, last, key), sorted, init, last);
      assert xs == init + [last];
    }
  }

  lemma MultisetSnoc<T>(r: seq<T>, s: seq<T>, init: seq<T>, last: T)
    requires multiset(r) == multiset(s) + multiset{last} && multiset(s) == multiset(init)
    ensures multiset(r) == multiset(init + [last])
  {
  }

  /** Keeping some elements of an ordered sequence keeps it ordered. */
  lemma {:induction false} FilterSorted<T>(xs: seq<T>, p: T -> bool, key: T -> real)
    requires SortedDesc(xs, key)
    ensures SortedDesc(Filter(xs, p), key)
  {
    if xs != [] {
      var init := xs[..|xs| - 1];
      FilterSorted(init, p, key);
      FilterSpec(init, p);
      var f := Filter(init, p);
      forall k | 0 <= k < |f|
        ensures key(f[k]) >= key(xs[|xs| - 1])
      {
        var i :| 0 <= i < |init| && init[i] == f[k];
      }
    }
  }

  /** Python's `s[:n]`: a negative `n` counts back from the end. */
  function Take<T>(s: seq<T>, n: int): (r: seq<T>)
    ensures n >= 0 ==> |r| == Min(n, |s|)
    ensures n < 0 ==> |r| == Max(0, |s| + n)
    ensures r == s[..|r|]
  {
    if n >= 0 then s[..Min(n, |s|)] else s[..Max(0, |s| + n)]
  }

  // ---------------------------------------------------------------- real sequences

  /** `sum(xs)`. */
  function SumReal(xs: seq<real>): real
  {
    if xs == [] then 0.0 else SumReal(xs[..|xs| - 1]) + xs[|xs| - 1]
  }

  /** `min(xs)`. */
  function MinOf(xs: seq<real>): (r: real)
    requires xs != []
    ensures r in xs && forall i :: 0 <= i < |xs| ==> r <= xs[i]
  {
    if |xs| == 1 then xs[0]
    else
      var m := MinOf(xs[..|xs| - 1]);
      assert forall i :: 0 <= i < |xs| - 1 ==> xs[..|xs| - 1][i] == xs[i];
      if xs[|xs| - 1] < m then xs[|xs| - 1] else m
  }

  /** `max(xs)`. */
  function MaxOf(xs: seq<real>): (r: real)
    requires xs != []
    ensures r in xs && forall i :: 0 <= i < |xs| ==> r >= xs[i]
  {
    if |xs| == 1 then xs[0]
    else
      var m := MaxOf(xs[..|xs| - 1]);
      assert forall i :: 0 <= i < |xs| - 1 ==> xs[..|xs| - 1][i] == xs[i];
      if xs[|xs| - 1] > m then xs[|xs| - 1] else m
  }

  /** `statistics.mean(xs)`, exactly. */
  function Mean(xs: seq<real>): real
    requires xs != []
  {
    SumReal(xs) / |xs| as real
  }

  lemma {:induction false} SumRealLower(xs: seq<real>, lo: real)
    requires forall i :: 0 <= i < |xs| ==> lo <= xs[i]
    ensures |xs| as real * lo <= SumReal(xs)
  {
    if xs != [] {
      var n := |xs| - 1;
      SumRealLower(xs[..n], lo);
      Distribute(n, lo);
    }
  }

  lemma {:induction false} SumRealUpper(xs: seq<real>, hi: real)
    requires forall i :: 0 <= i < |xs| ==> xs[i] <= hi
    ensures SumReal(xs) <= |xs| as real * hi
  {
    if xs != [] {
      var n := |xs| - 1;
      SumRealUpper(xs[..n], hi);
      Distribute(n, hi);
    }
  }

  lemma Distribute(n: nat, c: real)
    ensures (n + 1) as real * c == n as real * c + c
  {
  }

  /** Dividing both sides of `a <= n * c` or `n * c <= a` by a positive `n`. */
  lemma DivideBounds(a: real, n: real, c: real)
    requires n > 0.0
    ensures a <= n * c ==> a / n <= c
    ensures n * c <= a ==> c <= a / n
  {
    assert a / n * n == a;
  }

  lemma MeanBounds(total: real, n: nat, lo: real, hi: real)
    requires n > 0 && n as real * lo <= total <= n as real * hi
    ensures lo <= total / n as real <= hi
  {
    DivideBounds(total, n as real, lo);
    DivideBounds(total, n as real, hi);
  }

  /** The mean lies between the smallest and the largest value. */
  lemma MeanBetween(xs: seq<real>)
    requires xs != []
    ensures MinOf(xs) <= Mean(xs) <= MaxOf(xs)
  {
    SumRealLower(xs, MinOf(xs));
    SumRealUpper(xs, MaxOf(xs));
    MeanBounds(SumReal(xs), |xs|, MinOf(xs), MaxOf(xs));
  }

  /** A count over a larger positive count is a share in [0,1]. */
  lemma ShareBounds(a: nat, b: nat)
    requires 0 < b && a <= b
    ensures 0.0 <= a as real / b as real <= 1.0
  {
    DivideBounds(a as real, b as real, 1.0);
    DivideBounds(a as real, b as real, 0.0);
  }
}
