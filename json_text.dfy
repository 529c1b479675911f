/**
 * JSON values as the tools build them (Python dicts keep insertion order, so an object is a
 * sequence of entries), dictionary lookup, and the text `json.dumps` writes for them: the
 * default `ensure_ascii` string escaping, the compact and the indented layouts.
 */
module JsonText {
  import opened Common

  datatype Json =
    | Null
    | Bool(b: bool)
    | Int(n: int)
    | Float(x: real)
    | Str(s: string)
    | List(items: seq<Json>)
    | Dict(entries: seq<Entry>)

  datatype Entry = Entry(key: string, value: Json)

  // ---------------------------------------------------------------- lookup

  function Keys(es: seq<Entry>): (r: seq<string>)
    ensures |r| == |es| && forall i :: 0 <= i < |es| ==> r[i] == es[i].key
  {
    seq(|es|, i requires 0 <= i < |es| => es[i].key)
  }

  /** `k in d`. */
  predicate HasKey(es: seq<Entry>, k: string)
  {
    exists i :: 0 <= i < |es| && es[i].key == k
  }

  /** `d.get(k)` as an option: the value of the first entry with key `k`. */
  function Lookup(es: seq<Entry>, k: string): (r: Option<Json>)
    ensures r.Some? <==> HasKey(es, k)
    decreases |es|
  {
    if es == [] then None
    else if es[0].key == k then Some(es[0].value)
    else
      var r := Lookup(es[1..], k);
      assert forall i :: 0 <= i < |es| - 1 ==> es[1..][i] == es[i + 1];
      assert HasKey(es, k) ==> HasKey(es[1..], k) by {
        if HasKey(es, k) {
          var i :| 0 <= i < |es| && es[i].key == k;
          assert es[1..][i - 1].key == k;
        }
      }
      r
  }

  /** What a lookup finds is the value of the first entry under that key. */
  lemma {:induction false} LookupFirst(es: seq<Entry>, k: string)
    requires HasKey(es, k)
    ensures exists i :: 0 <= i < |es| && es[i] == Entry(k, Lookup(es, k).value) && forall j :: 0 <= j < i ==> es[j].key != k
    decreases |es|
  {
    if es[0].key != k {
      LookupFirst(es[1..], k);
      var i :| 0 <= i < |es[1..]| && es[1..][i] == Entry(k, Lookup(es[1..], k).value) && forall j :: 0 <= j < i ==> es[1..][j].key != k;
      assert es[i + 1] == Entry(k, Lookup(es, k).value);
      assert forall j :: 0 < j < i + 1 ==> es[j] == es[1..][j - 1];
    } else {
      assert es[0] == Entry(k, Lookup(es, k).value);
    }
  }

  /** `d[k]` on a key that is present. */
  function Get(es: seq<Entry>, k: string): Json
    requires HasKey(es, k)
  {
    Lookup(es, k).value
  }

  /** The Python type name an exception message gives. */
  function TypeName(v: Json): string
  {
    match v
    case Null => "NoneType"
    case Bool(_) => "bool"
    case Int(_) => "int"
    case Float(_) => "float"
    case Str(_) => "str"
    case List(_) => "list"
    case Dict(_) => "dict"
  }

  /**
   * `str(v)`, which is also what `f"{v}"` prints: strings as they are, integers and constants in
   * Python's spelling, and `repr` (which is not modelled) for floats, lists and dictionaries.
   */
  function Show(v: Json, repr: Json -> string): string
  {
    match v
    case Null => "None"
    case Bool(b) => if b then "True" else "False"
    case Int(n) => IntToString(n)
    case Str(s) => s
    case _ => repr(v)
  }

  /** The AttributeError of calling `.get` on a value that is not a dictionary. */
  function NoGet(v: Json): string
  {
    "AttributeError: '" + TypeName(v) + "' object has no attribute 'get'"
  }

  /** `d.get(k, default)`. */
  function GetOr(es: seq<Entry>, k: string, default: Json): (r: Json)
    ensures HasKey(es, k) ==> r == Get(es, k)
    ensures !HasKey(es, k) ==> r == default
  {
    match Lookup(es, k)
    case Some(v) => v
    case None => default
  }

  /** `d[k] = v`: overwrite the first entry with that key in place, or append a new one. */
  function Put(es: seq<Entry>, k: string, v: Json): (r: seq<Entry>)
  {
    if es == [] then [Entry(k, v)]
    else if es[0].key == k then [Entry(k, v)] + es[1..]
    else [es[0]] + Put(es[1..], k, v)
  }

  lemma {:induction false} LookupPut(es: seq<Entry>, k: string, v: Json, q: string)
    ensures Lookup(Put(es, k, v), q) == if q == k then Some(v) else Lookup(es, q)
  {
    if es != [] && es[0].key != k {
      LookupPut(es[1..], k, v, q);
    }
  }

  /** Looking up in a concatenation looks in the first part, then the second. */
  lemma {:induction false} LookupAppend(a: seq<Entry>, b: seq<Entry>, k: string)
    ensures HasKey(a + b, k) <==> HasKey(a, k) || HasKey(b, k)
    ensures Lookup(a + b, k) == if HasKey(a, k) then Lookup(a, k) else Lookup(b, k)
    decreases |a|
  {
    if a == [] {
      assert a + b == b;
    } else if a[0].key != k {
      assert (a + b)[1..] == a[1..] + b;
      LookupAppend(a[1..], b, k);
      HasKeyTail(a, k);
      HasKeyTail(a + b, k);
    } else {
      assert (a + b)[0] == a[0];
      assert HasKey(a, k) && HasKey(a + b, k);
    }
  }

  /** Past a first entry under another key, the key is present exactly when the rest holds it. */
  lemma HasKeyTail(es: seq<Entry>, k: string)
    requires es != [] && es[0].key != k
    ensures HasKey(es, k) <==> HasKey(es[1..], k)
  {
    if HasKey(es, k) {
      var i :| 0 <= i < |es| && es[i].key == k;
      assert es[1..][i - 1].key == k;
    }
    if HasKey(es[1..], k) {
      var i :| 0 <= i < |es[1..]| && es[1..][i].key == k;
      assert es[i + 1].key == k;
    }
  }

  lemma LookupSingle(k: string, v: Json, q: string)
    ensures HasKey([Entry(k, v)], q) <==> q == k
    ensures q == k ==> Lookup([Entry(k, v)], q) == Some(v)
  {
    assert [Entry(k, v)][0].key == k;
  }

  // ---------------------------------------------------------------- string escaping

  predicate Printable(c: char)
  {
    ' ' <= c <= '~'
  }

  predicate AllPrintable(s: string)
  {
    forall i :: 0 <= i < |s| ==> Printable(s[i])
  }

  function HexDigit(d: nat): (c: char)
    requires d < 16
  {
    if d < 10 then (48 + d) as char else (87 + d) as char
  }

  /** `'%04x' % n`: four lower-case hexadecimal digits. */
  function Hex4(n: nat): (r: string)
    requires n < 0x10000
    ensures |r| == 4
  {
    [HexDigit(n / 0x1000), HexDigit(n / 0x100 % 16), HexDigit(n / 16 % 16), HexDigit(n % 16)]
  }

  /** The escape of one character: printable ASCII stays, `"`, `\` and the five short escapes get a
   *  backslash, all else is `\uXXXX`, as a surrogate pair above U+FFFF. */
  function EscapeChar(c: char): (r: string)
    ensures |r| >= 1 && AllPrintable(r)
  {
    if c == '"' then "\\\""
    else if c == '\\' then "\\\\"
    else if c == '\n' then "\\n"
    else if c == '\r' then "\\r"
    else if c == '\t' then "\\t"
    else if c == '\U{8}' then "\\b"
    else if c == '\U{C}' then "\\f"
    else if Printable(c) then [c]
    else if c as int < 0x10000 then "\\u" + Hex4(c as int)
    else
      var v := c as int - 0x10000;
      "\\u" + Hex4(0xD800 + v / 0x400) + "\\u" + Hex4(0xDC00 + v % 0x400)
  }

  function Escape(s: string): (r: string)
    ensures AllPrintable(r)
  {
    if s == [] then [] else EscapeChar(s[0]) + Escape(s[1..])
  }

  /** A string as `json.dumps` writes it. */
  function Quote(s: string): (r: string)
    ensures AllPrintable(r)
  {
    "\"" + Escape(s) + "\""
  }

  /** Text without quotes, backslashes or characters outside printable ASCII is written as it is. */
  lemma {:induction false} EscapePlain(s: string)
    requires forall i :: 0 <= i < |s| ==> Printable(s[i]) && s[i] != '"' && s[i] != '\\'
    ensures Escape(s) == s
  {
    if s != [] {
      EscapePlain(s[1..]);
      assert [s[0]] + s[1..] == s;
    }
  }

  // ---------------------------------------------------------------- reading an escape back

  function ParseHexDigit(c: char): (r: Option<nat>)
    ensures r.Some? ==> r.value < 16
  {
    if '0' <= c <= '9' then Some(c as int - 48)
    else if 'a' <= c <= 'f' then Some(c as int - 87)
    else if 'A' <= c <= 'F' then Some(c as int - 55)
    else None
  }

  function ParseHex4(t: string): (r: Option<nat>)
    requires |t| == 4
    ensures r.Some? ==> r.value < 0x10000
  {
    match (ParseHexDigit(t[0]), ParseHexDigit(t[1]), ParseHexDigit(t[2]), ParseHexDigit(t[3]))
    case (Some(a), Some(b), Some(c), Some(d)) => Some(a * 0x1000 + b * 0x100 + c * 16 + d)
    case _ => None
  }

  /** The character a one-letter escape stands for. */
  function ShortEscape(c: char): Option<char>
  {
    if c == '"' then Some('"')
    else if c == '\\' then Some('\\')
    else if c == '/' then Some('/')
    else if c == 'n' then Some('\n')
    else if c == 'r' then Some('\r')
    else if c == 't' then Some('\t')
    else if c == 'b' then Some('\U{8}')
    else if c == 'f' then Some('\U{C}')
    else None
  }

  function Prepend(c: char, rest: Option<string>): Option<string>
  {
    match rest
    case None => None
    case Some(s) => Some([c] + s)
  }

  /**
   * The body of a JSON string literal decoded back to text, as `json.loads` reads it; a malformed
   * escape, or a surrogate that is not half of a pair, gives None.
   */
  function Unescape(t: string): Option<string>
    decreases |t|
  {
    if t == [] then Some([])
    else if t[0] != '\\' then Prepend(t[0], Unescape(t[1..]))
    else if |t| < 2 then None
    else if t[1] != 'u' then
      match ShortEscape(t[1])
      case None => None
      case Some(c) => Prepend(c, Unescape(t[2..]))
    else if |t| < 6 then None
    else
      match ParseHex4(t[2..6])
      case None => None
      case Some(n) =>
        if 0xDC00 <= n < 0xE000 then None
        else if n < 0xD800 || 0xE000 <= n then Prepend(n as char, Unescape(t[6..]))
        else if |t| < 12 || t[6..8] != "\\u" then None
        else
          match ParseHex4(t[8..12])
          case None => None
          case Some(m) =>
            if 0xDC00 <= m < 0xE000
            then Prepend((0x10000 + (n - 0xD800) * 0x400 + (m - 0xDC00)) as char, Unescape(t[12..]))
            else None
  }

  lemma HexDigitRoundTrip(d: nat)
    requires d < 16
    ensures ParseHexDigit(HexDigit(d)) == Some(d)
  {
  }

  lemma Hex4RoundTrip(n: nat)
    requires n < 0x10000
    ensures ParseHex4(Hex4(n)) == Some(n)
  {
    var a, b, c, d := n / 0x1000, n / 0x100 % 16, n / 16 % 16, n % 16;
    HexDigitRoundTrip(a);
    HexDigitRoundTrip(b);
    HexDigitRoundTrip(c);
    HexDigitRoundTrip(d);
    HexDigitsCompose(n);
    var h := Hex4(n);
    assert h == [HexDigit(a), HexDigit(b), HexDigit(c), HexDigit(d)];
  }

  /** The four digits of `'%04x' % n` spell `n` in base 16. */
  lemma HexDigitsCompose(n: nat)
    requires n < 0x10000
    ensures n / 0x1000 * 0x1000 + n / 0x100 % 16 * 0x100 + n / 16 % 16 * 16 + n % 16 == n
  {
    assert n / 0x100 == n / 0x1000 * 16 + n / 0x100 % 16;
    assert n / 16 == n / 0x100 * 16 + n / 16 % 16;
    assert n == n / 16 * 16 + n % 16;
  }

  predicate HasShortEscape(c: char)
  {
    c == '"' || c == '\\' || c == '\n' || c == '\r' || c == '\t' || c == '\U{8}' || c == '\U{C}'
  }

  lemma UnescapeShort(c: char, rest: string)
    requires HasShortEscape(c)
    ensures Unescape(EscapeChar(c) + rest) == Prepend(c, Unescape(rest))
  {
    var t := EscapeChar(c) + rest;
    assert |EscapeChar(c)| == 2 && t[2..] == rest;
    assert ShortEscape(t[1]) == Some(c);
  }

  lemma UnescapeBmp(c: char, rest: string)
    requires !HasShortEscape(c) && !Printable(c) && c as int < 0x10000
    ensures Unescape(EscapeChar(c) + rest) == Prepend(c, Unescape(rest))
  {
    var t := EscapeChar(c) + rest;
    Hex4RoundTrip(c as int);
    assert t[2..6] == Hex4(c as int);
    assert t[6..] == rest;
  }

  /** The two halves of a surrogate pair lie in their ranges and recombine to the code point. */
  lemma SurrogateSplit(u: int)
    requires 0x10000 <= u < 0x110000
    ensures 0xD800 <= 0xD800 + (u - 0x10000) / 0x400 < 0xDC00
    ensures 0xDC00 <= 0xDC00 + (u - 0x10000) % 0x400 < 0xE000
    ensures 0x10000 + (u - 0x10000) / 0x400 * 0x400 + (u - 0x10000) % 0x400 == u
  {
  }

  /** A `\\u` pair of a high and a low surrogate decodes to the character they combine to. */
  lemma UnescapeSurrogates(hs: string, ls: string, rest: string, n: nat, m: nat)
    requires |hs| == 4 && |ls| == 4
    requires ParseHex4(hs) == Some(n) && 0xD800 <= n < 0xDC00
    requires ParseHex4(ls) == Some(m) && 0xDC00 <= m < 0xE000
    ensures Unescape("\\u" + hs + "\\u" + ls + rest)
         == Prepend((0x10000 + (n - 0xD800) * 0x400 + (m - 0xDC00)) as char, Unescape(rest))
  {
    var t := "\\u" + hs + "\\u" + ls + rest;
    assert t[2..6] == hs;
    assert t[6..8] == "\\u";
    assert t[8..12] == ls;
    assert t[12..] == rest;
  }

  lemma UnescapePair(c: char, rest: string)
    requires c as int >= 0x10000
    ensures Unescape(EscapeChar(c) + rest) == Prepend(c, Unescape(rest))
  {
    var v := c as int - 0x10000;
    var hi, lo := 0xD800 + v / 0x400, 0xDC00 + v % 0x400;
    SurrogateSplit(c as int);
    Hex4RoundTrip(hi);
    Hex4RoundTrip(lo);
    var hs, ls := Hex4(hi), Hex4(lo);
    EscapePairText(c);
    UnescapeSurrogates(hs, ls, rest, hi, lo);
    assert 0x10000 + (hi - 0xD800) * 0x400 + (lo - 0xDC00) == c as int;
  }

  lemma EscapePairText(c: char)
    requires c as int >= 0x10000
    ensures var v := c as int - 0x10000;
      EscapeChar(c) == "\\u" + Hex4(0xD800 + v / 0x400) + "\\u" + Hex4(0xDC00 + v % 0x400)
  {
  }

  /** Decoding one escaped character followed by anything decodes that character first. */
  lemma UnescapeEscapeChar(c: char, rest: string)
    ensures Unescape(EscapeChar(c) + rest) == Prepend(c, Unescape(rest))
  {
    if HasShortEscape(c) {
      UnescapeShort(c, rest);
    } else if Printable(c) {
      var t := EscapeChar(c) + rest;
      assert t[1..] == rest;
    } else if c as int < 0x10000 {
      UnescapeBmp(c, rest);
    } else {
      UnescapePair(c, rest);
    }
  }

  /** `json.loads(json.dumps(s)) == s`: the escaping loses nothing. */
  lemma {:induction false} EscapeRoundTrip(s: string)
    ensures Unescape(Escape(s)) == Some(s)
  {
    if s != [] {
      EscapeRoundTrip(s[1..]);
      UnescapeEscapeChar(s[0], Escape(s[1..]));
      assert [s[0]] + s[1..] == s;
    }
  }

  // ---------------------------------------------------------------- layout

  /** `separators=(",", ":")` with no indent, or `indent=w` with the default separators. */
  datatype Style = Minified | Indented(width: nat)

  function Spaces(n: nat): (r: string)
    ensures |r| == n && forall i :: 0 <= i < n ==> r[i] == ' '
  {
    seq(n, _ => ' ')
  }

  /** What starts each member of a container at depth `level`. */
  function Newline(style: Style, level: nat): string
  {
    match style
    case Minified => ""
    case Indented(w) => "\n" + Spaces(w * level)
  }

  function KeySeparator(style: Style): string
  {
    match style
    case Minified => ":"
    case Indented(_) => ": "
  }

  /** `json.dumps(j)` at nesting depth `level`; `realText` stands for `float.__repr__`. */
  function Encode(j: Json, style: Style, level: nat, realText: real -> string): string
    decreases j, 2, 0
  {
    match j
    case Null => "null"
    case Bool(b) => if b then "true" else "false"
    case Int(n) => IntToString(n)
    case Float(x) => realText(x)
    case Str(s) => Quote(s)
    case List(items) =>
      if items == [] then "[]"
      else "[" + Newline(style, level + 1) + EncodeItems(j, |items|, style, level, realText) + Newline(style, level) + "]"
    case Dict(es) =>
      if es == [] then "{}"
      else "{" + Newline(style, level + 1) + EncodeMembers(j, |es|, style, level, realText) + Newline(style, level) + "}"
  }

  /** The first `n` items of the list `j`, separated. */
  function EncodeItems(j: Json, n: nat, style: Style, level: nat, realText: real -> string): string
    requires j.List? && 1 <= n <= |j.items|
    decreases j, 1, n
  {
    var last := Encode(j.items[n - 1], style, level + 1, realText);
    if n == 1 then last
    else EncodeItems(j, n - 1, style, level, realText) + "," + Newline(style, level + 1) + last
  }

  /** The first `n` members of the object `j`, separated. */
  function EncodeMembers(j: Json, n: nat, style: Style, level: nat, realText: real -> string): string
    requires j.Dict? && 1 <= n <= |j.entries|
    decreases j, 1, n
  {
    var e := j.entries[n - 1];
    var last := Quote(e.key) + KeySeparator(style) + Encode(e.value, style, level + 1, realText);
    if n == 1 then last
    else EncodeMembers(j, n - 1, style, level, realText) + "," + Newline(style, level + 1) + last
  }

  function Dumps(j: Json, style: Style, realText: real -> string): string
  {
    Encode(j, style, 0, realText)
  }

  /** A two-member object in the compact layout. */
  lemma MinifiedPair(k1: string, v1: Json, k2: string, v2: Json, rt: real -> string)
    ensures Dumps(Dict([Entry(k1, v1), Entry(k2, v2)]), Minified, rt)
      == "{" + Quote(k1) + ":" + Encode(v1, Minified, 1, rt) + "," + Quote(k2) + ":" + Encode(v2, Minified, 1, rt) + "}"
  {
    var j := Dict([Entry(k1, v1), Entry(k2, v2)]);
    var e1, e2 := Encode(v1, Minified, 1, rt), Encode(v2, Minified, 1, rt);
    var m1 := EncodeMembers(j, 1, Minified, 0, rt);
    assert m1 == Quote(k1) + ":" + e1;
    var m2 := EncodeMembers(j, 2, Minified, 0, rt);
    var b := Quote(k2) + ":" + e2;
    assert m2 == m1 + "," + "" + b;
    assert m1 + "," + "" == m1 + ",";
    assert Dumps(j, Minified, rt) == "{" + "" + m2 + "" + "}";
    assert "{" + "" == "{" && "{" + m2 + "" == "{" + m2;
    ConcatAssoc("{", m1, ",");
    ConcatAssoc("{" + m1 + ",", Quote(k2) + ":", e2);
    ConcatAssoc("{" + m1 + ",", Quote(k2), ":");
    ConcatAssoc("{", Quote(k1) + ":", e1);
    ConcatAssoc("{", Quote(k1), ":");
    ConcatAssoc("{", m1 + ",", b);
  }

  lemma NatToStringPrintable(n: nat)
    ensures AllPrintable(NatToString(n))
  {
  }

  lemma IntToStringPrintable(n: int)
    ensures AllPrintable(IntToString(n))
  {
    if n < 0 {
      NatToStringPrintable(-n);
    } else {
      NatToStringPrintable(n);
    }
  }

  /**
   * With `ensure_ascii` and the compact separators the text is printable ASCII throughout, in
   * particular a single line, whatever the strings inside hold.
   */
  lemma {:induction false} MinifiedPrintable(j: Json, level: nat, realText: real -> string)
    requires forall x :: AllPrintable(realText(x))
    ensures AllPrintable(Encode(j, Minified, level, realText))
    decreases j, 2, 0
  {
    match j
    case Int(n) => IntToStringPrintable(n);
    case List(items) =>
      if items != [] {
        ItemsPrintable(j, |items|, level, realText);
      }
    case Dict(es) =>
      if es != [] {
        MembersPrintable(j, |es|, level, realText);
      }
    case _ =>
  }

  lemma {:induction false} ItemsPrintable(j: Json, n: nat, level: nat, realText: real -> string)
    requires j.List? && 1 <= n <= |j.items|
    requires forall x :: AllPrintable(realText(x))
    ensures AllPrintable(EncodeItems(j, n, Minified, level, realText))
    decreases j, 1, n
  {
    MinifiedPrintable(j.items[n - 1], level + 1, realText);
    if n > 1 {
      ItemsPrintable(j, n - 1, level, realText);
    }
  }

  lemma {:induction false} MembersPrintable(j: Json, n: nat, level: nat, realText: real -> string)
    requires j.Dict? && 1 <= n <= |j.entries|
    requires forall x :: AllPrintable(realText(x))
    ensures AllPrintable(EncodeMembers(j, n, Minified, level, realText))
    decreases j, 1, n
  {
    var e := j.entries[n - 1];
    var key := Quote(e.key);
    var value := Encode(e.value, Minified, level + 1, realText);
    MinifiedPrintable(e.value, level + 1, realText);
    ConcatPrintable(key, ":");
    ConcatPrintable(key + ":", value);
    var last := key + ":" + value;
    if n > 1 {
      var before := EncodeMembers(j, n - 1, Minified, level, realText);
      MembersPrintable(j, n - 1, level, realText);
      ConcatPrintable(before, ",");
      ConcatPrintable(before + ",", last);
      assert EncodeMembers(j, n, Minified, level, realText) == before + "," + "" + last;
    }
  }

  lemma ConcatPrintable(a: string, b: string)
    requires AllPrintable(a) && AllPrintable(b)
    ensures AllPrintable(a + b)
  {
    forall i | 0 <= i < |a + b|
      ensures Printable((a + b)[i])
    {
      if i < |a| {
        assert (a + b)[i] == a[i];
      } else {
        assert (a + b)[i] == b[i - |a|];
      }
    }
  }
}
