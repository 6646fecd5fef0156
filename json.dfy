/** `JSON.parse` as the array schemas use it: a recursive-descent reader of
    the JSON text grammar (RFC 8259) producing a value tree. Numbers are kept
    exactly, as `mantissa * 10^exponent`. */
module JsonText {
  import opened Wrappers
  import opened Numbers
  import opened Strings

  datatype JsonValue =
    | JNull
    | JBool(b: bool)
    | JNumber(mantissa: int, exponent: int)
    | JString(text: string)
    | JArray(items: seq<JsonValue>)
    | JObject(members: seq<(string, JsonValue)>)

  function Pow10(n: nat): (r: nat)
    ensures r >= 1
  {
    if n == 0 then 1 else 10 * Pow10(n - 1)
  }

  /** `Number.isInteger` on the exact value of a parsed element. */
  predicate IsInteger(v: JsonValue) {
    v.JNumber? && (v.exponent >= 0 || v.mantissa % Pow10(-v.exponent) == 0)
  }

  /** The integer an integral number denotes. */
  function IntegerValue(v: JsonValue): int
    requires IsInteger(v)
  {
    if v.exponent >= 0 then v.mantissa * Pow10(v.exponent) else v.mantissa / Pow10(-v.exponent)
  }

  /** JSON's insignificant white space: space, tab, line feed, carriage return. */
  predicate IsJsonSpace(c: char) {
    c == ' ' || c == '\t' || c == '\n' || c == '\r'
  }

  function SkipSpace(s: string, i: nat): (j: nat)
    requires i <= |s|
    ensures i <= j <= |s|
    ensures forall k :: i <= k < j ==> IsJsonSpace(s[k])
    ensures j < |s| ==> !IsJsonSpace(s[j])
    decreases |s| - i
  {
    if i < |s| && IsJsonSpace(s[i]) then SkipSpace(s, i + 1) else i
  }

  /** The end of the run of decimal digits starting at `i`. */
  function DigitRunEnd(s: string, i: nat): (j: nat)
    requires i <= |s|
    ensures i <= j <= |s|
    ensures forall k :: i <= k < j ==> IsDecimalDigit(s[k])
    ensures j < |s| ==> !IsDecimalDigit(s[j])
    decreases |s| - i
  {
    if i < |s| && IsDecimalDigit(s[i]) then DigitRunEnd(s, i + 1) else i
  }

  lemma DecimalDigitsHaveValues(d: string)
    requires forall k :: 0 <= k < |d| ==> IsDecimalDigit(d[k])
    ensures forall k :: 0 <= k < |d| ==> DigitValue(d[k], 10).Some?
  {
  }

  /** The optional exponent part `[eE][+-]?digits` at `i`: its value and end. */
  function ParseExponent(s: string, i: nat): (r: Option<(int, nat)>)
    requires i <= |s|
    ensures r.Some? ==> i <= r.value.1 <= |s|
  {
    if i < |s| && (s[i] == 'e' || s[i] == 'E') then
      var a := if i + 1 < |s| && (s[i + 1] == '+' || s[i + 1] == '-') then i + 2 else i + 1;
      var b := DigitRunEnd(s, a);
      if b == a then None
      else
        DecimalDigitsHaveValues(s[a..b]);
        var e: int := DigitsValue(s[a..b], 10);
        Some((if s[i + 1] == '-' then -e else e, b))
    else Some((0, i))
  }

  /** A number: `-? (0 | [1-9][0-9]*) (. [0-9]+)? ([eE] [+-]? [0-9]+)?`. */
  function ParseNumber(s: string, i: nat): (r: Option<(JsonValue, nat)>)
    requires i <= |s|
    ensures r.Some? ==> i < r.value.1 <= |s| && r.value.0.JNumber?
  {
    var a := if i < |s| && s[i] == '-' then i + 1 else i;
    var intEnd := if a < |s| && s[a] == '0' then a + 1 else DigitRunEnd(s, a);
    if intEnd == a then None
    else
      var hasFraction := intEnd < |s| && s[intEnd] == '.';
      var fracEnd := if hasFraction then DigitRunEnd(s, intEnd + 1) else intEnd;
      if hasFraction && fracEnd == intEnd + 1 then None
      else
        var fraction := if hasFraction then s[intEnd + 1..fracEnd] else "";
        match ParseExponent(s, fracEnd)
        case None => None
        case Some((e, end)) =>
          var digits := s[a..intEnd] + fraction;
          DecimalDigitsHaveValues(digits);
          var m: int := DigitsValue(digits, 10);
          Some((JNumber(if a == i + 1 then -m else m, e - |fraction|), end))
  }

  function HexDigitsValue(s: string, i: nat): (r: Option<nat>)
    requires i + 4 <= |s|
    ensures r.Some? ==> r.value < 0x10000
  {
    var d := s[i..i + 4];
    if forall k :: 0 <= k < 4 ==> DigitValue(d[k], 16).Some? then
      Some(((DigitValue(d[0], 16).value * 16 + DigitValue(d[1], 16).value) * 16
            + DigitValue(d[2], 16).value) * 16 + DigitValue(d[3], 16).value)
    else None
  }

  /** The code unit of a `\uXXXX` escape starting at `i`, if there is one. */
  function UnicodeEscape(s: string, i: nat): (r: Option<nat>)
    ensures r.Some? ==> r.value < 0x10000
  {
    if i + 6 <= |s| && s[i] == '\\' && s[i + 1] == 'u' then HexDigitsValue(s, i + 2) else None
  }

  function SimpleEscape(c: char): Option<char> {
    match c
    case '"' => Some('"')
    case '\\' => Some('\\')
    case '/' => Some('/')
    case 'b' => Some('\U{8}')
    case 'f' => Some('\U{C}')
    case 'n' => Some('\n')
    case 'r' => Some('\r')
    case 't' => Some('\t')
    case _ => None
  }

  /** The escape sequence starting with the backslash at `i`: the character
      it stands for and the index after it. A high surrogate must be
      followed by an escaped low surrogate; the pair is one character. */
  function ReadEscape(s: string, i: nat): (r: Option<(char, nat)>)
    requires i < |s| && s[i] == '\\'
    ensures r.Some? ==> i + 2 <= r.value.1 <= |s|
    // a two-character escape stands for the character it names, and every
    // such escape is read
    ensures i + 1 < |s| && SimpleEscape(s[i + 1]).Some? <==> r.Some? && r.value.1 == i + 2
    ensures r.Some? && r.value.1 == i + 2 ==> SimpleEscape(s[i + 1]) == Some(r.value.0)
    // `\uXXXX` outside the surrogate range stands for that code point
    ensures UnicodeEscape(s, i).Some? && !(0xD800 <= UnicodeEscape(s, i).value < 0xE000) ==>
      r == Some((UnicodeEscape(s, i).value as char, i + 6))
    ensures r.Some? && r.value.1 == i + 6 ==> UnicodeEscape(s, i) == Some(r.value.0 as int)
    // a pair of escapes stands for a supplementary character, which the
    // pair encodes as UTF-16 does
    ensures r.Some? && r.value.1 != i + 2 && r.value.1 != i + 6 ==>
      var c := r.value.0 as int;
      r.value.1 == i + 12 && 0x10000 <= c &&
      UnicodeEscape(s, i) == Some(0xD800 + (c - 0x10000) / 0x400) &&
      UnicodeEscape(s, i + 6) == Some(0xDC00 + (c - 0x10000) % 0x400)
  {
    if i + 1 >= |s| then None
    else if SimpleEscape(s[i + 1]).Some? then Some((SimpleEscape(s[i + 1]).value, i + 2))
    else
      match UnicodeEscape(s, i)
      case None => None
      case Some(u) =>
        if u < 0xD800 || 0xE000 <= u then Some((u as char, i + 6))
        else if u < 0xDC00 then
          match UnicodeEscape(s, i + 6)
          case Some(low) =>
            if 0xDC00 <= low < 0xE000 then
              var c := 0x10000 + (u - 0xD800) * 0x400 + (low - 0xDC00);
              Some((c as char, i + 12))
            else None
          case None => None
        else None
  }

  /** The characters of a string literal from `i` up to its closing quote,
      appended to `acc`; the result also gives the index after the quote. */
  function ParseStringBody(s: string, i: nat, acc: string): (r: Option<(string, nat)>)
    requires i <= |s|
    ensures r.Some? ==> i < r.value.1 <= |s|
    decreases |s| - i
  {
    if i >= |s| then None
    else if s[i] == '"' then Some((acc, i + 1))
    else if (s[i] as int) < 0x20 then None
    else if s[i] != '\\' then ParseStringBody(s, i + 1, acc + [s[i]])
    else
      match ReadEscape(s, i)
      case None => None
      case Some((c, k)) => ParseStringBody(s, k, acc + [c])
  }

  function ParseString(s: string, i: nat): (r: Option<(string, nat)>)
    requires i < |s| && s[i] == '"'
    ensures r.Some? ==> i < r.value.1 <= |s|
  {
    ParseStringBody(s, i + 1, "")
  }

  predicate HasWordAt(s: string, i: nat, word: string) {
    i + |word| <= |s| && s[i..i + |word|] == word
  }

  /** A value starting exactly at `i` (no leading white space). */
  function ParseValue(s: string, i: nat): (r: Option<(JsonValue, nat)>)
    requires i <= |s|
    ensures r.Some? ==> i < r.value.1 <= |s|
    decreases |s| - i, 1
  {
    if i >= |s| then None
    else if s[i] == '[' then ParseArray(s, i)
    else if s[i] == '{' then ParseObject(s, i)
    else if s[i] == '"' then
      match ParseString(s, i)
      case None => None
      case Some((t, k)) => Some((JString(t), k))
    else if HasWordAt(s, i, "true") then Some((JBool(true), i + 4))
    else if HasWordAt(s, i, "false") then Some((JBool(false), i + 5))
    else if HasWordAt(s, i, "null") then Some((JNull, i + 4))
    else ParseNumber(s, i)
  }

  function ParseArray(s: string, i: nat): (r: Option<(JsonValue, nat)>)
    requires i < |s| && s[i] == '['
    ensures r.Some? ==> i < r.value.1 <= |s| && r.value.0.JArray?
    decreases |s| - i, 0
  {
    var j := SkipSpace(s, i + 1);
    if j < |s| && s[j] == ']' then Some((JArray([]), j + 1))
    else ParseElements(s, i + 1, [])
  }

  /** Elements `value (, value)* ]` from `i`, after the ones already in `acc`. */
  function ParseElements(s: string, i: nat, acc: seq<JsonValue>): (r: Option<(JsonValue, nat)>)
    requires i <= |s|
    ensures r.Some? ==> i < r.value.1 <= |s| && r.value.0.JArray?
    decreases |s| - i, 2
  {
    match ParseValue(s, SkipSpace(s, i))
    case None => None
    case Some((v, k)) =>
      var m := SkipSpace(s, k);
      if m < |s| && s[m] == ',' then ParseElements(s, m + 1, acc + [v])
      else if m < |s| && s[m] == ']' then Some((JArray(acc + [v]), m + 1))
      else None
  }

  function ParseObject(s: string, i: nat): (r: Option<(JsonValue, nat)>)
    requires i < |s| && s[i] == '{'
    ensures r.Some? ==> i < r.value.1 <= |s| && r.value.0.JObject?
    decreases |s| - i, 0
  {
    var j := SkipSpace(s, i + 1);
    if j < |s| && s[j] == '}' then Some((JObject([]), j + 1))
    else ParseMembers(s, i + 1, [])
  }

  /** Members `"key" : value (, "key" : value)* }` from `i`. */
  function ParseMembers(s: string, i: nat, acc: seq<(string, JsonValue)>): (r: Option<(JsonValue, nat)>)
    requires i <= |s|
    ensures r.Some? ==> i < r.value.1 <= |s| && r.value.0.JObject?
    decreases |s| - i, 2
  {
    var j := SkipSpace(s, i);
    if !(j < |s| && s[j] == '"') then None
    else
      match ParseString(s, j)
      case None => None
      case Some((key, k)) =>
        var c := SkipSpace(s, k);
        if !(c < |s| && s[c] == ':') then None
        else
          match ParseValue(s, SkipSpace(s, c + 1))
          case None => None
          case Some((v, e)) =>
            var m := SkipSpace(s, e);
            if m < |s| && s[m] == ',' then ParseMembers(s, m + 1, acc + [(key, v)])
            else if m < |s| && s[m] == '}' then Some((JObject(acc + [(key, v)]), m + 1))
            else None
  }

  /** `JSON.parse(text)`: one value with optional white space around it;
      `None` is the thrown `SyntaxError`. */
  function Parse(text: string): Option<JsonValue> {
    match ParseValue(text, SkipSpace(text, 0))
    case None => None
    case Some((v, k)) => if SkipSpace(text, k) == |text| then Some(v) else None
  }

  // ---------------------------------------------------------------------
  // Writing: the JSON text of flat arrays (integers and strings), and the
  // laws that `Parse` reads such a text back exactly.

  /** A value an array rendering may hold: an integer or a string. */
  predicate IsFlat(v: JsonValue) {
    (v.JNumber? && v.exponent == 0) || v.JString?
  }

  function HexChar(d: nat): (c: char)
    requires d < 16
    ensures DigitValue(c, 16) == Some(d)
  {
    if d < 10 then ('0' as int + d) as char else ('a' as int + d - 10) as char
  }

  /** One character as it appears inside a string literal. */
  function EscapeChar(c: char): (r: string)
    ensures |r| >= 1 && r[0] != '"'
  {
    if c == '"' then "\\\""
    else if c == '\\' then "\\\\"
    else if (c as int) < 0x20 then "\\u00" + [HexChar(c as int / 16), HexChar(c as int % 16)]
    else [c]
  }

  function Escape(t: string): string {
    if |t| == 0 then "" else EscapeChar(t[0]) + Escape(t[1..])
  }

  function RenderString(t: string): string {
    "\"" + Escape(t) + "\""
  }

  function RenderFlat(v: JsonValue): (r: string)
    requires IsFlat(v)
    ensures |r| >= 1 && !IsJsonSpace(r[0])
  {
    if v.JNumber? then IntToDecimal(v.mantissa) else RenderString(v.text)
  }

  function Renderings(vs: seq<JsonValue>): (rs: seq<string>)
    requires forall k :: 0 <= k < |vs| ==> IsFlat(vs[k])
    ensures |rs| == |vs| && forall k :: 0 <= k < |vs| ==> rs[k] == RenderFlat(vs[k])
  {
    seq(|vs|, k requires 0 <= k < |vs| => RenderFlat(vs[k]))
  }

  /** `JSON.stringify` of an array of integers and strings. */
  function RenderArray(vs: seq<JsonValue>): string
    requires forall k :: 0 <= k < |vs| ==> IsFlat(vs[k])
  {
    "[" + Join(Renderings(vs), ",") + "]"
  }

  /** Reading one escaped character moves past exactly its escape. */
  lemma ParseEscapedChar(s: string, i: nat, c: char, acc: string)
    requires i + |EscapeChar(c)| <= |s| && s[i..i + |EscapeChar(c)|] == EscapeChar(c)
    ensures ParseStringBody(s, i, acc) == ParseStringBody(s, i + |EscapeChar(c)|, acc + [c])
  {
    var e := EscapeChar(c);
    assert s[i] == e[0];
    if c == '"' || c == '\\' {
      assert s[i + 1] == e[1];
      assert ReadEscape(s, i) == Some((c, i + 2));
    } else if (c as int) < 0x20 {
      assert s[i + 1] == 'u';
      assert s[i + 2..i + 6] == e[2..6];
      var hi := c as int / 16;
      var lo := c as int % 16;
      assert e[2..6] == ['0', '0', HexChar(hi), HexChar(lo)];
      assert HexDigitsValue(s, i + 2) == Some(((0 * 16 + 0) * 16 + hi) * 16 + lo);
      assert UnicodeEscape(s, i) == Some(c as int);
      assert ReadEscape(s, i) == Some((c, i + 6));
    }
  }

  lemma {:induction false} ParseEscaped(s: string, i: nat, t: string, acc: string)
    requires i + |Escape(t)| < |s|
    requires s[i..i + |Escape(t)|] == Escape(t) && s[i + |Escape(t)|] == '"'
    ensures ParseStringBody(s, i, acc) == Some((acc + t, i + |Escape(t)| + 1))
    decreases |t|
  {
    hide ParseStringBody, EscapeChar;
    if |t| > 0 {
      var c := t[0];
      var e := EscapeChar(c);
      var rest := Escape(t[1..]);
      assert Escape(t) == e + rest;
      SliceHalves(s, i, e, rest);
      var k := i + |e|;
      assert k + |rest| == i + |Escape(t)|;
      assert acc + [c] + t[1..] == acc + t;
      calc {
        ParseStringBody(s, i, acc);
        { ParseEscapedChar(s, i, c, acc); }
        ParseStringBody(s, k, acc + [c]);
        { ParseEscaped(s, k, t[1..], acc + [c]); }
        Some((acc + [c] + t[1..], k + |rest| + 1));
      }
    } else {
      assert acc + t == acc;
      BodyClose(s, i, acc);
    }
  }

  lemma BodyClose(s: string, i: nat, acc: string)
    requires i < |s| && s[i] == '"'
    ensures ParseStringBody(s, i, acc) == Some((acc, i + 1))
  {
  }

  /** A slice holding `a + b` holds `a` and then `b`. */
  lemma SliceHalves(s: string, i: nat, a: string, b: string)
    requires i + |a| + |b| <= |s| && s[i..i + |a| + |b|] == a + b
    ensures s[i..i + |a|] == a && s[i + |a|..i + |a| + |b|] == b
  {
    assert s[i..i + |a|] == (a + b)[..|a|];
    assert s[i + |a|..i + |a| + |b|] == (a + b)[|a|..];
  }

  lemma ParseRenderedNumber(s: string, i: nat, x: int)
    requires i + |IntToDecimal(x)| < |s|
    requires s[i..i + |IntToDecimal(x)|] == IntToDecimal(x)
    requires s[i + |IntToDecimal(x)|] == ',' || s[i + |IntToDecimal(x)|] == ']'
    ensures ParseNumber(s, i) == Some((JNumber(x, 0), i + |IntToDecimal(x)|))
  {
    hide NatToDecimal, DigitsValue, DigitRunEnd;
    var r := IntToDecimal(x);
    var end := i + |r|;
    var n: nat := if x < 0 then -x else x;
    var u := NatToDecimal(n);
    var a := if x < 0 then i + 1 else i;
    assert s[i] == r[0];
    assert s[i] == '-' <==> x < 0;
    assert s[a..end] == u;
    assert s[a] == u[0];
    forall k | a <= k < end ensures IsDecimalDigit(s[k]) {
      assert s[k] == u[k - a];
    }
    if u[0] == '0' {
      assert |u| == 1;
    } else {
      assert DigitRunEnd(s, a) == end by {
        DigitRunEndAt(s, a, end);
      }
    }
    var intEnd := if a < |s| && s[a] == '0' then a + 1 else DigitRunEnd(s, a);
    assert intEnd == end;
    assert !(end < |s| && s[end] == '.');
    NatToDecimalValue(n);
    assert ParseExponent(s, end) == Some((0, end));
    assert s[a..intEnd] + "" == u;
    var m: int := DigitsValue(u, 10);
    assert (if a == i + 1 then -m else m) == x;
  }

  lemma {:induction false} DigitRunEndAt(s: string, i: nat, end: nat)
    requires i <= end < |s|
    requires forall k :: i <= k < end ==> IsDecimalDigit(s[k])
    requires !IsDecimalDigit(s[end])
    ensures DigitRunEnd(s, i) == end
    decreases end - i
  {
    if i < end {
      DigitRunEndAt(s, i + 1, end);
    }
  }

  /** A word cannot start where a different character stands. */
  lemma NotWordAt(s: string, i: nat, word: string)
    requires i < |s| && |word| >= 1 && word[0] != s[i]
    ensures !HasWordAt(s, i, word)
  {
    if i + |word| <= |s| {
      assert s[i..i + |word|][0] == s[i];
    }
  }

  lemma ParseValueAtNumber(s: string, i: nat)
    requires i < |s| && (s[i] == '-' || IsDecimalDigit(s[i]))
    ensures ParseValue(s, i) == ParseNumber(s, i)
  {
    hide ParseArray, ParseObject, ParseString, ParseNumber, ParseElements, HasWordAt;
    NotWordAt(s, i, "true");
    NotWordAt(s, i, "false");
    NotWordAt(s, i, "null");
  }

  lemma ParseValueAtString(s: string, i: nat)
    requires i < |s| && s[i] == '"'
    ensures ParseValue(s, i) == match ParseStringBody(s, i + 1, "")
                                case None => None
                                case Some((t, k)) => Some((JString(t), k))
  {
  }

  lemma ParseRenderedString(s: string, i: nat, t: string)
    requires i + |RenderString(t)| <= |s|
    requires s[i..i + |RenderString(t)|] == RenderString(t)
    ensures ParseValue(s, i) == Some((JString(t), i + |RenderString(t)|))
  {
    hide ParseValue, ParseString, ParseStringBody, Escape;
    var r := RenderString(t);
    var e := Escape(t);
    assert r == ['"'] + e + ['"'];
    assert s[i] == r[0] == '"';
    forall k | 0 <= k < |e| ensures s[i + 1 + k] == e[k] {
      assert s[i + 1 + k] == s[i..i + |r|][1 + k] == r[1 + k];
    }
    assert s[i + 1..i + 1 + |e|] == e;
    assert s[i + 1 + |e|] == r[1 + |e|] == '"';
    ParseEscaped(s, i + 1, t, "");
    assert "" + t == t;
    ParseValueAtString(s, i);
  }

  lemma ParseRenderedInteger(s: string, i: nat, x: int)
    requires i + |IntToDecimal(x)| < |s|
    requires s[i..i + |IntToDecimal(x)|] == IntToDecimal(x)
    requires s[i + |IntToDecimal(x)|] == ',' || s[i + |IntToDecimal(x)|] == ']'
    ensures ParseValue(s, i) == Some((JNumber(x, 0), i + |IntToDecimal(x)|))
  {
    var r := IntToDecimal(x);
    assert s[i] == r[0];
    ParseValueAtNumber(s, i);
    ParseRenderedNumber(s, i, x);
  }

  lemma ParseRenderedFlat(s: string, i: nat, v: JsonValue)
    requires IsFlat(v)
    requires i + |RenderFlat(v)| < |s|
    requires s[i..i + |RenderFlat(v)|] == RenderFlat(v)
    requires s[i + |RenderFlat(v)|] == ',' || s[i + |RenderFlat(v)|] == ']'
    ensures ParseValue(s, i) == Some((v, i + |RenderFlat(v)|))
    ensures !IsJsonSpace(s[i])
  {
    assert s[i] == RenderFlat(v)[0];
    if v.JNumber? {
      ParseRenderedInteger(s, i, v.mantissa);
    } else {
      ParseRenderedString(s, i, v.text);
    }
  }

  lemma ElementsContinue(s: string, i: nat, acc: seq<JsonValue>, v: JsonValue, k: nat)
    requires i < |s| && !IsJsonSpace(s[i]) && ParseValue(s, i) == Some((v, k))
    requires k < |s| && s[k] == ','
    ensures ParseElements(s, i, acc) == ParseElements(s, k + 1, acc + [v])
  {
    hide ParseValue;
    assert SkipSpace(s, i) == i;
    assert SkipSpace(s, k) == k;
    var m := SkipSpace(s, k);
    assert m < |s| && s[m] == ',';
  }

  lemma ElementsClose(s: string, i: nat, acc: seq<JsonValue>, v: JsonValue, k: nat)
    requires i < |s| && !IsJsonSpace(s[i]) && ParseValue(s, i) == Some((v, k))
    requires k < |s| && s[k] == ']'
    ensures ParseElements(s, i, acc) == Some((JArray(acc + [v]), k + 1))
  {
    hide ParseValue;
    assert SkipSpace(s, i) == i;
    assert SkipSpace(s, k) == k;
  }

  lemma ElementsStep(s: string, i: nat, acc: seq<JsonValue>, v: JsonValue)
    requires IsFlat(v) && i + |RenderFlat(v)| < |s|
    requires s[i..i + |RenderFlat(v)|] == RenderFlat(v) && s[i + |RenderFlat(v)|] == ','
    ensures ParseElements(s, i, acc) == ParseElements(s, i + |RenderFlat(v)| + 1, acc + [v])
  {
    hide ParseElements, ParseValue;
    ParseRenderedFlat(s, i, v);
    ElementsContinue(s, i, acc, v, i + |RenderFlat(v)|);
  }

  lemma ElementsLast(s: string, i: nat, acc: seq<JsonValue>, v: JsonValue)
    requires IsFlat(v) && i + |RenderFlat(v)| < |s|
    requires s[i..i + |RenderFlat(v)|] == RenderFlat(v) && s[i + |RenderFlat(v)|] == ']'
    ensures ParseElements(s, i, acc) == Some((JArray(acc + [v]), i + |RenderFlat(v)| + 1))
  {
    hide ParseElements, ParseValue;
    ParseRenderedFlat(s, i, v);
    ElementsClose(s, i, acc, v, i + |RenderFlat(v)|);
  }

  /** The rendered items `rs` followed by the closing bracket occupy `s`
      from `i` to its end, separated by commas. */
  predicate ItemsAt(s: string, i: nat, rs: seq<string>)
    decreases |rs|
  {
    |rs| >= 1 && i + |rs[0]| < |s| && s[i..i + |rs[0]|] == rs[0] &&
    if |rs| == 1 then s[i + |rs[0]|] == ']' && |s| == i + |rs[0]| + 1
    else s[i + |rs[0]|] == ',' && ItemsAt(s, i + |rs[0]| + 1, rs[1..])
  }

  /** `Join` takes the first part off the front. */
  lemma JoinFirst(rs: seq<string>, sep: string)
    requires |rs| >= 1
    ensures |rs| == 1 ==> Join(rs, sep) == rs[0]
    ensures |rs| > 1 ==> Join(rs, sep) == rs[0] + sep + Join(rs[1..], sep)
  {
  }

  lemma {:induction false} JoinedItemsAt(pre: string, rs: seq<string>)
    requires |rs| >= 1
    ensures ItemsAt(pre + Join(rs, ",") + "]", |pre|, rs)
    decreases |rs|
  {
    hide Join;
    JoinFirst(rs, ",");
    var s := pre + Join(rs, ",") + "]";
    var r := rs[0];
    if |rs| == 1 {
      MiddleSlice(pre, r, "]");
    } else {
      var rest := Join(rs[1..], ",");
      Regroup(pre, r, ",", rest, "]");
      MiddleSlice(pre, r, "," + rest + "]");
      JoinedItemsAt(pre + r + ",", rs[1..]);
    }
  }

  lemma MiddleSlice(a: string, b: string, c: string)
    ensures (a + b + c)[|a|..|a| + |b|] == b
    ensures |c| >= 1 ==> (a + b + c)[|a| + |b|] == c[0]
  {
  }

  lemma Regroup(a: string, b: string, c: string, d: string, e: string)
    ensures a + (b + c + d) + e == a + b + (c + d + e)
    ensures a + (b + c + d) + e == a + b + c + d + e
  {
  }

  lemma ConsAppend(acc: seq<JsonValue>, vs: seq<JsonValue>)
    requires |vs| >= 1
    ensures acc + [vs[0]] + vs[1..] == acc + vs
  {
  }

  lemma {:induction false} ParseItemsAt(s: string, i: nat, vs: seq<JsonValue>, rs: seq<string>, acc: seq<JsonValue>)
    requires |vs| >= 1 && |rs| == |vs|
    requires forall k :: 0 <= k < |vs| ==> IsFlat(vs[k]) && rs[k] == RenderFlat(vs[k])
    requires ItemsAt(s, i, rs)
    ensures ParseElements(s, i, acc) == Some((JArray(acc + vs), |s|))
    decreases |vs|
  {
    hide ParseElements, ParseValue, RenderFlat;
    if |vs| == 1 {
      ElementsLast(s, i, acc, vs[0]);
      assert vs == [vs[0]];
    } else {
      ElementsStep(s, i, acc, vs[0]);
      ParseItemsAt(s, i + |rs[0]| + 1, vs[1..], rs[1..], acc + [vs[0]]);
      ConsAppend(acc, vs);
    }
  }

  lemma ParseOfArray(text: string, v: JsonValue)
    requires |text| >= 1 && text[0] == '[' && ParseArray(text, 0) == Some((v, |text|))
    ensures Parse(text) == Some(v)
  {
    assert SkipSpace(text, 0) == 0;
    assert ParseValue(text, 0) == ParseArray(text, 0);
  }

  lemma ArrayOfElements(text: string, i: nat)
    requires i + 1 < |text| && text[i] == '[' && !IsJsonSpace(text[i + 1]) && text[i + 1] != ']'
    ensures ParseArray(text, i) == ParseElements(text, i + 1, [])
  {
    assert SkipSpace(text, i + 1) == i + 1;
  }

  lemma ItemsAtStart(s: string, i: nat, rs: seq<string>)
    requires ItemsAt(s, i, rs) && |rs[0]| >= 1
    ensures i < |s| && s[i] == rs[0][0]
  {
    assert s[i] == s[i..i + |rs[0]|][0];
  }

  /** `JSON.parse(JSON.stringify(vs))` gives back `vs` for an array of
      integers and strings. */
  lemma ParseRenderedArray(vs: seq<JsonValue>)
    requires forall k :: 0 <= k < |vs| ==> IsFlat(vs[k])
    ensures Parse(RenderArray(vs)) == Some(JArray(vs))
  {
    hide ParseElements, ParseValue, Parse, ItemsAt;
    var text := RenderArray(vs);
    var rs := Renderings(vs);
    if |vs| == 0 {
      assert text == "[]";
      assert ParseArray(text, 0) == Some((JArray([]), 2)) by {
        assert SkipSpace(text, 1) == 1;
      }
      ParseOfArray(text, JArray([]));
      assert vs == [];
    } else {
      JoinedItemsAt("[", rs);
      ParseItemsAt(text, 1, vs, rs, []);
      ItemsAtStart(text, 1, rs);
      ArrayOfElements(text, 0);
      assert [] + vs == vs;
      ParseOfArray(text, JArray(vs));
    }
  }
}
