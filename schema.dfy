/** The six input schemas a test-case line is checked against before it is
    handed to a program: each takes the raw line and either rejects it with
    a message or turns it into the text the generated `main` reads from
    standard input (an integer, or space-separated array items). */
module Schema {
  import opened Wrappers
  import opened Strings
  import opened Numbers
  import opened JsonText

  // ---------------------------------------------------------------------
  // integer and integer[]

  /** `parseInt(val)`, rejected when it is NaN, else the integer's decimal
      text. */
  function IntegerSchema(val: string): (r: Result<string, string>)
    ensures r.Ok? <==> ParseInt(val).Some?
    ensures r.Err? ==> r.error == "Invalid integer"
  {
    match ParseInt(val)
    case None => Err("Invalid integer")
    case Some(n) => Ok(IntToDecimal(n))
  }

  /** The schema keeps the integer `parseInt` found and puts it in canonical
      form, so a second pass changes nothing. */
  lemma IntegerSchemaCanonical(val: string)
    requires IntegerSchema(val).Ok?
    ensures ParseInt(IntegerSchema(val).value) == ParseInt(val)
    ensures IntegerSchema(IntegerSchema(val).value) == IntegerSchema(val)
  {
    ParseIntOfDecimal(ParseInt(val).value);
  }

  /** Every integer's decimal text passes unchanged. */
  lemma IntegerSchemaOfDecimal(i: int)
    ensures IntegerSchema(IntToDecimal(i)) == Ok(IntToDecimal(i))
  {
    ParseIntOfDecimal(i);
  }

  predicate AllIntegers(items: seq<JsonValue>) {
    forall k :: 0 <= k < |items| ==> IsInteger(items[k])
  }

  /** The decimal texts `join` gives the items of an integer array. */
  function IntegerTexts(items: seq<JsonValue>): (r: seq<string>)
    requires AllIntegers(items)
    ensures |r| == |items|
  {
    seq(|items|, k requires 0 <= k < |items| => IntToDecimal(IntegerValue(items[k])))
  }

  /** `JSON.parse`, then every item must be an integer (`Number.isInteger`);
      the items are joined with single spaces. */
  function IntegerArraySchema(val: string): (r: Result<string, string>)
    ensures r.Err? ==> r.error in {"Invalid integer array format", "Invalid integer array"}
  {
    match Parse(val)
    case None => Err("Invalid integer array format")
    case Some(v) =>
      if v.JArray? && AllIntegers(v.items) then Ok(Join(IntegerTexts(v.items), " "))
      else Err("Invalid integer array")
  }

  /** What the integer array schema accepts: exactly JSON arrays of
      integers, with text that is not JSON reported as a format error. */
  lemma IntegerArraySchemaAccepts(val: string)
    ensures IntegerArraySchema(val).Ok? <==>
      Parse(val).Some? && Parse(val).value.JArray? && AllIntegers(Parse(val).value.items)
    ensures Parse(val).None? <==> IntegerArraySchema(val) == Err("Invalid integer array format")
  {
  }

  /** The space-separated output of a non-empty integer array splits back
      into one token per item, and each token reads back, with `parseInt`,
      as that item's value. */
  lemma {:induction false} IntegerArrayTokens(val: string)
    requires IntegerArraySchema(val).Ok?
    requires |Parse(val).value.items| >= 1
    ensures var items := Parse(val).value.items;
      |Split(IntegerArraySchema(val).value, " ")| == |items| &&
      forall k :: 0 <= k < |items| ==>
        ParseInt(Split(IntegerArraySchema(val).value, " ")[k]) == Some(IntegerValue(items[k]))
  {
    var items := Parse(val).value.items;
    var texts := IntegerTexts(items);
    forall k | 0 <= k < |texts| ensures ' ' !in texts[k] {
      DecimalHasNoSpace(IntegerValue(items[k]));
    }
    SplitJoinChar(texts, ' ');
    forall k | 0 <= k < |items| ensures ParseInt(texts[k]) == Some(IntegerValue(items[k])) {
      ParseIntOfDecimal(IntegerValue(items[k]));
    }
  }

  /** The JSON numbers for a list of integers. */
  function IntegerItems(xs: seq<int>): (r: seq<JsonValue>)
    ensures |r| == |xs| && forall k :: 0 <= k < |r| ==> IsFlat(r[k]) && IsInteger(r[k])
  {
    seq(|xs|, k requires 0 <= k < |xs| => JNumber(xs[k], 0))
  }

  /** The test-case line `JSON.stringify(xs)` becomes the integers of `xs`
      in order, separated by single spaces, and a non-empty list reads back
      token by token. */
  lemma IntegerArrayOfList(xs: seq<int>)
    ensures IntegerArraySchema(RenderArray(IntegerItems(xs))) ==
      Ok(Join(seq(|xs|, k requires 0 <= k < |xs| => IntToDecimal(xs[k])), " "))
    ensures |xs| >= 1 ==>
      var r := IntegerArraySchema(RenderArray(IntegerItems(xs))).value;
      |Split(r, " ")| == |xs| && forall k :: 0 <= k < |xs| ==> ParseInt(Split(r, " ")[k]) == Some(xs[k])
  {
    var items := IntegerItems(xs);
    var text := RenderArray(items);
    ParseRenderedArray(items);
    assert IntegerTexts(items) == seq(|xs|, k requires 0 <= k < |xs| => IntToDecimal(xs[k]));
    if |xs| >= 1 {
      IntegerArrayTokens(text);
    }
  }

  // ---------------------------------------------------------------------
  // string and string[]

  /** Any text is a string; it passes unchanged. */
  function StringSchema(val: string): (r: Result<string, string>)
    ensures r.Ok? && r.value == val
  {
    Ok(val)
  }

  predicate AllStrings(items: seq<JsonValue>) {
    forall k :: 0 <= k < |items| ==> items[k].JString?
  }

  function TrimmedTexts(items: seq<JsonValue>): (r: seq<string>)
    requires AllStrings(items)
    ensures |r| == |items|
  {
    seq(|items|, k requires 0 <= k < |items| => Trim(items[k].text))
  }

  /** `JSON.parse`, then every item must be a string; each is trimmed and
      they are joined with single spaces. */
  function StringArraySchema(val: string): (r: Result<string, string>)
    ensures r.Err? ==> r.error in {"Invalid string array format", "Invalid string array"}
  {
    match Parse(val)
    case None => Err("Invalid string array format")
    case Some(v) =>
      if v.JArray? && AllStrings(v.items) then Ok(Join(TrimmedTexts(v.items), " "))
      else Err("Invalid string array")
  }

  /** What the string array schema accepts: exactly JSON arrays of strings,
      with text that is not JSON reported as a format error. */
  lemma StringArraySchemaAccepts(val: string)
    ensures StringArraySchema(val).Ok? <==>
      Parse(val).Some? && Parse(val).value.JArray? && AllStrings(Parse(val).value.items)
    ensures Parse(val).None? <==> StringArraySchema(val) == Err("Invalid string array format")
  {
  }

  function StringItems(ts: seq<string>): (r: seq<JsonValue>)
    ensures |r| == |ts| && forall k :: 0 <= k < |r| ==> IsFlat(r[k]) && r[k] == JString(ts[k])
  {
    seq(|ts|, k requires 0 <= k < |ts| => JString(ts[k]))
  }

  /** The line `JSON.stringify(ts)` becomes the trimmed strings joined by
      spaces; when no string holds a space, the output splits back into
      exactly those trimmed strings. */
  lemma StringArrayOfList(ts: seq<string>)
    ensures StringArraySchema(RenderArray(StringItems(ts))) ==
      Ok(Join(seq(|ts|, k requires 0 <= k < |ts| => Trim(ts[k])), " "))
    ensures |ts| >= 1 && (forall k :: 0 <= k < |ts| ==> ' ' !in ts[k]) ==>
      Split(StringArraySchema(RenderArray(StringItems(ts))).value, " ") ==
        seq(|ts|, k requires 0 <= k < |ts| => Trim(ts[k]))
  {
    var items := StringItems(ts);
    var trimmed := seq(|ts|, k requires 0 <= k < |ts| => Trim(ts[k]));
    ParseRenderedArray(items);
    assert TrimmedTexts(items) == trimmed;
    if |ts| >= 1 && (forall k :: 0 <= k < |ts| ==> ' ' !in ts[k]) {
      forall k | 0 <= k < |ts| ensures ' ' !in trimmed[k] {
        TrimKeepsOut(ts[k], ' ');
      }
      SplitJoinChar(trimmed, ' ');
    }
  }

  // ---------------------------------------------------------------------
  // character and character[]

  /** A string of JavaScript length 1 passes unchanged; anything else is
      rejected. */
  function CharacterSchema(val: string): (r: Result<string, string>)
    ensures r.Ok? <==> |val| == 1 && val[0] as int <= 0xFFFF
    ensures r.Ok? ==> r.value == val
    ensures r.Err? ==> r.error == "Must be a single character"
  {
    Utf16LengthOne(val);
    if Utf16Length(val) == 1 then Ok(val) else Err("Must be a single character")
  }

  predicate AllCharacters(items: seq<JsonValue>) {
    forall k :: 0 <= k < |items| ==> items[k].JString? && Utf16Length(items[k].text) == 1
  }

  function CharacterTexts(items: seq<JsonValue>): (r: seq<string>)
    requires AllCharacters(items)
    ensures |r| == |items|
  {
    seq(|items|, k requires 0 <= k < |items| => items[k].text)
  }

  /** `JSON.parse`, then every item must be a string of length 1; they are
      joined with single spaces, untrimmed. */
  function CharacterArraySchema(val: string): (r: Result<string, string>)
    ensures r.Err? ==> r.error in {"Invalid character array format", "Invalid character array"}
  {
    match Parse(val)
    case None => Err("Invalid character array format")
    case Some(v) =>
      if v.JArray? && AllCharacters(v.items) then Ok(Join(CharacterTexts(v.items), " "))
      else Err("Invalid character array")
  }

  /** An item counts as a character exactly when it is a string holding one
      code point of the basic multilingual plane. */
  lemma AllCharactersIff(items: seq<JsonValue>)
    ensures AllCharacters(items) <==>
      forall k :: 0 <= k < |items| ==>
        items[k].JString? && |items[k].text| == 1 && items[k].text[0] as int <= 0xFFFF
  {
    forall k | 0 <= k < |items| && items[k].JString? {
      Utf16LengthOne(items[k].text);
    }
  }

  /** What the character array schema accepts: exactly JSON arrays of
      one-character strings, with text that is not JSON reported as a
      format error. */
  lemma CharacterArraySchemaAccepts(val: string)
    ensures CharacterArraySchema(val).Ok? <==>
      Parse(val).Some? && Parse(val).value.JArray? &&
      forall k :: 0 <= k < |Parse(val).value.items| ==>
        Parse(val).value.items[k].JString? && |Parse(val).value.items[k].text| == 1 &&
        Parse(val).value.items[k].text[0] as int <= 0xFFFF
    ensures Parse(val).None? <==> CharacterArraySchema(val) == Err("Invalid character array format")
  {
    if Parse(val).Some? && Parse(val).value.JArray? {
      AllCharactersIff(Parse(val).value.items);
    }
  }

  function CharacterItems(cs: seq<char>): (r: seq<JsonValue>)
    ensures |r| == |cs| && forall k :: 0 <= k < |r| ==> IsFlat(r[k]) && r[k] == JString([cs[k]])
  {
    seq(|cs|, k requires 0 <= k < |cs| => JString([cs[k]]))
  }

  /** The line `JSON.stringify(cs)` for characters of the basic plane
      becomes the characters joined by spaces; when none is a space, the
      output splits back into one character per token. */
  lemma CharacterArrayOfList(cs: seq<char>)
    requires forall k :: 0 <= k < |cs| ==> cs[k] as int <= 0xFFFF
    ensures CharacterArraySchema(RenderArray(CharacterItems(cs))) ==
      Ok(Join(seq(|cs|, k requires 0 <= k < |cs| => [cs[k]]), " "))
    ensures |cs| >= 1 && ' ' !in cs ==>
      Split(CharacterArraySchema(RenderArray(CharacterItems(cs))).value, " ") ==
        seq(|cs|, k requires 0 <= k < |cs| => [cs[k]])
  {
    var items := CharacterItems(cs);
    var singles := seq(|cs|, k requires 0 <= k < |cs| => [cs[k]]);
    ParseRenderedArray(items);
    forall k | 0 <= k < |cs| ensures Utf16Length(items[k].text) == 1 {
      Utf16LengthOne(items[k].text);
    }
    assert CharacterTexts(items) == singles;
    if |cs| >= 1 && ' ' !in cs {
      forall k | 0 <= k < |cs| ensures ' ' !in singles[k] {
        assert singles[k] == [cs[k]];
      }
      SplitJoinChar(singles, ' ');
    }
  }
}
