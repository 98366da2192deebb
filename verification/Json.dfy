/** Which texts are JSON (RFC 8259): what json.Valid accepts, and so what a raw JSON field of a message
    may hold. A text is read from the left; each function gives what is left after one construct. */
module Json {
  import opened Text
  import opened Logline
  import opened Codec

  predicate IsGap(c: char) {
    c == ' ' || c == '\t' || c == '\n' || c == '\r'
  }

  function SkipGap(s: string): (r: string)
    ensures |r| <= |s|
    ensures s == "" || !IsGap(s[0]) ==> r == s
  {
    if s != "" && IsGap(s[0]) then SkipGap(s[1..]) else s
  }

  predicate StartsWith(s: string, c: char) {
    s != "" && s[0] == c
  }

  /** The rest of a string, after its opening quote. */
  function AfterString(s: string): (r: Option<string>)
    ensures r.Some? ==> |r.value| < |s|
    decreases |s|
  {
    if s == "" || s[0] < ' ' then None
    else if s[0] == '"' then Some(s[1..])
    else if s[0] != '\\' then AfterString(s[1..])
    else if |s| < 2 then None
    else if ShortEscape(s[1]).Some? then AfterString(s[2..])
    else if s[1] == 'u' && |s| >= 6 && forall i | 2 <= i < 6 :: HexValue(s[i]).Some? then AfterString(s[6..])
    else None
  }

  /** A run of at least one digit. */
  function AfterDigits(s: string): (r: Option<string>)
    ensures r.Some? ==> |r.value| < |s|
  {
    if DigitSpan(s) == 0 then None else Some(s[DigitSpan(s)..])
  }

  function AfterFraction(s: string): (r: Option<string>)
    ensures r.Some? ==> |r.value| <= |s|
  {
    if StartsWith(s, '.') then AfterDigits(s[1..]) else Some(s)
  }

  function AfterExponent(s: string): (r: Option<string>)
    ensures r.Some? ==> |r.value| <= |s|
  {
    if !StartsWith(s, 'e') && !StartsWith(s, 'E') then Some(s)
    else if StartsWith(s[1..], '+') || StartsWith(s[1..], '-') then AfterDigits(s[2..])
    else AfterDigits(s[1..])
  }

  function AfterNumber(s: string): (r: Option<string>)
    ensures r.Some? ==> |r.value| < |s|
  {
    var digits := if StartsWith(s, '-') then s[1..] else s;
    var whole := if StartsWith(digits, '0') then Some(digits[1..]) else AfterDigits(digits);
    match whole
    case None => None
    case Some(a) =>
      match AfterFraction(a)
      case None => None
      case Some(b) => AfterExponent(b)
  }

  function AfterLiteral(s: string): (r: Option<string>)
    ensures r.Some? ==> |r.value| < |s|
  {
    if "true" <= s || "null" <= s then Some(s[4..]) else if "false" <= s then Some(s[5..]) else None
  }

  function AfterValue(s: string): (r: Option<string>)
    ensures r.Some? ==> |r.value| < |s|
    decreases |s|, 2
  {
    var t := SkipGap(s);
    if t == "" then None
    else if t[0] == '"' then AfterString(t[1..])
    else if t[0] == '{' then
      var u := SkipGap(t[1..]);
      if StartsWith(u, '}') then Some(u[1..]) else AfterMembers(u)
    else if t[0] == '[' then
      var u := SkipGap(t[1..]);
      if StartsWith(u, ']') then Some(u[1..]) else AfterElements(u)
    else if t[0] == '-' || IsDigit(t[0]) then AfterNumber(t)
    else AfterLiteral(t)
  }

  /** The members of an object that has some, with its closing brace. */
  function AfterMembers(s: string): (r: Option<string>)
    ensures r.Some? ==> |r.value| < |s|
    decreases |s|, 1
  {
    if !StartsWith(s, '"') then None
    else
      match AfterString(s[1..])
      case None => None
      case Some(key) =>
        var colon := SkipGap(key);
        if !StartsWith(colon, ':') then None
        else
          match AfterValue(colon[1..])
          case None => None
          case Some(value) =>
            var next := SkipGap(value);
            if StartsWith(next, '}') then Some(next[1..])
            else if StartsWith(next, ',') then AfterMembers(SkipGap(next[1..]))
            else None
  }

  /** The elements of an array that has some, with its closing bracket. */
  function AfterElements(s: string): (r: Option<string>)
    ensures r.Some? ==> |r.value| < |s|
    decreases |s|, 3
  {
    match AfterValue(s)
    case None => None
    case Some(value) =>
      var next := SkipGap(value);
      if StartsWith(next, ']') then Some(next[1..])
      else if StartsWith(next, ',') then AfterElements(SkipGap(next[1..]))
      else None
  }

  predicate IsJson(s: string) {
    AfterValue(s).Some? && SkipGap(AfterValue(s).value) == ""
  }

  /** Some texts that are JSON, and some that are not quite. */
  lemma Samples()
    ensures IsJson("null") && IsJson("{}") && !IsJson("") && !IsJson("nul") && !IsJson("nulll") && !IsJson("'a'")
  {
  }

  // ---- What the codec reads is JSON ----

  lemma {:induction false} ReadStringIsJson(s: string)
    ensures ReadString(s).Some? ==> AfterString(s) == Some(ReadString(s).value.1)
    decreases |s|
  {
    hide HexValue, ReadCode;
    if |s| >= 6 {
      CodeIsHex(s);
    }
    if s != "" && s[0] != '"' && ReadChar(s).Some? {
      ReadStringIsJson(ReadChar(s).value.1);
    }
  }

  /** Every string has a JSON text. */
  lemma EscapedIsJson(s: string)
    ensures IsJson("\"" + (Escape(s) + "\""))
  {
    var text := Escape(s) + "\"";
    ReadEscaped(s, "");
    assert "\"" + "" == "\"" && ("\"" + text)[1..] == text;
    ReadStringIsJson(text);
  }

  lemma CodeIsHex(s: string)
    requires |s| >= 6
    ensures ReadCode(s[2..]).Some? <==> forall i | 2 <= i < 6 :: HexValue(s[i]).Some?
  {
    hide HexValue;
    var t := s[2..];
    assert t[0] == s[2] && t[1] == s[3] && t[2] == s[4] && t[3] == s[5];
  }

  lemma ReadIntIsJson(s: string)
    ensures ReadInt(s).Some? && !StartsWith(ReadInt(s).value.1, '.') && !StartsWith(ReadInt(s).value.1, 'e')
            && !StartsWith(ReadInt(s).value.1, 'E') ==>
              AfterNumber(s) == Some(ReadInt(s).value.1) && s != "" && (s[0] == '-' || IsDigit(s[0]))
  {
    var digits := if StartsWith(s, '-') then s[1..] else s;
    var n := DigitSpan(digits);
    if n > 0 {
      assert digits[0] in digits[..n];
    }
  }

  lemma ReadValueIsJson(s: string)
    requires ReadValue(s).Some?
    requires StartsWith(ReadValue(s).value.1, ',') || StartsWith(ReadValue(s).value.1, '}')
    ensures AfterValue(s) == Some(ReadValue(s).value.1)
  {
    if StartsWith(s, '"') {
      ReadStringIsJson(s[1..]);
    } else {
      ReadIntIsJson(s);
    }
  }

  lemma {:induction false} ReadTailIsJson(s: string)
    requires ReadMember(s).Some? && ReadTail(ReadMember(s).value.1).Some?
    ensures AfterMembers(s) == Some(ReadTail(ReadMember(s).value.1).value.1)
    decreases |s|
  {
    hide ReadString, AfterString, ReadValue, AfterValue;
    ReadStringIsJson(s[1..]);
    var key := ReadString(s[1..]).value.1;
    ReadValueIsJson(key[1..]);
    var next := ReadMember(s).value.1;
    if next[0] == ',' {
      assert StartsWith(next[1..], '"');
      ReadTailIsJson(next[1..]);
    }
  }

  /** Every payload that decodes is JSON; so what is not JSON is poison. */
  lemma DecodedIsJson(env: Env, s: string)
    requires Decode(env, s).Ok?
    ensures IsJson(s)
  {
    var body := s[1..];
    if !StartsWith(body, '}') {
      assert StartsWith(body, '"');
      ReadTailIsJson(body);
    }
  }
}
