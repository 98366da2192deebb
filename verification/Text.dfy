/** The string operations of Go's standard library that the services lean on: white-space
    trimming and splitting, and decimal integers. A Go string holding valid UTF-8 is a
    `string`; its length in bytes is `ByteLen`. */
module Text {
  datatype Option<+T> = None | Some(value: T)

  datatype Result<+T, +E> = Ok(value: T) | Err(error: E)

  // ---- White space (unicode.IsSpace) ----

  predicate IsSpace(c: char) {
    '\t' <= c <= '\r' || c == ' ' || c == '\U{85}' || c == '\U{A0}' || c == '\U{1680}'
    || '\U{2000}' <= c <= '\U{200A}' || c == '\U{2028}' || c == '\U{2029}'
    || c == '\U{202F}' || c == '\U{205F}' || c == '\U{3000}'
  }

  /** As code points. */
  lemma WhiteSpaceIs(c: char)
    ensures
      var n := c as int;
      IsSpace(c) <==>
        9 <= n <= 13 || 0x2000 <= n <= 0x200A || n in [32, 0x85, 0xA0, 0x1680, 0x2028, 0x2029, 0x202F, 0x205F, 0x3000]
  {
  }

  predicate Blank(s: string) {
    forall c | c in s :: IsSpace(c)
  }

  /** A field: not empty, and free of white space. */
  predicate Word(s: string) {
    s != "" && forall c | c in s :: !IsSpace(c)
  }

  /** The length of the longest prefix of `s` whose characters are all white space, or all not. */
  function SpanLen(s: string, space: bool): (n: nat)
    ensures n <= |s|
    ensures forall i | 0 <= i < n :: IsSpace(s[i]) == space
    ensures n < |s| ==> IsSpace(s[n]) != space
  {
    if s == "" || IsSpace(s[0]) != space then 0 else 1 + SpanLen(s[1..], space)
  }

  function TrimLeft(s: string): string {
    s[SpanLen(s, true)..]
  }

  function TrimRight(s: string): (t: string)
    ensures t <= s && Blank(s[|t|..])
    ensures t != "" ==> !IsSpace(t[|t| - 1])
  {
    if s == "" || !IsSpace(s[|s| - 1]) then s else TrimRight(s[..|s| - 1])
  }

  /** strings.TrimSpace. */
  function TrimSpace(s: string): string {
    TrimRight(TrimLeft(s))
  }

  /** strings.Fields. */
  function Fields(s: string): (words: seq<string>)
    ensures forall w | w in words :: Word(w)
    decreases |s|
  {
    var t := TrimLeft(s);
    if t == "" then []
    else
      var n := SpanLen(t, false);
      [t[..n]] + Fields(t[n..])
  }

  /** A word and the white space that follows it. */
  datatype Piece = Piece(word: string, gap: string)

  function Body(pieces: seq<Piece>): string {
    if pieces == [] then "" else pieces[0].word + (pieces[0].gap + Body(pieces[1..]))
  }

  function Words(pieces: seq<Piece>): seq<string> {
    if pieces == [] then [] else [pieces[0].word] + Words(pieces[1..])
  }

  /** Words separated by at least one white-space character, with any amount after the last. */
  predicate Spaced(pieces: seq<Piece>) {
    pieces == [] ||
    (Word(pieces[0].word) && Blank(pieces[0].gap) && (|pieces| > 1 ==> pieces[0].gap != "")
     && Spaced(pieces[1..]))
  }

  lemma SpanIs(s: string, n: nat, space: bool)
    requires n <= |s| && forall i | 0 <= i < n :: IsSpace(s[i]) == space
    requires n < |s| ==> IsSpace(s[n]) != space
    ensures SpanLen(s, space) == n
  {
  }

  lemma BlankIndex(s: string)
    requires Blank(s)
    ensures forall i | 0 <= i < |s| :: IsSpace(s[i])
  {
    assert forall i | 0 <= i < |s| :: s[i] in s;
  }

  lemma FieldsOfBlank(s: string)
    requires Blank(s)
    ensures Fields(s) == []
  {
    BlankIndex(s);
    SpanIs(s, |s|, true);
  }

  /** One step of `Fields`, with the white space and the word named. */
  lemma FieldsStep(lead: string, word: string, rest: string)
    requires Blank(lead) && Word(word) && (rest == "" || IsSpace(rest[0]))
    ensures Fields(lead + (word + rest)) == [word] + Fields(rest)
  {
    var t := word + rest;
    BlankIndex(lead);
    assert word[0] in word && t[0] == word[0];
    SpanIs(lead + t, |lead|, true);
    assert TrimLeft(lead + t) == t;
    assert forall i | 0 <= i < |word| :: word[i] in word;
    SpanIs(t, |word|, false);
    assert t[..|word|] == word && t[|word|..] == rest;
  }

  /** Splitting recovers the words of any layout, however the white space is chosen. */
  lemma {:induction false} FieldsOfLayout(lead: string, pieces: seq<Piece>)
    requires Blank(lead) && Spaced(pieces)
    ensures Fields(lead + Body(pieces)) == Words(pieces)
    decreases |pieces|
  {
    if pieces == [] {
      assert lead + Body(pieces) == lead;
      FieldsOfBlank(lead);
    } else {
      var p := pieces[0];
      var rest := p.gap + Body(pieces[1..]);
      BlankIndex(p.gap);
      if |pieces| == 1 {
        assert rest == p.gap;
      }
      FieldsStep(lead, p.word, rest);
      FieldsOfLayout(p.gap, pieces[1..]);
    }
  }

  /** Conversely every text is a layout of its own fields: `Fields` drops nothing but white space. */
  lemma {:induction false} EveryTextIsALayout(s: string) returns (lead: string, pieces: seq<Piece>)
    ensures Blank(lead) && Spaced(pieces) && s == lead + Body(pieces) && Words(pieces) == Fields(s)
    decreases |s|
  {
    var k := SpanLen(s, true);
    var t := TrimLeft(s);
    lead := s[..k];
    assert s == lead + t;
    if t == "" {
      pieces := [];
    } else {
      var n := SpanLen(t, false);
      var tail := t[n..];
      var gap, rest := EveryTextIsALayout(tail);
      assert Word(t[..n]);
      if tail != "" {
        assert tail[0] == t[n];
        LayoutStartsBlank(gap, rest);
      }
      pieces := [Piece(t[..n], gap)] + rest;
      assert pieces[1..] == rest;
      assert t == t[..n] + tail;
    }
  }

  lemma LayoutStartsBlank(gap: string, pieces: seq<Piece>)
    requires Blank(gap) && Spaced(pieces)
    requires var s := gap + Body(pieces); s != "" && IsSpace(s[0])
    ensures gap != ""
  {
  }

  /** White space at the end of a text does not change its fields. */
  lemma {:induction false} FieldsIgnoreTail(t: string, gap: string)
    requires Blank(gap)
    ensures Fields(t + gap) == Fields(t)
    decreases |t|
  {
    var k := SpanLen(t, true);
    var left := TrimLeft(t);
    if left == "" {
      FieldsOfBlank(t + gap);
    } else {
      SpanIs(t + gap, k, true);
      assert TrimLeft(t + gap) == left + gap;
      var n := SpanLen(left, false);
      BlankIndex(gap);
      SpanIs(left + gap, n, false);
      assert (left + gap)[..n] == left[..n] && (left + gap)[n..] == left[n..] + gap;
      FieldsIgnoreTail(left[n..], gap);
    }
  }

  lemma TrimRightIsUnique(t: string, gap: string)
    requires Blank(gap) && (t != "" ==> !IsSpace(t[|t| - 1]))
    ensures TrimRight(t + gap) == t
  {
    if gap == "" {
      assert t + gap == t;
    } else {
      var s, less := t + gap, gap[..|gap| - 1];
      assert s[|s| - 1] == gap[|gap| - 1] && gap[|gap| - 1] in gap;
      assert s[..|s| - 1] == t + less;
      assert forall c | c in less :: c in gap;
      TrimRightIsUnique(t, less);
    }
  }

  /** Trimming does not change the fields. */
  lemma FieldsOfTrim(s: string)
    ensures Fields(TrimSpace(s)) == Fields(s)
  {
    var left := TrimLeft(s);
    var t := TrimSpace(s);
    assert left == t + left[|t|..];
    FieldsIgnoreTail(t, left[|t|..]);
    SpanIs(left, 0, true);
  }

  /** Trimming twice is trimming once. */
  lemma TrimTwice(s: string)
    ensures TrimSpace(TrimSpace(s)) == TrimSpace(s)
  {
    var left := TrimLeft(s);
    var t := TrimSpace(s);
    if t != "" {
      assert left[0] == t[0];
      TrimKeeps(t);
    }
  }

  /** A text that neither starts nor ends with white space is left alone. */
  lemma TrimKeeps(s: string)
    requires s != "" && !IsSpace(s[0]) && !IsSpace(s[|s| - 1])
    ensures TrimSpace(s) == s
  {
    SpanIs(s, 0, true);
  }

  /** Nothing is left of a text exactly when it is all white space. */
  lemma TrimmedAway(s: string)
    ensures TrimSpace(s) == "" <==> Blank(s)
  {
    if Blank(s) {
      BlankIndex(s);
      SpanIs(s, |s|, true);
    } else {
      var left := TrimLeft(s);
      assert left != "" ==> !IsSpace(left[0]) && left[0] in left;
    }
  }

  // ---- Decimal integers ----

  predicate IsDigit(c: char) {
    '0' <= c <= '9'
  }

  predicate Digits(s: string) {
    s != "" && forall c | c in s :: IsDigit(c)
  }

  function PrintNat(n: nat): (s: string)
    ensures Digits(s) && (|s| > 1 ==> s[0] != '0')
  {
    var d := (n % 10) as char + '0';
    if n < 10 then [d] else PrintNat(n / 10) + [d]
  }

  function DigitValue(c: char): nat
    requires IsDigit(c)
  {
    c as nat - '0' as nat
  }

  function NatValue(s: string): nat
    requires forall c | c in s :: IsDigit(c)
  {
    if s == "" then 0 else 10 * NatValue(s[..|s| - 1]) + DigitValue(s[|s| - 1])
  }

  lemma {:induction false} PrintThenRead(n: nat)
    ensures NatValue(PrintNat(n)) == n
  {
    var s := PrintNat(n);
    if n >= 10 {
      PrintThenRead(n / 10);
      assert s[..|s| - 1] == PrintNat(n / 10);
    }
  }

  /** strconv.Atoi: an optional sign, then digits. A value outside int64 is an error in Go and a
      number here; every caller rejects it by range, with the same error. */
  function Atoi(s: string): (r: Option<int>) {
    if Digits(s) then Some(NatValue(s))
    else if s != "" && s[0] == '+' && Digits(s[1..]) then Some(NatValue(s[1..]))
    else if s != "" && s[0] == '-' && Digits(s[1..]) then Some(0 - NatValue(s[1..]))
    else None
  }

  /** Signs are read, and nothing but digits may follow. */
  lemma SignedIntegers(s: string, n: nat)
    ensures Atoi(PrintNat(n)) == Some(n) && Atoi("+" + PrintNat(n)) == Some(n) && Atoi("-" + PrintNat(n)) == Some(0 - n)
    ensures Atoi(s).Some? <==> Digits(s) || (s != "" && (s[0] == '+' || s[0] == '-') && Digits(s[1..]))
  {
    PrintThenRead(n);
    hide PrintNat, NatValue;
    var d := PrintNat(n);
    assert ("+" + d)[1..] == d && ("-" + d)[1..] == d;
    assert '+' in "+" + d && '-' in "-" + d;
  }

  // ---- UTF-8 lengths ----

  function CharBytes(c: char): (n: nat)
    ensures 1 <= n <= 4
  {
    if c < '\U{80}' then 1 else if c < '\U{800}' then 2 else if c < '\U{10000}' then 3 else 4
  }

  function ByteLen(s: string): (n: nat)
    ensures |s| <= n
  {
    if s == "" then 0 else CharBytes(s[0]) + ByteLen(s[1..])
  }
}
