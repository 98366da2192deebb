/** internal/logevent and the JSON-lines files of both spools. One flat object per event: string
    and integer members, written by encoding/json and read back member by member. */
module Codec {
  import opened Text
  import opened Logline

  datatype Event = Event(
    source: string, raw: string, timestamp: Time, ip: string, verb: string, path: string, status: int,
    receivedAt: Time, processedAt: Time, workerId: string)

  /** Go's zero time, January 1 of year 1, and the zero event that decoding starts from. */
  const ZERO_TIME := Time(-62135596800_000000000, 0)
  const ZERO_EVENT := Event("", "", ZERO_TIME, "", "", "", 0, ZERO_TIME, ZERO_TIME, "")

  // ---- Strings: section 7 of RFC 8259, with the extra escapes encoding/json adds ----

  function HexDigit(n: nat): char
    requires n < 16
  {
    if n < 10 then (n as char + '0') else ((n - 10) as char + 'a')
  }

  function HexValue(c: char): Option<nat> {
    if '0' <= c <= '9' then Some(c as nat - '0' as nat)
    else if 'a' <= c <= 'f' then Some(c as nat - 'a' as nat + 10)
    else if 'A' <= c <= 'F' then Some(c as nat - 'A' as nat + 10)
    else None
  }

  predicate NeedsCode(c: char) {
    c < ' ' || c == '<' || c == '>' || c == '&' || c == '\U{2028}' || c == '\U{2029}'
  }

  function EscapeChar(c: char): string {
    if c == '"' || c == '\\' then ['\\', c]
    else if c == '\U{8}' then "\\b"
    else if c == '\U{C}' then "\\f"
    else if c == '\n' then "\\n"
    else if c == '\r' then "\\r"
    else if c == '\t' then "\\t"
    else if NeedsCode(c) then
      var n := c as nat;
      ['\\', 'u', HexDigit(n / 4096), HexDigit(n / 256 % 16), HexDigit(n / 16 % 16), HexDigit(n % 16)]
    else [c]
  }

  function Escape(s: string): string {
    if s == "" then "" else EscapeChar(s[0]) + Escape(s[1..])
  }

  /** The character after a backslash, for the short escapes. */
  function ShortEscape(c: char): Option<char> {
    if c == '"' || c == '\\' || c == '/' then Some(c)
    else if c == 'b' then Some('\U{8}')
    else if c == 'f' then Some('\U{C}')
    else if c == 'n' then Some('\n')
    else if c == 'r' then Some('\r')
    else if c == 't' then Some('\t')
    else None
  }

  /** Four hexadecimal digits; a surrogate reads as the replacement character. */
  function ReadCode(s: string): Option<char>
    requires |s| >= 4
  {
    var a, b, c, d := HexValue(s[0]), HexValue(s[1]), HexValue(s[2]), HexValue(s[3]);
    if a.None? || b.None? || c.None? || d.None? then None
    else
      var n := 4096 * a.value + 256 * b.value + 16 * c.value + d.value;
      Some(if 0xD800 <= n < 0xE000 || n >= 0x11_0000 then '\U{FFFD}' else n as char)
  }

  /** One character of a string body, escaped or plain, and what follows it. */
  function ReadChar(s: string): (r: Option<(char, string)>)
    ensures r.Some? ==> |r.value.1| < |s|
  {
    if s == "" || s[0] < ' ' then None
    else if s[0] != '\\' then Some((s[0], s[1..]))
    else if |s| < 2 then None
    else if s[1] == 'u' then
      if |s| < 6 || ReadCode(s[2..]).None? then None else Some((ReadCode(s[2..]).value, s[6..]))
    else if ShortEscape(s[1]).None? then None
    else Some((ShortEscape(s[1]).value, s[2..]))
  }

  /** A string body up to its closing quote. */
  function ReadString(s: string): (r: Option<(string, string)>)
    ensures r.Some? ==> |r.value.1| < |s|
    decreases |s|
  {
    if s == "" then None
    else if s[0] == '"' then Some(("", s[1..]))
    else
      match ReadChar(s)
      case None => None
      case Some((c, rest)) =>
        match ReadString(rest)
        case None => None
        case Some((text, after)) => Some(([c] + text, after))
  }

  lemma ReadEscapedChar(c: char, tail: string)
    ensures ReadChar(EscapeChar(c) + tail) == Some((c, tail))
    ensures (EscapeChar(c) + tail)[0] != '"'
  {
    var s := EscapeChar(c) + tail;
    var e := EscapeChar(c);
    assert forall i | 0 <= i < |e| :: s[i] == e[i];
    assert s[|e|..] == tail;
    if |e| == 6 {
      CodeRoundTrip(c as nat, s[2..]);
    }
  }

  lemma CodeRoundTrip(n: nat, s: string)
    requires n < 0xD800 && |s| >= 4
    requires s[0] == HexDigit(n / 4096) && s[1] == HexDigit(n / 256 % 16)
    requires s[2] == HexDigit(n / 16 % 16) && s[3] == HexDigit(n % 16)
    ensures ReadCode(s) == Some(n as char)
  {
    HexRoundTrip(n / 4096);
    HexRoundTrip(n / 256 % 16);
    HexRoundTrip(n / 16 % 16);
    HexRoundTrip(n % 16);
    HexDigits(n);
  }

  lemma HexRoundTrip(d: nat)
    requires d < 16
    ensures HexValue(HexDigit(d)) == Some(d)
  {
  }

  lemma HexDigits(n: nat)
    ensures n == 4096 * (n / 4096) + 256 * (n / 256 % 16) + 16 * (n / 16 % 16) + n % 16
  {
    var a := n / 16;
    var b := a / 16;
    assert n == 16 * a + n % 16 && a == 16 * b + a % 16 && b == 16 * (b / 16) + b % 16;
    assert b == n / 256 && b / 16 == n / 4096;
  }

  lemma {:induction false} ReadEscaped(s: string, rest: string)
    ensures ReadString(Escape(s) + ("\"" + rest)) == Some((s, rest))
  {
    var after := "\"" + rest;
    if s == "" {
      assert Escape(s) + after == after;
    } else {
      var tail := Escape(s[1..]) + after;
      assert Escape(s) + after == EscapeChar(s[0]) + tail;
      ReadEscapedChar(s[0], tail);
      ReadEscaped(s[1..], rest);
      assert [s[0]] + s[1..] == s;
    }
  }

  // ---- Values and members ----

  datatype Value = Str(text: string) | Num(number: int)

  datatype Member = Member(key: string, value: Value)

  function PrintInt(n: int): string {
    if n < 0 then ['-'] + PrintNat(-n) else PrintNat(n)
  }

  function PrintValue(v: Value): string {
    match v
    case Str(text) => "\"" + (Escape(text) + "\"")
    case Num(n) => PrintInt(n)
  }

  function DigitSpan(s: string): (n: nat)
    ensures n <= |s|
    ensures forall c | c in s[..n] :: IsDigit(c)
  {
    if s == "" || !IsDigit(s[0]) then 0
    else
      var n := 1 + DigitSpan(s[1..]);
      assert s[..n] == [s[0]] + s[1..][..n - 1];
      n
  }

  /** An integer without leading zeros (section 6 of RFC 8259). */
  function ReadNat(s: string): (r: Option<(nat, string)>)
    ensures r.Some? ==> |r.value.1| < |s|
  {
    var n := DigitSpan(s);
    if n == 0 || (n > 1 && s[0] == '0') then None else Some((NatValue(s[..n]), s[n..]))
  }

  function ReadInt(s: string): (r: Option<(int, string)>)
    ensures r.Some? ==> |r.value.1| < |s|
  {
    if s != "" && s[0] == '-' then
      match ReadNat(s[1..])
      case None => None
      case Some((n, rest)) => Some((0 - n, rest))
    else
      match ReadNat(s)
      case None => None
      case Some((n, rest)) => Some((n, rest))
  }

  function ReadValue(s: string): (r: Option<(Value, string)>)
    ensures r.Some? ==> |r.value.1| < |s|
  {
    if s != "" && s[0] == '"' then
      match ReadString(s[1..])
      case None => None
      case Some((text, rest)) => Some((Str(text), rest))
    else
      match ReadInt(s)
      case None => None
      case Some((n, rest)) => Some((Num(n), rest))
  }

  function PrintMember(m: Member): string {
    "\"" + (Escape(m.key) + ("\"" + (":" + PrintValue(m.value))))
  }

  function ReadMember(s: string): (r: Option<(Member, string)>)
    ensures r.Some? ==> |r.value.1| < |s|
  {
    if s == "" || s[0] != '"' then None
    else
      match ReadString(s[1..])
      case None => None
      case Some((key, rest)) =>
        if rest == "" || rest[0] != ':' then None
        else
          match ReadValue(rest[1..])
          case None => None
          case Some((value, after)) => Some((Member(key, value), after))
  }

  /** The members after the first one, with the closing brace. */
  function PrintTail(ms: seq<Member>): string {
    if ms == [] then "}" else "," + (PrintMember(ms[0]) + PrintTail(ms[1..]))
  }

  function ReadTail(s: string): Option<(seq<Member>, string)>
    decreases |s|
  {
    if s == "" then None
    else if s[0] == '}' then Some(([], s[1..]))
    else if s[0] != ',' then None
    else
      match ReadMember(s[1..])
      case None => None
      case Some((m, rest)) =>
        match ReadTail(rest)
        case None => None
        case Some((ms, after)) => Some(([m] + ms, after))
  }

  function PrintObject(ms: seq<Member>): string
    requires ms != []
  {
    "{" + (PrintMember(ms[0]) + PrintTail(ms[1..]))
  }

  function ReadObject(s: string): Option<seq<Member>> {
    if s == "" || s[0] != '{' then None
    else if |s| == 2 && s[1] == '}' then Some([])
    else
      match ReadMember(s[1..])
      case None => None
      case Some((m, rest)) =>
        match ReadTail(rest)
        case None => None
        case Some((ms, after)) => if after == "" then Some([m] + ms) else None
  }

  lemma SpanOfDigits(d: string, rest: string)
    requires forall c | c in d :: IsDigit(c)
    requires rest == "" || !IsDigit(rest[0])
    ensures DigitSpan(d + rest) == |d|
  {
    if d == "" {
      assert d + rest == rest;
    } else {
      assert d[0] in d && (d + rest)[1..] == d[1..] + rest;
      assert forall c | c in d[1..] :: c in d;
      SpanOfDigits(d[1..], rest);
    }
  }

  lemma ReadPrintedValue(v: Value, rest: string)
    requires rest != "" && !IsDigit(rest[0])
    ensures ReadValue(PrintValue(v) + rest) == Some((v, rest))
  {
    if v.Str? {
      ReadPrintedText(v.text, rest);
    } else {
      ReadPrintedInt(v.number, rest);
    }
  }

  lemma ReadPrintedInt(n: int, rest: string)
    requires rest == "" || !IsDigit(rest[0])
    ensures ReadInt(PrintInt(n) + rest) == Some((n, rest))
    ensures (PrintInt(n) + rest)[0] != '"'
  {
    if n >= 0 {
      ReadPrintedNat(n, rest);
    } else {
      var tail := PrintNat(-n) + rest;
      ReadPrintedNat(-n, rest);
      assert PrintInt(n) + rest == ['-'] + tail;
      assert (['-'] + tail)[1..] == tail;
    }
  }

  lemma ReadPrintedText(text: string, rest: string)
    ensures ReadValue(PrintValue(Str(text)) + rest) == Some((Str(text), rest))
  {
    var s := PrintValue(Str(text)) + rest;
    assert s[0] == '"' && s[1..] == Escape(text) + ("\"" + rest);
    ReadEscaped(text, rest);
  }

  lemma ReadPrintedNat(n: nat, rest: string)
    requires rest == "" || !IsDigit(rest[0])
    ensures ReadNat(PrintNat(n) + rest) == Some((n, rest))
    ensures IsDigit((PrintNat(n) + rest)[0])
  {
    var d := PrintNat(n);
    PrintThenRead(n);
    SpanOfDigits(d, rest);
    assert (d + rest)[..|d|] == d && (d + rest)[|d|..] == rest;
    assert d[0] in d && (d + rest)[0] == d[0];
  }

  lemma ReadPrintedMember(m: Member, rest: string)
    requires rest != "" && !IsDigit(rest[0])
    ensures ReadMember(PrintMember(m) + rest) == Some((m, rest))
  {
    hide Escape, ReadString, PrintValue, ReadValue;
    var s := PrintMember(m) + rest;
    var tail := ":" + (PrintValue(m.value) + rest);
    assert s[1..] == Escape(m.key) + ("\"" + tail);
    ReadEscaped(m.key, tail);
    assert tail[1..] == PrintValue(m.value) + rest;
    ReadPrintedValue(m.value, rest);
  }

  lemma {:induction false} ReadPrintedTail(ms: seq<Member>)
    ensures ReadTail(PrintTail(ms)) == Some((ms, ""))
    ensures PrintTail(ms) != "" && !IsDigit(PrintTail(ms)[0])
  {
    if ms == [] {
      assert PrintTail(ms)[1..] == "";
    } else {
      ReadPrintedTail(ms[1..]);
      ReadPrintedMember(ms[0], PrintTail(ms[1..]));
      assert PrintTail(ms)[1..] == PrintMember(ms[0]) + PrintTail(ms[1..]);
      assert [ms[0]] + ms[1..] == ms;
    }
  }

  /** Any flat object reads back as the members it was printed from. */
  lemma ObjectRoundTrip(ms: seq<Member>)
    requires ms != []
    ensures ReadObject(PrintObject(ms)) == Some(ms)
  {
    hide Escape, PrintTail, ReadTail, ReadMember, PrintValue;
    ReadPrintedTail(ms[1..]);
    ReadPrintedMember(ms[0], PrintTail(ms[1..]));
    var s := PrintObject(ms);
    assert s[1] == '"' && s[1..] == PrintMember(ms[0]) + PrintTail(ms[1..]);
    assert [ms[0]] + ms[1..] == ms;
  }

  /** No character below the space, so in particular no line break. */
  predicate Printable(s: string) {
    forall c | c in s :: c >= ' '
  }

  lemma {:induction false} EscapedIsPrintable(s: string)
    ensures Printable(Escape(s))
  {
    if s != "" {
      EscapedIsPrintable(s[1..]);
      assert Printable(EscapeChar(s[0]));
    }
  }

  lemma MemberIsPrintable(m: Member)
    ensures Printable(PrintMember(m))
  {
    EscapedIsPrintable(m.key);
    if m.value.Str? {
      EscapedIsPrintable(m.value.text);
    } else {
      var n := m.value.number;
      assert Printable(PrintNat(if n < 0 then -n else n));
    }
  }

  lemma {:induction false} TailIsPrintable(ms: seq<Member>)
    ensures Printable(PrintTail(ms)) && PrintTail(ms)[|PrintTail(ms)| - 1] == '}'
  {
    if ms != [] {
      MemberIsPrintable(ms[0]);
      TailIsPrintable(ms[1..]);
    }
  }

  // ---- Events ----

  /** The members of an event in the order of the struct, its times already rendered; `worker_id`
      is left out when empty. */
  function Members(e: Event, stamp: string, received: string, processed: string): seq<Member> {
    [Member("source", Str(e.source)), Member("raw", Str(e.raw)), Member("@timestamp", Str(stamp)),
     Member("ip", Str(e.ip)), Member("method", Str(e.verb)), Member("path", Str(e.path)),
     Member("status", Num(e.status)), Member("received_at", Str(received)), Member("processed_at", Str(processed))]
    + (if e.workerId == "" then [] else [Member("worker_id", Str(e.workerId))])
  }

  /** No members when one of the times has no JSON form. */
  function ToMembers(env: Env, e: Event): Option<seq<Member>> {
    var t, r, p := env.renderTime(e.timestamp), env.renderTime(e.receivedAt), env.renderTime(e.processedAt);
    if t.None? || r.None? || p.None? then None else Some(Members(e, t.value, r.value, p.value))
  }

  /** The JSON names of the struct's fields. */
  datatype Field = Source | Raw | Timestamp | IP | Verb | Path | Status | ReceivedAt | ProcessedAt | WorkerId | Unknown

  function FieldOf(key: string): Field {
    if key == "source" then Source
    else if key == "raw" then Raw
    else if key == "@timestamp" then Timestamp
    else if key == "ip" then IP
    else if key == "method" then Verb
    else if key == "path" then Path
    else if key == "status" then Status
    else if key == "received_at" then ReceivedAt
    else if key == "processed_at" then ProcessedAt
    else if key == "worker_id" then WorkerId
    else Unknown
  }

  /** Assigns one member; members with other keys are ignored, a value of the wrong kind fails. */
  function Assign(env: Env, e: Event, m: Member): Option<Event> {
    match FieldOf(m.key)
    case Unknown => Some(e)
    case Status => if m.value.Num? then Some(e.(status := m.value.number)) else None
    case field =>
      if m.value.Num? then None
      else if field.Timestamp? || field.ReceivedAt? || field.ProcessedAt? then
        match env.readTime(m.value.text)
        case None => None
        case Some(t) =>
          Some(if field.Timestamp? then e.(timestamp := t)
               else if field.ReceivedAt? then e.(receivedAt := t) else e.(processedAt := t))
      else
        var text := m.value.text;
        Some(match field
             case Source => e.(source := text)
             case Raw => e.(raw := text)
             case IP => e.(ip := text)
             case Verb => e.(verb := text)
             case Path => e.(path := text)
             case _ => e.(workerId := text))
  }

  function AssignAll(env: Env, e: Event, ms: seq<Member>): Option<Event>
    decreases |ms|
  {
    if ms == [] then Some(e)
    else
      match Assign(env, e, ms[0])
      case None => None
      case Some(next) => AssignAll(env, next, ms[1..])
  }

  /** json.Marshal of an event. */
  function Encode(env: Env, e: Event): Option<string> {
    match ToMembers(env, e)
    case None => None
    case Some(ms) => Some(PrintObject(ms))
  }

  datatype DecodeError = BadSyntax | BadValue

  /** json.Unmarshal into an event. */
  function Decode(env: Env, s: string): Result<Event, DecodeError> {
    match ReadObject(s)
    case None => Err(BadSyntax)
    case Some(ms) =>
      match AssignAll(env, ZERO_EVENT, ms)
      case None => Err(BadValue)
      case Some(e) => Ok(e)
  }

  lemma MembersRoundTrip(env: Env, e: Event)
    requires Lawful(env) && ToMembers(env, e).Some?
    ensures AssignAll(env, ZERO_EVENT, ToMembers(env, e).value) == Some(e)
  {
    var t, r, p := env.renderTime(e.timestamp).value, env.renderTime(e.receivedAt).value,
        env.renderTime(e.processedAt).value;
    FirstMembers(env, e, t, r, p);
    LastMembers(env, e, t, r, p);
  }

  /** The zero event with the first five fields of `e`. */
  ghost function Half(e: Event): Event {
    ZERO_EVENT.(source := e.source, raw := e.raw, timestamp := e.timestamp, ip := e.ip, verb := e.verb)
  }

  lemma FirstMembers(env: Env, e: Event, t: string, r: string, p: string)
    requires env.readTime(t) == Some(e.timestamp)
    ensures AssignAll(env, ZERO_EVENT, Members(e, t, r, p)) == AssignAll(env, Half(e), Members(e, t, r, p)[5..])
  {
    var ms := Members(e, t, r, p);
    FieldNames();
    assert ms[0..] == ms;
    AssignStep(env, ZERO_EVENT, ms, 0, ZERO_EVENT.(source := e.source));
    AssignStep(env, ZERO_EVENT.(source := e.source), ms, 1, ZERO_EVENT.(source := e.source, raw := e.raw));
    AssignStep(env, ZERO_EVENT.(source := e.source, raw := e.raw), ms, 2, Half(e).(ip := "", verb := ""));
    AssignStep(env, Half(e).(ip := "", verb := ""), ms, 3, Half(e).(verb := ""));
    AssignStep(env, Half(e).(verb := ""), ms, 4, Half(e));
  }

  lemma LastMembers(env: Env, e: Event, t: string, r: string, p: string)
    requires env.readTime(r) == Some(e.receivedAt) && env.readTime(p) == Some(e.processedAt)
    ensures AssignAll(env, Half(e), Members(e, t, r, p)[5..]) == Some(e)
  {
    var ms := Members(e, t, r, p);
    var e6 := Half(e).(path := e.path);
    var e7 := e6.(status := e.status);
    var e8 := e7.(receivedAt := e.receivedAt);
    var e9 := e8.(processedAt := e.processedAt);
    FieldNames();
    AssignStep(env, Half(e), ms, 5, e6);
    AssignStep(env, e6, ms, 6, e7);
    AssignStep(env, e7, ms, 7, e8);
    AssignStep(env, e8, ms, 8, e9);
    if e.workerId == "" {
      assert ms[9..] == [];
    } else {
      AssignStep(env, e9, ms, 9, e);
      assert ms[10..] == [];
    }
  }

  lemma FieldNames()
    ensures FieldOf("source") == Source && FieldOf("raw") == Raw && FieldOf("@timestamp") == Timestamp
    ensures FieldOf("ip") == IP && FieldOf("method") == Verb && FieldOf("path") == Path
    ensures FieldOf("status") == Status && FieldOf("received_at") == ReceivedAt
    ensures FieldOf("processed_at") == ProcessedAt && FieldOf("worker_id") == WorkerId
  {
  }

  lemma AssignStep(env: Env, e: Event, ms: seq<Member>, i: nat, next: Event)
    requires i < |ms| && Assign(env, e, ms[i]) == Some(next)
    ensures AssignAll(env, e, ms[i..]) == AssignAll(env, next, ms[i + 1..])
  {
    assert ms[i..][1..] == ms[i + 1..];
  }

  /** Texts one after the other, a comma before each. */
  function Commas(parts: seq<string>): string {
    if parts == [] then "" else "," + parts[0] + Commas(parts[1..])
  }

  function Quoted(key: string, text: string): string {
    "\"" + key + "\":\"" + Escape(text) + "\""
  }

  predicate Plain(s: string) {
    forall i | 0 <= i < |s| :: 'a' <= s[i] <= 'z' || s[i] == '_' || s[i] == '@'
  }

  lemma {:induction false} PlainText(s: string)
    requires Plain(s)
    ensures Escape(s) == s
  {
    if s != "" {
      PlainText(s[1..]);
      assert EscapeChar(s[0]) == [s[0]];
    }
  }

  lemma QuotedMember(key: string, text: string)
    requires Plain(key)
    ensures PrintMember(Member(key, Str(text))) == Quoted(key, text)
  {
    hide Escape;
    PlainText(key);
  }

  lemma KeysArePlain()
    ensures Plain("source") && Plain("raw") && Plain("@timestamp") && Plain("ip") && Plain("method") && Plain("path")
    ensures Plain("status") && Plain("received_at") && Plain("processed_at") && Plain("worker_id")
  {
  }

  lemma {:induction false} TailText(ms: seq<Member>, parts: seq<string>)
    requires |ms| == |parts| && forall i | 0 <= i < |ms| :: PrintMember(ms[i]) == parts[i]
    ensures PrintTail(ms) == Commas(parts) + "}"
  {
    hide PrintMember;
    if ms != [] {
      TailText(ms[1..], parts[1..]);
      assert "," + parts[0] + Commas(parts[1..]) + "}" == "," + (parts[0] + (Commas(parts[1..]) + "}"));
    }
  }

  /** The text of an event, member by member. */
  lemma EncodedText(env: Env, e: Event)
    requires Encode(env, e).Some?
    ensures
      var t, r, p := env.renderTime(e.timestamp), env.renderTime(e.receivedAt), env.renderTime(e.processedAt);
      && t.Some? && r.Some? && p.Some?
      && Encode(env, e).value == "{" + Quoted("source", e.source) + (Commas(
           [Quoted("raw", e.raw), Quoted("@timestamp", t.value), Quoted("ip", e.ip), Quoted("method", e.verb),
            Quoted("path", e.path), "\"status\":" + PrintInt(e.status), Quoted("received_at", r.value),
            Quoted("processed_at", p.value)]
           + (if e.workerId == "" then [] else [Quoted("worker_id", e.workerId)])) + "}")
  {
    hide Quoted, Commas, Escape, PrintTail, PrintMember, PrintInt;
    var t, r, p := env.renderTime(e.timestamp).value, env.renderTime(e.receivedAt).value,
        env.renderTime(e.processedAt).value;
    var ms := Members(e, t, r, p);
    var parts := [Quoted("raw", e.raw), Quoted("@timestamp", t), Quoted("ip", e.ip), Quoted("method", e.verb),
        Quoted("path", e.path), "\"status\":" + PrintInt(e.status), Quoted("received_at", r), Quoted("processed_at", p)]
        + (if e.workerId == "" then [] else [Quoted("worker_id", e.workerId)]);
    PartsOf(e, t, r, p);
    TailText(ms[1..], parts);
    assert PrintObject(ms) == "{" + (Quoted("source", e.source) + (Commas(parts) + "}"));
  }

  lemma PartsOf(e: Event, t: string, r: string, p: string)
    ensures
      var ms := Members(e, t, r, p);
      && PrintMember(ms[0]) == Quoted("source", e.source) && PrintMember(ms[1]) == Quoted("raw", e.raw)
      && PrintMember(ms[2]) == Quoted("@timestamp", t) && PrintMember(ms[3]) == Quoted("ip", e.ip)
      && PrintMember(ms[4]) == Quoted("method", e.verb) && PrintMember(ms[5]) == Quoted("path", e.path)
      && PrintMember(ms[6]) == "\"status\":" + PrintInt(e.status) && PrintMember(ms[7]) == Quoted("received_at", r)
      && PrintMember(ms[8]) == Quoted("processed_at", p)
      && (e.workerId != "" ==> PrintMember(ms[9]) == Quoted("worker_id", e.workerId))
  {
    KeysArePlain();
    StatusMember(e.status);
    hide Quoted, PrintInt, Escape, PrintMember, Plain;
    QuotedMember("source", e.source);
    QuotedMember("raw", e.raw);
    QuotedMember("@timestamp", t);
    QuotedMember("ip", e.ip);
    QuotedMember("method", e.verb);
    QuotedMember("path", e.path);
    QuotedMember("received_at", r);
    QuotedMember("processed_at", p);
    QuotedMember("worker_id", e.workerId);
  }

  lemma StatusMember(status: int)
    ensures PrintMember(Member("status", Num(status))) == "\"status\":" + PrintInt(status)
  {
    KeysArePlain();
    PlainText("status");
    hide Plain, Escape, PrintInt;
  }

  /** How characters are written: HTML characters and the two line separators as codes, control
      characters short or as codes, everything else as it is. */
  lemma EscapedCharacters(c: char)
    ensures EscapeChar('"') == "\\\"" && EscapeChar('\\') == "\\\\" && EscapeChar('\n') == "\\n"
    ensures EscapeChar('\r') == "\\r" && EscapeChar('\t') == "\\t" && EscapeChar('\U{8}') == "\\b"
    ensures EscapeChar('\U{C}') == "\\f" && EscapeChar('<') == "\\u003c" && EscapeChar('>') == "\\u003e"
    ensures EscapeChar('&') == "\\u0026" && EscapeChar('\U{2028}') == "\\u2028" && EscapeChar('\U{2029}') == "\\u2029"
    ensures EscapeChar('\U{0}') == "\\u0000" && EscapeChar('\U{1F}') == "\\u001f"
    ensures ' ' <= c && c !in "\"\\<>&\U{2028}\U{2029}" ==> EscapeChar(c) == [c]
  {
  }

  /** An event that can be encoded decodes to itself, and its line is a printable object. */
  lemma EventRoundTrip(env: Env, e: Event)
    requires Lawful(env) && Encode(env, e).Some?
    ensures
      var line := Encode(env, e).value;
      Decode(env, line) == Ok(e) && Printable(line) && line != "" && line[0] == '{' && line[|line| - 1] == '}'
  {
    var ms := ToMembers(env, e).value;
    ObjectRoundTrip(ms);
    MembersRoundTrip(env, e);
    ObjectIsPrintable(ms);
  }

  lemma ObjectIsPrintable(ms: seq<Member>)
    requires ms != []
    ensures
      var line := PrintObject(ms);
      Printable(line) && line != "" && line[0] == '{' && line[|line| - 1] == '}'
  {
    MemberIsPrintable(ms[0]);
    TailIsPrintable(ms[1..]);
  }

  // ---- JSON lines ----

  /** `text` followed by what is still to be written, if that can be written. */
  function Continue(text: string, rest: Option<string>): Option<string> {
    match rest
    case None => None
    case Some(more) => Some(text + more)
  }

  /** One line per event, in order; nothing when some event cannot be encoded. */
  function Lines(env: Env, events: seq<Event>): Option<string> {
    if events == [] then Some("")
    else
      match Encode(env, events[0])
      case None => None
      case Some(line) => Continue(line + "\n", Lines(env, events[1..]))
  }

  /** internal/spool/writer.go, marshalJSONLines. */
  method MarshalJSONLines(env: Env, events: seq<Event>) returns (payload: Option<string>)
    ensures payload == Lines(env, events)
  {
    var text := "";
    LinesStart(env, events);
    for i := 0 to |events|
      invariant Lines(env, events) == Continue(text, Lines(env, events[i..]))
    {
      var line := Encode(env, events[i]);
      if line.None? {
        assert events[i..][0] == events[i];
        return None;
      }
      LinesStep(env, events, i, text);
      text := text + (line.value + "\n");
    }
    payload := Some(text);
    assert text + "" == text;
  }

  lemma LinesStart(env: Env, events: seq<Event>)
    ensures Lines(env, events) == Continue("", Lines(env, events[0..]))
  {
    assert events[0..] == events;
    var all := Lines(env, events);
    if all.Some? {
      assert "" + all.value == all.value;
    }
  }

  lemma LinesStep(env: Env, events: seq<Event>, i: nat, text: string)
    requires i < |events| && Encode(env, events[i]).Some?
    ensures Continue(text, Lines(env, events[i..])) ==
            Continue(text + (Encode(env, events[i]).value + "\n"), Lines(env, events[i + 1..]))
  {
    assert events[i..][1..] == events[i + 1..] && events[i..][0] == events[i];
    ContinueTwice(text, Encode(env, events[i]).value + "\n", Lines(env, events[i + 1..]));
  }

  lemma ContinueTwice(text: string, line: string, rest: Option<string>)
    ensures Continue(text, Continue(line, rest)) == Continue(text + line, rest)
  {
    if rest.Some? {
      assert text + (line + rest.value) == text + line + rest.value;
    }
  }

  /** bufio.MaxScanTokenSize: the scanner gives up when this many bytes hold no line break. */
  const MAX_TOKEN := 65536

  datatype ReadError = LineTooLong | BadLine

  function LineLen(s: string): (n: nat)
    ensures n <= |s| && '\n' !in s[..n] && (n < |s| ==> s[n] == '\n')
  {
    if s == "" || s[0] == '\n' then 0
    else
      var n := 1 + LineLen(s[1..]);
      assert s[..n] == [s[0]] + s[1..][..n - 1];
      n
  }

  function DropCR(line: string): string {
    if line != "" && line[|line| - 1] == '\r' then line[..|line| - 1] else line
  }

  /** The next line as the scanner delivers it; `lenient` is the worker's reader, which trims it. */
  function NextLine(content: string, lenient: bool): string {
    var line := DropCR(content[..LineLen(content)]);
    if lenient then TrimSpace(line) else line
  }

  function AfterLine(content: string): string {
    var n := LineLen(content);
    if n < |content| then content[n + 1..] else ""
  }

  /** Reading a spool file. The worker's reader (`lenient`) also skips blank lines. */
  function ReadAll(env: Env, content: string, lenient: bool): Result<seq<Event>, ReadError>
    decreases |content|
  {
    if content == "" then Ok([])
    else if ByteLen(content[..LineLen(content)]) >= MAX_TOKEN then Err(LineTooLong)
    else if lenient && NextLine(content, lenient) == "" then ReadAll(env, AfterLine(content), lenient)
    else
      match Decode(env, NextLine(content, lenient))
      case Err(_) => Err(BadLine)
      case Ok(e) => Prepend([e], ReadAll(env, AfterLine(content), lenient))
  }

  function Prepend(events: seq<Event>, r: Result<seq<Event>, ReadError>): Result<seq<Event>, ReadError> {
    match r
    case Ok(more) => Ok(events + more)
    case Err(e) => Err(e)
  }

  /** ReadFile of internal/spool/writer.go, and readReplayFile of internal/worker/service.go when
      `lenient`. */
  method ReadFile(env: Env, content: string, lenient: bool) returns (r: Result<seq<Event>, ReadError>)
    ensures r == ReadAll(env, content, lenient)
  {
    var events, rest := [], content;
    PrependNothing(ReadAll(env, content, lenient));
    while rest != ""
      invariant ReadAll(env, content, lenient) == Prepend(events, ReadAll(env, rest, lenient))
      decreases |rest|
    {
      if ByteLen(rest[..LineLen(rest)]) >= MAX_TOKEN {
        return Err(LineTooLong);
      }
      var line := NextLine(rest, lenient);
      if !(lenient && line == "") {
        var event := Decode(env, line);
        if event.Err? {
          return Err(BadLine);
        }
        PrependTwice(events, [event.value], ReadAll(env, AfterLine(rest), lenient));
        events := events + [event.value];
      }
      rest := AfterLine(rest);
    }
    r := Ok(events);
    assert events + [] == events;
  }

  lemma PrependNothing(r: Result<seq<Event>, ReadError>)
    ensures Prepend([], r) == r
  {
    if r.Ok? {
      assert [] + r.value == r.value;
    }
  }

  lemma PrependTwice(a: seq<Event>, b: seq<Event>, r: Result<seq<Event>, ReadError>)
    ensures Prepend(a, Prepend(b, r)) == Prepend(a + b, r)
  {
    if r.Ok? {
      assert a + (b + r.value) == a + b + r.value;
    }
  }

  predicate Fits(env: Env, e: Event) {
    Encode(env, e).Some? && ByteLen(Encode(env, e).value) < MAX_TOKEN
  }

  predicate AllFit(env: Env, events: seq<Event>) {
    forall e | e in events :: Fits(env, e)
  }

  lemma AllFitStep(env: Env, events: seq<Event>)
    requires events != []
    ensures AllFit(env, events) <==> Fits(env, events[0]) && AllFit(env, events[1..])
  {
    assert events == [events[0]] + events[1..];
  }

  /** Both readers give back exactly the events written, in order, when every line is under the
      scanner's limit, and fail otherwise: a spool file never reads as some of its events. */
  lemma {:induction false} JsonLinesRoundTrip(env: Env, events: seq<Event>, lenient: bool)
    requires Lawful(env) && Lines(env, events).Some?
    ensures ReadAll(env, Lines(env, events).value, lenient) ==
            if AllFit(env, events) then Ok(events) else Err(LineTooLong)
  {
    hide Encode, Decode, NextLine, AfterLine, LineLen, ByteLen, Fits, Lawful;
    if events != [] {
      var rest := Lines(env, events[1..]).value;
      ReadOneLine(env, events[0], rest, lenient);
      JsonLinesRoundTrip(env, events[1..], lenient);
      AllFitStep(env, events);
      assert [events[0]] + events[1..] == events;
    }
  }

  /** In bytes: files are refused for a line of 65536 bytes or more, and for nothing else. */
  lemma ScannerLimit(env: Env, events: seq<Event>, lenient: bool)
    requires Lawful(env) && Lines(env, events).Some?
    ensures
      var r := ReadAll(env, Lines(env, events).value, lenient);
      && (r.Ok? <==> forall e | e in events :: Encode(env, e).Some? && ByteLen(Encode(env, e).value) < 65536)
      && (r.Ok? ==> r.value == events) && (r.Err? ==> r.error == LineTooLong)
  {
    hide Encode, ByteLen, Lines, ReadAll;
    JsonLinesRoundTrip(env, events, lenient);
  }

  /** A blank line: the worker's reader passes over it, the spool's fails on it. */
  lemma BlankLines(env: Env, gap: string, rest: string)
    requires Blank(gap) && '\n' !in gap && ByteLen(gap) < 65536
    ensures ReadAll(env, gap + ("\n" + rest), true) == ReadAll(env, rest, true)
    ensures gap == "" ==> ReadAll(env, gap + ("\n" + rest), false) == Err(BadLine)
  {
    var content := gap + ("\n" + rest);
    assert forall i | 0 <= i < |gap| :: gap[i] in gap && content[i] == gap[i];
    LineLenIs(content, |gap|);
    assert content[..|gap|] == gap && content[|gap| + 1..] == rest;
    assert Blank(DropCR(gap));
    TrimmedAway(DropCR(gap));
  }

  /** A line that is no event ends the reading. */
  lemma BrokenLine(env: Env, line: string, rest: string)
    requires Printable(line) && ByteLen(line) < 65536 && Decode(env, line).Err?
    ensures ReadAll(env, line + ("\n" + rest), false) == Err(BadLine)
  {
    hide Decode;
    var content := line + ("\n" + rest);
    assert forall i | 0 <= i < |line| :: line[i] in line && content[i] == line[i];
    LineLenIs(content, |line|);
    assert content[..|line|] == line;
    assert line != "" ==> line[|line| - 1] in line;
  }

  lemma ReadOneLine(env: Env, e: Event, rest: string, lenient: bool)
    requires Lawful(env) && Encode(env, e).Some?
    ensures ReadAll(env, Encode(env, e).value + "\n" + rest, lenient) ==
            if Fits(env, e) then Prepend([e], ReadAll(env, rest, lenient)) else Err(LineTooLong)
  {
    var line := Encode(env, e).value;
    var content := line + "\n" + rest;
    assert content == line + ("\n" + rest);
    EventRoundTrip(env, e);
    FirstLine(line, rest, lenient);
  }

  lemma FirstLine(line: string, rest: string, lenient: bool)
    requires Printable(line) && line != "" && line[0] == '{' && line[|line| - 1] == '}'
    ensures
      var content := line + ("\n" + rest);
      && content[..LineLen(content)] == line && AfterLine(content) == rest
      && NextLine(content, lenient) == line
  {
    var content := line + ("\n" + rest);
    assert forall i | 0 <= i < |line| :: line[i] in line && content[i] == line[i];
    LineLenIs(content, |line|);
    assert content[|line| + 1..] == rest;
    TrimKeeps(line);
  }

  lemma LineLenIs(s: string, n: nat)
    requires n < |s| && s[n] == '\n' && forall i | 0 <= i < n :: s[i] != '\n'
    ensures LineLen(s) == n
  {
  }
}
