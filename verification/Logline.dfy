/** internal/logline: one log line is five fields separated by white space. The API parses every
    line it accepts and the worker parses the stored raw text again, so what matters is that
    the second parse agrees with the first. */
module Logline {
  import opened Text

  /** An instant in nanoseconds since the Unix epoch, with the zone offset it was written in. */
  datatype Time = Time(nanos: int, offset: int)

  /** Library functions that are not modelled further. `parseAddr` stands for netip.ParseAddr
      followed by Addr.String; `renderTime` and `readTime` are the JSON form
      of a time. */
  datatype Env = Env(
    parseTime: string -> Option<Time>,
    parseAddr: string -> Option<string>,
    renderTime: Time -> Option<string>,
    readTime: string -> Option<Time>)

  /** The JSON reader of times inverts the writer. */
  ghost predicate Lawful(env: Env) {
    forall t :: env.renderTime(t).Some? ==> env.readTime(env.renderTime(t).value) == Some(t)
  }

  /** `verb` is the HTTP method. */
  datatype Record = Record(timestamp: Time, ip: string, verb: string, path: string, status: int, raw: string)

  datatype ParseError =
    | EmptyLine
    | InvalidFieldCount(got: nat)
    | InvalidTimestamp(text: string)
    | InvalidIP(text: string)
    | InvalidMethod(text: string)
    | InvalidPath(text: string)
    | InvalidStatus(text: string)

  predicate IsAllowedMethod(m: string) {
    m == "GET" || m == "POST" || m == "PUT" || m == "PATCH" || m == "DELETE" || m == "HEAD" || m == "OPTIONS"
  }

  function Parse(env: Env, line: string): Result<Record, ParseError> {
    var raw := TrimSpace(line);
    if raw == "" then Err(EmptyLine) else Judge(env, Fields(raw), raw)
  }

  /** The checks that follow the split, in the order of the source. */
  function Judge(env: Env, fields: seq<string>, raw: string): Result<Record, ParseError> {
    if |fields| != 5 then Err(InvalidFieldCount(|fields|))
    else if env.parseTime(fields[0]).None? then Err(InvalidTimestamp(fields[0]))
    else if env.parseAddr(fields[1]).None? then Err(InvalidIP(fields[1]))
    else if !IsAllowedMethod(fields[2]) then Err(InvalidMethod(fields[2]))
    else if !IsAbsolute(fields[3]) then Err(InvalidPath(fields[3]))
    else if !IsStatusText(fields[4]) then Err(InvalidStatus(fields[4]))
    else Ok(Record(env.parseTime(fields[0]).value, env.parseAddr(fields[1]).value,
                   fields[2], fields[3], Atoi(fields[4]).value, raw))
  }

  predicate IsAbsolute(path: string) {
    path != "" && path[0] == '/'
  }

  predicate IsStatusText(text: string) {
    Atoi(text).Some? && 100 <= Atoi(text).value <= 599
  }

  /** The five checks, on words. */
  predicate Legal(env: Env, words: seq<string>) {
    |words| == 5 && env.parseTime(words[0]).Some? && env.parseAddr(words[1]).Some?
    && IsAllowedMethod(words[2]) && IsAbsolute(words[3]) && IsStatusText(words[4])
  }

  lemma JudgeIsLegality(env: Env, words: seq<string>, raw: string)
    ensures Judge(env, words, raw).Ok? <==> Legal(env, words)
    ensures Legal(env, words) ==>
            Judge(env, words, raw) == Ok(Record(env.parseTime(words[0]).value, env.parseAddr(words[1]).value,
                                                words[2], words[3], Atoi(words[4]).value, raw))
  {
  }

  lemma ParseJudgesFields(env: Env, line: string)
    ensures Parse(env, line).Ok? <==> Judge(env, Fields(line), TrimSpace(line)).Ok?
    ensures Parse(env, line).Ok? ==> Parse(env, line) == Judge(env, Fields(line), TrimSpace(line))
  {
    FieldsOfTrim(line);
    FieldsOfBlank("");
  }

  /** What an accepted line holds, and what its record says of it. */
  lemma AcceptedExactly(env: Env, line: string)
    ensures
      var w, r := Fields(line), Parse(env, line);
      && (r.Ok? <==>
            && |w| == 5 && env.parseTime(w[0]).Some? && env.parseAddr(w[1]).Some?
            && w[2] in ["GET", "POST", "PUT", "PATCH", "DELETE", "HEAD", "OPTIONS"]
            && "/" <= w[3] && Atoi(w[4]).Some? && 100 <= Atoi(w[4]).value <= 599)
      && (r.Ok? ==>
            && r.value.timestamp == env.parseTime(w[0]).value && r.value.ip == env.parseAddr(w[1]).value
            && r.value.verb == w[2] && r.value.path == w[3] && Atoi(w[4]) == Some(r.value.status)
            && r.value.raw == TrimSpace(line))
  {
    hide Fields, TrimSpace, Atoi, Parse;
    ParseJudgesFields(env, line);
    JudgeInWords(env, Fields(line), TrimSpace(line));
    JudgeIsLegality(env, Fields(line), TrimSpace(line));
  }

  /** Which fault is reported: the first one, in the order of the fields. */
  lemma FirstFault(env: Env, line: string)
    ensures Blank(line) ==> Parse(env, line) == Err(EmptyLine)
    ensures !Blank(line) ==> Parse(env, line) == Judge(env, Fields(line), TrimSpace(line))
  {
    hide Fields, TrimSpace, Judge, Blank;
    FieldsOfTrim(line);
    TrimmedAway(line);
  }

  lemma JudgeInWords(env: Env, w: seq<string>, raw: string)
    ensures
      var r := Judge(env, w, raw);
      if |w| != 5 then r == Err(InvalidFieldCount(|w|))
      else if env.parseTime(w[0]).None? then r == Err(InvalidTimestamp(w[0]))
      else if env.parseAddr(w[1]).None? then r == Err(InvalidIP(w[1]))
      else if w[2] !in ["GET", "POST", "PUT", "PATCH", "DELETE", "HEAD", "OPTIONS"] then r == Err(InvalidMethod(w[2]))
      else if !("/" <= w[3]) then r == Err(InvalidPath(w[3]))
      else if Atoi(w[4]).None? || Atoi(w[4]).value < 100 || Atoi(w[4]).value > 599 then r == Err(InvalidStatus(w[4]))
      else r.Ok?
  {
    hide Atoi;
  }

  /** A line is accepted exactly when it is some spacing of five legal words. */
  lemma AcceptedLines(env: Env, line: string)
    ensures Parse(env, line).Ok? <==>
            exists lead, pieces :: Blank(lead) && Spaced(pieces) && line == lead + Body(pieces)
                                   && Legal(env, Words(pieces))
  {
    ParseJudgesFields(env, line);
    JudgeIsLegality(env, Fields(line), TrimSpace(line));
    if Legal(env, Fields(line)) {
      var lead, pieces := EveryTextIsALayout(line);
      assert Legal(env, Words(pieces));
    }
    if lead, pieces :| Blank(lead) && Spaced(pieces) && line == lead + Body(pieces) && Legal(env, Words(pieces)) {
      FieldsOfLayout(lead, pieces);
    }
  }

  /** Whatever the spacing, the words come back as the fields of the record. */
  lemma ParseLayout(env: Env, lead: string, pieces: seq<Piece>)
    requires Blank(lead) && Spaced(pieces) && Legal(env, Words(pieces))
    ensures
      var w, line := Words(pieces), lead + Body(pieces);
      Parse(env, line) == Ok(Record(env.parseTime(w[0]).value, env.parseAddr(w[1]).value, w[2], w[3],
                                    Atoi(w[4]).value, TrimSpace(line)))
  {
    var line := lead + Body(pieces);
    ParseJudgesFields(env, line);
    FieldsOfLayout(lead, pieces);
    JudgeIsLegality(env, Words(pieces), TrimSpace(line));
  }

  /** Parsing the raw text of a record gives that record again: the worker's parse of what the
      API stored cannot fail and cannot disagree. */
  lemma ParseIsStable(env: Env, line: string)
    ensures Parse(env, TrimSpace(line)) == Parse(env, line)
    ensures Parse(env, line).Ok? ==> Parse(env, Parse(env, line).value.raw) == Parse(env, line)
  {
    TrimTwice(line);
    ParseJudgesFields(env, line);
    JudgeIsLegality(env, Fields(line), TrimSpace(line));
  }

  // ---- Printing a line ----

  /** The five fields joined by single spaces. */
  function Join(a: string, b: string, c: string, d: string, e: string): string {
    a + (" " + (b + (" " + (c + (" " + (d + (" " + e)))))))
  }

  /** Printing five legal fields and parsing the line gives back exactly those fields. */
  lemma PrintThenParse(env: Env, stamp: string, ip: string, verb: string, path: string, status: nat)
    requires Word(stamp) && Word(ip) && Word(path)
    requires env.parseTime(stamp).Some? && env.parseAddr(ip).Some?
    requires IsAllowedMethod(verb) && IsAbsolute(path) && 100 <= status <= 599
    ensures
      var line := Join(stamp, ip, verb, path, PrintNat(status));
      Parse(env, line) == Ok(Record(env.parseTime(stamp).value, env.parseAddr(ip).value, verb, path, status, line))
  {
    var s := PrintNat(status);
    var line := Join(stamp, ip, verb, path, s);
    StatusIsAWord(status);
    MethodIsAWord(verb);
    FivePieces(stamp, ip, verb, path, s);
    var pieces := Pieces(stamp, ip, verb, path, s);
    assert line == "" + Body(pieces);
    ParseLayout(env, "", pieces);
    JoinIsTrimmed(stamp, ip, verb, path, s);
  }

  lemma StatusIsAWord(status: nat)
    requires 100 <= status <= 599
    ensures
      var s := PrintNat(status);
      Word(s) && IsStatusText(s) && Atoi(s) == Some(status)
  {
    PrintThenRead(status);
  }

  lemma MethodIsAWord(verb: string)
    requires IsAllowedMethod(verb)
    ensures Word(verb)
  {
  }

  predicate Trimmed(s: string) {
    s != "" && !IsSpace(s[0]) && !IsSpace(s[|s| - 1])
  }

  lemma JoinTrimmed(w: string, rest: string)
    requires Word(w) && Trimmed(rest)
    ensures Trimmed(w + (" " + rest))
  {
    var s := w + (" " + rest);
    assert s[0] == w[0] && w[0] in w;
    assert s[|s| - 1] == rest[|rest| - 1];
  }

  lemma JoinIsTrimmed(a: string, b: string, c: string, d: string, e: string)
    requires Word(a) && Word(b) && Word(c) && Word(d) && Word(e)
    ensures TrimSpace(Join(a, b, c, d, e)) == Join(a, b, c, d, e)
  {
    assert forall i | 0 <= i < |e| :: e[i] in e;
    JoinTrimmed(d, e);
    JoinTrimmed(c, d + (" " + e));
    JoinTrimmed(b, c + (" " + (d + (" " + e))));
    JoinTrimmed(a, b + (" " + (c + (" " + (d + (" " + e))))));
    TrimKeeps(Join(a, b, c, d, e));
  }

  function Pieces(a: string, b: string, c: string, d: string, e: string): seq<Piece> {
    [Piece(a, " ")] + ([Piece(b, " ")] + ([Piece(c, " ")] + ([Piece(d, " ")] + [Piece(e, "")])))
  }

  lemma Cons(p: Piece, rest: seq<Piece>)
    requires Word(p.word) && Blank(p.gap) && (rest != [] ==> p.gap != "") && Spaced(rest)
    ensures Spaced([p] + rest)
    ensures Words([p] + rest) == [p.word] + Words(rest)
    ensures Body([p] + rest) == p.word + (p.gap + Body(rest))
  {
    assert ([p] + rest)[1..] == rest;
  }

  lemma FivePieces(a: string, b: string, c: string, d: string, e: string)
    requires Word(a) && Word(b) && Word(c) && Word(d) && Word(e)
    ensures Spaced(Pieces(a, b, c, d, e)) && Words(Pieces(a, b, c, d, e)) == [a, b, c, d, e]
    ensures Body(Pieces(a, b, c, d, e)) == Join(a, b, c, d, e)
  {
    var p5 := [Piece(e, "")];
    var p4 := [Piece(d, " ")] + p5;
    var p3 := [Piece(c, " ")] + p4;
    Cons(Piece(e, ""), []);
    assert [Piece(e, "")] + [] == p5 && Body(p5) == e;
    Cons(Piece(d, " "), p5);
    Cons(Piece(c, " "), p4);
    Cons(Piece(b, " "), p3);
    Cons(Piece(a, " "), [Piece(b, " ")] + p3);
  }

  // ---- cmd/log-generator: the printer that matches the parser ----

  const GENERATOR_METHODS := ["GET", "POST", "PUT", "PATCH", "DELETE"]
  const GENERATOR_PATHS := ["/", "/login", "/logout", "/payment", "/checkout", "/search", "/profile", "/api/orders",
      "/api/items"]
  const GENERATOR_STATUSES := [200, 200, 200, 201, 204, 301, 400, 401, 403, 404, 429, 500, 502, 503]

  /** The numbers drawn for one line; `stamp` is the current time in RFC 3339 form. */
  datatype Draw = Draw(stamp: string, a: nat, b: nat, c: nat, verb: nat, path: nat, status: nat)

  predicate InRange(d: Draw) {
    d.a < 32 && d.b < 255 && d.c < 255 && d.verb < |GENERATOR_METHODS|
    && d.path < |GENERATOR_PATHS| && d.status < |GENERATOR_STATUSES|
  }

  function GeneratedIP(d: Draw): string {
    "10." + PrintNat(d.a) + "." + PrintNat(d.b) + "." + PrintNat(d.c)
  }

  function MakeLogLine(d: Draw): string
    requires InRange(d)
  {
    Join(d.stamp, GeneratedIP(d), GENERATOR_METHODS[d.verb], GENERATOR_PATHS[d.path],
         PrintNat(GENERATOR_STATUSES[d.status]))
  }

  /** Every generated line is accepted with exactly the values drawn, provided the time and address
      readers accept what their printers wrote. */
  lemma GeneratedLinesParse(env: Env, d: Draw)
    requires InRange(d)
    requires Word(d.stamp) && env.parseTime(d.stamp).Some? && env.parseAddr(GeneratedIP(d)).Some?
    ensures Parse(env, MakeLogLine(d)) ==
            Ok(Record(env.parseTime(d.stamp).value, env.parseAddr(GeneratedIP(d)).value,
                      GENERATOR_METHODS[d.verb], GENERATOR_PATHS[d.path], GENERATOR_STATUSES[d.status],
                      MakeLogLine(d)))
  {
    DottedIsAWord(d);
    GeneratedMethod(d.verb);
    GeneratedPath(d.path);
    PrintThenParse(env, d.stamp, GeneratedIP(d), GENERATOR_METHODS[d.verb], GENERATOR_PATHS[d.path],
        GENERATOR_STATUSES[d.status]);
  }

  lemma DottedIsAWord(d: Draw)
    ensures Word(GeneratedIP(d))
  {
    forall c | c in GeneratedIP(d) ensures !IsSpace(c) {
      assert c in "10." || c in PrintNat(d.a) || c in "." || c in PrintNat(d.b) || c in PrintNat(d.c);
    }
  }

  lemma GeneratedMethod(i: nat)
    requires i < |GENERATOR_METHODS|
    ensures IsAllowedMethod(GENERATOR_METHODS[i])
  {
  }

  lemma GeneratedPath(i: nat)
    requires i < |GENERATOR_PATHS|
    ensures Word(GENERATOR_PATHS[i]) && IsAbsolute(GENERATOR_PATHS[i])
  {
    var p := GENERATOR_PATHS[i];
    assert forall k | 0 <= k < |p| :: !IsSpace(p[k]);
  }
}
