/** The body of a bulk request: a line that names the index of the event's day, then the event, for
    each event; and how the receiver pairs the lines again. */
module BulkBody {
  import opened Text
  import opened Logline
  import opened Codec

  datatype Document = Document(index: string, event: Event)

  /** The index of an event's day, or of today for an event without a time. `day` prints the UTC day. */
  function IndexOf(day: int -> string, today: Time, e: Event): string {
    "logs-" + day(if e.timestamp.nanos == ZERO_TIME.nanos then today.nanos else e.timestamp.nanos)
  }

  lemma IndexName(day: int -> string, today: Time)
    ensures forall e: Event :: IndexOf(day, today, e) ==
                "logs-" + day(if e.timestamp.nanos == -62135596800_000000000 then today.nanos else e.timestamp.nanos)
  {
  }

  const ACTION := "{\"index\":{\"_index\":\""

  function ActionLine(index: string): string {
    ACTION + (Escape(index) + ("\"" + "}}"))
  }

  lemma ActionText(index: string)
    ensures ActionLine(index) == "{\"index\":{\"_index\":\"" + Escape(index) + "\"}}"
  {
    hide Escape;
  }

  function ReadAction(line: string): Option<string> {
    if !(ACTION <= line) then None
    else
      match ReadString(line[|ACTION|..])
      case None => None
      case Some((index, rest)) => if rest == "}}" then Some(index) else None
  }

  lemma ActionRoundTrip(index: string)
    ensures ReadAction(ActionLine(index)) == Some(index)
  {
    hide Escape, ReadString;
    ReadEscaped(index, "}}");
    assert ActionLine(index)[|ACTION|..] == Escape(index) + ("\"" + "}}");
  }

  lemma ActionIsPrintable(index: string)
    ensures Printable(ActionLine(index))
  {
    hide Escape;
    EscapedIsPrintable(index);
    assert Printable(ACTION) && Printable("\"}}");
    assert ActionLine(index) == ACTION + Escape(index) + "\"}}";
  }

  function Body(env: Env, day: int -> string, today: Time, events: seq<Event>): Option<string> {
    if events == [] then Some("")
    else
      match Encode(env, events[0])
      case None => None
      case Some(line) =>
        Continue(ActionLine(IndexOf(day, today, events[0])) + "\n" + (line + "\n"), Body(env, day, today, events[1..]))
  }

  /** bulkBody. */
  method Build(env: Env, day: int -> string, today: Time, events: seq<Event>) returns (body: Option<string>)
    ensures body == Body(env, day, today, events)
  {
    hide Encode, IndexOf, ActionLine;
    var text := "";
    ContinueNothing(Body(env, day, today, events));
    assert events[0..] == events;
    for i := 0 to |events|
      invariant Body(env, day, today, events) == Continue(text, Body(env, day, today, events[i..]))
    {
      assert events[i..][0] == events[i] && events[i..][1..] == events[i + 1..];
      var line := Encode(env, events[i]);
      if line.None? {
        return None;
      }
      var action := ActionLine(IndexOf(day, today, events[i]));
      ContinueTwice(text, action + "\n" + (line.value + "\n"), Body(env, day, today, events[i + 1..]));
      text := text + (action + "\n" + (line.value + "\n"));
    }
    body := Some(text);
    assert text + "" == text;
  }

  lemma ContinueNothing(rest: Option<string>)
    ensures Continue("", rest) == rest
  {
    if rest.Some? {
      assert "" + rest.value == rest.value;
    }
  }

  /** The receiver takes the lines two by two: an action, then its document. */
  function Receive(env: Env, body: string): Option<seq<Document>>
    decreases |body|
  {
    if body == "" then Some([])
    else
      var rest := AfterLine(body);
      if rest == "" then None
      else
        match (ReadAction(body[..LineLen(body)]), Decode(env, rest[..LineLen(rest)]), Receive(env, AfterLine(rest)))
        case (Some(index), Ok(event), Some(more)) => Some([Document(index, event)] + more)
        case _ => None
  }

  /** The documents received are the events sent, one for one and in order, each under the index of its
      day: no event's text can end its line early or pass for an action. */
  lemma {:induction false} BodyRoundTrip(env: Env, day: int -> string, today: Time, events: seq<Event>)
    requires Lawful(env) && Body(env, day, today, events).Some?
    ensures
      var docs := Receive(env, Body(env, day, today, events).value);
      docs.Some? && |docs.value| == |events| &&
      forall i | 0 <= i < |events| ::
        && docs.value[i] == Document(IndexOf(day, today, events[i]), events[i])
        && docs.value[i].index == "logs-" + day(if events[i].timestamp.nanos == -62135596800_000000000 then today.nanos
                                                else events[i].timestamp.nanos)
  {
    IndexName(day, today);
    hide Encode, Decode, IndexOf, ActionLine, ReadAction, LineLen, AfterLine, Printable, Lawful;
    if events != [] {
      var action, line := ActionLine(IndexOf(day, today, events[0])), Encode(env, events[0]).value;
      var tail := Body(env, day, today, events[1..]).value;
      BodyRoundTrip(env, day, today, events[1..]);
      ActionRoundTrip(IndexOf(day, today, events[0]));
      ActionIsPrintable(IndexOf(day, today, events[0]));
      EventRoundTrip(env, events[0]);
      var body := Body(env, day, today, events).value;
      assert body == action + ("\n" + (line + ("\n" + tail)));
      LineIs(action, line + ("\n" + tail));
      LineIs(line, tail);
    }
  }

  lemma LineIs(line: string, rest: string)
    requires Printable(line)
    ensures
      var content := line + ("\n" + rest);
      content[..LineLen(content)] == line && AfterLine(content) == rest
  {
    var content := line + ("\n" + rest);
    assert forall i | 0 <= i < |line| :: line[i] in line && content[i] == line[i];
    LineLenIs(content, |line|);
    assert content[|line| + 1..] == rest;
  }
}
