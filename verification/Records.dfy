/** What travels through the pipeline: log events tagged with the identity of the record they came
    from, and the messages of `logs.raw` that carry them. The identity is bookkeeping of the model:
    two records with equal text are still two records. */
module Records {
  import opened Text
  import opened Logline
  import opened Codec
  import opened Json

  datatype Rec = Rec(id: nat, event: Event)

  /** A message of `logs.raw`: the JSON text, and the record it was made from. */
  datatype Entry = Entry(id: nat, value: string)

  /** The partitions of `logs.raw`, each in offset order. */
  type Logs = seq<seq<Entry>>

  /** The topic only grows. */
  predicate Extends(logs: Logs, more: Logs) {
    |logs| == |more| && forall p | 0 <= p < |logs| :: logs[p] <= more[p]
  }

  lemma ExtendsFurther(a: Logs, b: Logs, c: Logs)
    requires Extends(a, b) && Extends(b, c)
    ensures Extends(a, c)
  {
  }

  datatype MessageError = InvalidJson | InvalidLine(error: ParseError)

  /** internal/worker/service.go, decode: unmarshal, parse the raw line again, and take the parsed
      fields, whatever the message said. */
  function DecodeMessage(env: Env, value: string, now: Time, workerId: string): Result<Event, MessageError> {
    match Decode(env, value)
    case Err(_) => Err(InvalidJson)
    case Ok(e) =>
      match Parse(env, e.raw)
      case Err(error) => Err(InvalidLine(error))
      case Ok(r) => Ok(e.(timestamp := r.timestamp, ip := r.ip, verb := r.verb, path := r.path, status := r.status,
                          processedAt := now, workerId := workerId))
  }

  /** What the worker makes of a message: source, raw text and time of receipt are the message's, the
      parsed fields those of the raw text, and the last two the worker's own. */
  lemma DecodedFields(env: Env, value: string, now: Time, workerId: string)
    ensures
      var m, r := Decode(env, value), DecodeMessage(env, value, now, workerId);
      && (m.Err? ==> r == Err(InvalidJson))
      && (m.Ok? && Parse(env, m.value.raw).Err? ==> r == Err(InvalidLine(Parse(env, m.value.raw).error)))
      && (m.Ok? && Parse(env, m.value.raw).Ok? ==>
            var line := Parse(env, m.value.raw).value;
            && r.Ok? && r.value.source == m.value.source && r.value.raw == m.value.raw
            && r.value.receivedAt == m.value.receivedAt && r.value.timestamp == line.timestamp && r.value.ip == line.ip
            && r.value.verb == line.verb && r.value.path == line.path && r.value.status == line.status
            && r.value.processedAt == now && r.value.workerId == workerId)
  {
    hide Decode, Parse;
  }

  /** A payload goes into a dead letter as a raw JSON field, which is left out when it is empty. So the
      dead letter can be marshalled exactly when the payload is empty or JSON itself. */
  predicate FitsDeadLetter(payload: string) {
    payload == "" || IsJson(payload)
  }

  /** A payload that is not JSON does not decode; neither does the empty one. */
  lemma MalformedIsPoison(env: Env, m: Entry)
    ensures m.value == "" || !FitsDeadLetter(m.value) ==> RecordOf(env, m).None?
  {
    hide IsJson, Parse;
    if Decode(env, m.value).Ok? {
      DecodedIsJson(env, m.value);
    }
  }

  /** The record a message decodes to, without the two fields the worker stamps on it. */
  function RecordOf(env: Env, m: Entry): Option<Rec> {
    match DecodeMessage(env, m.value, ZERO_TIME, "")
    case Err(_) => None
    case Ok(e) => Some(Rec(m.id, e))
  }

  /** The messages of a record: its JSON text under its identity. */
  predicate Carries(env: Env, m: Entry, r: Rec) {
    m.id == r.id && Encode(env, r.event) == Some(m.value)
  }

  /** internal/ingestion/handler.go, validate: the event made from one parsed record. */
  function MakeEvent(source: string, r: Record, receivedAt: Time): Event {
    Event(source, r.raw, r.timestamp, r.ip, r.verb, r.path, r.status, receivedAt, ZERO_TIME, "")
  }

  /** An event as the API builds it. */
  predicate FromApi(env: Env, e: Event) {
    Parse(env, e.raw).Ok? && e == MakeEvent(e.source, Parse(env, e.raw).value, e.receivedAt)
  }

  lemma MadeFromApi(env: Env, source: string, line: string, receivedAt: Time)
    requires Parse(env, line).Ok?
    ensures FromApi(env, MakeEvent(source, Parse(env, line).value, receivedAt))
  {
    ParseIsStable(env, line);
  }

  /** A record accepted by the API is never poison: whatever carried it, the worker decodes it to the
      event the API made, stamped with the worker's own two fields. */
  lemma NeverPoison(env: Env, e: Event, now: Time, workerId: string)
    requires Lawful(env) && FromApi(env, e) && Encode(env, e).Some?
    ensures DecodeMessage(env, Encode(env, e).value, now, workerId) == Ok(e.(processedAt := now, workerId := workerId))
  {
    EventRoundTrip(env, e);
  }

  lemma CarriedIsDecoded(env: Env, m: Entry, r: Rec)
    requires Lawful(env) && FromApi(env, r.event) && Carries(env, m, r)
    ensures RecordOf(env, m) == Some(r)
  {
    NeverPoison(env, r.event, ZERO_TIME, "");
  }

  /** The same through a spool file, written and read back before it is published. */
  lemma NeverPoisonAfterSpooling(env: Env, events: seq<Event>, i: nat, now: Time, workerId: string)
    requires Lawful(env) && i < |events| && Lines(env, events).Some? && FromApi(env, events[i])
    requires ReadAll(env, Lines(env, events).value, false).Ok?
    ensures
      var back := ReadAll(env, Lines(env, events).value, false).value;
      && |back| == |events| && Encode(env, back[i]).Some?
      && DecodeMessage(env, Encode(env, back[i]).value, now, workerId) ==
          Ok(events[i].(processedAt := now, workerId := workerId))
  {
    JsonLinesRoundTrip(env, events, false);
    assert events[i] in events;
    NeverPoison(env, events[i], now, workerId);
  }
}
