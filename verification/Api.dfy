/** The log API as a state machine: any number of request handlers, the spool directory they fall back
    to, and the spool replayer, interleaving one external effect at a time, with crashes. */
module Api {
  import opened Text
  import opened Logline
  import opened Codec
  import opened Records
  import SpoolUsage

  /** `maxInFlight`, `maxBatch` and `maxBytes` limit nothing when 0 (or negative). */
  datatype Config = Config(env: Env, maxInFlight: nat, maxBatch: int, maxBytes: int, hasPublisher: bool, hasSpool: bool)

  // ---- internal/ingestion/handler.go, validate ----

  datatype ValidateError =
    | SourceRequired
    | NoRecords
    | BatchTooLarge(size: nat, limit: int)
    | BadRecord(index: nat, error: ParseError)

  /** The events of the records from `i` on, or the first record that does not parse. */
  function ParseFrom(env: Env, source: string, records: seq<string>, i: nat, receivedAt: Time): Result<seq<Event>,
      ValidateError>
    requires i <= |records|
    decreases |records| - i
  {
    if i == |records| then Ok([])
    else
      match Parse(env, records[i])
      case Err(error) => Err(BadRecord(i, error))
      case Ok(r) =>
        match ParseFrom(env, source, records, i + 1, receivedAt)
        case Err(error) => Err(error)
        case Ok(rest) => Ok([MakeEvent(source, r, receivedAt)] + rest)
  }

  function Validated(cfg: Config, source: string, records: seq<string>, receivedAt: Time): Result<seq<Event>,
      ValidateError> {
    var trimmed := TrimSpace(source);
    if trimmed == "" then Err(SourceRequired)
    else if records == [] then Err(NoRecords)
    else if cfg.maxBatch > 0 && |records| > cfg.maxBatch then Err(BatchTooLarge(|records|, cfg.maxBatch))
    else ParseFrom(cfg.env, trimmed, records, 0, receivedAt)
  }

  /** validate: all records or none. */
  method ValidateRequest(cfg: Config, source: string, records: seq<string>, receivedAt: Time)
      returns (r: Result<seq<Event>, ValidateError>)
    ensures r == Validated(cfg, source, records, receivedAt)
    ensures r.Ok? <==> WellFormed(cfg, source, records)
    ensures r.Ok? ==> AllMade(cfg.env, source, records, receivedAt, r.value)
    ensures r.Err? ==> Refused(cfg, source, records, r.error)
  {
    ValidationIsTold(cfg, source, records, receivedAt);
    hide Parse, TrimSpace, WellFormed, AllMade, Refused;
    var trimmed := TrimSpace(source);
    if trimmed == "" {
      return Err(SourceRequired);
    }
    if |records| == 0 {
      return Err(NoRecords);
    }
    if cfg.maxBatch > 0 && |records| > cfg.maxBatch {
      return Err(BatchTooLarge(|records|, cfg.maxBatch));
    }
    var events: seq<Event> := [];
    ghost var whole := ParseFrom(cfg.env, trimmed, records, 0, receivedAt);
    assert whole.Ok? ==> [] + whole.value == whole.value;
    for i := 0 to |records|
      invariant whole == Joined(events, ParseFrom(cfg.env, trimmed, records, i, receivedAt))
    {
      var parsed := Parse(cfg.env, records[i]);
      if parsed.Err? {
        return Err(BadRecord(i, parsed.error));
      }
      var event := MakeEvent(trimmed, parsed.value, receivedAt);
      JoinedTwice(events, event, ParseFrom(cfg.env, trimmed, records, i + 1, receivedAt));
      events := events + [event];
    }
    assert events + [] == events;
    r := Ok(events);
  }

  /** The event of a line, field by field. */
  predicate MadeFrom(env: Env, source: string, line: string, receivedAt: Time, e: Event) {
    && Parse(env, line).Ok?
    && var r := Parse(env, line).value;
       && e.source == TrimSpace(source) && e.raw == TrimSpace(line)
       && e.timestamp == r.timestamp && e.ip == r.ip && e.verb == r.verb && e.path == r.path && e.status == r.status
       && e.receivedAt == receivedAt && e.processedAt.nanos == -62135596800_000000000 && e.workerId == ""
  }

  lemma MadeField(env: Env, source: string, line: string, receivedAt: Time)
    requires Parse(env, line).Ok?
    ensures MadeFrom(env, source, line, receivedAt, MakeEvent(TrimSpace(source), Parse(env, line).value, receivedAt))
  {
    hide Parse, TrimSpace;
    AcceptedExactly(env, line);
  }

  /** The events of the lines, one for one and in order. */
  predicate AllMade(env: Env, source: string, lines: seq<string>, receivedAt: Time, events: seq<Event>) {
    |events| == |lines| && forall k | 0 <= k < |lines| :: MadeFrom(env, source, lines[k], receivedAt, events[k])
  }

  /** A request names a source and has records within the limit, each of them a log line. */
  predicate WellFormed(cfg: Config, source: string, records: seq<string>) {
    && !Blank(source) && records != [] && (cfg.maxBatch > 0 ==> |records| <= cfg.maxBatch)
    && forall k | 0 <= k < |records| :: Parse(cfg.env, records[k]).Ok?
  }

  lemma ValidationIsTold(cfg: Config, source: string, records: seq<string>, receivedAt: Time)
    ensures
      var r := Validated(cfg, source, records, receivedAt);
      && (r.Ok? <==> WellFormed(cfg, source, records))
      && (r.Ok? ==> AllMade(cfg.env, source, records, receivedAt, r.value))
      && (r.Err? ==> Refused(cfg, source, records, r.error))
  {
    hide Parse, Blank, TrimSpace, Validated, MadeFrom, Refused;
    ValidationIsAllOrNothing(cfg, source, records, receivedAt);
    ValidationErrors(cfg, source, records, receivedAt);
  }

  /** Why a request is refused: the first reason that applies, and the first record that is no log line. */
  predicate Refused(cfg: Config, source: string, records: seq<string>, error: ValidateError) {
    match error
    case SourceRequired => Blank(source)
    case NoRecords => !Blank(source) && |records| == 0
    case BatchTooLarge(size, limit) =>
      !Blank(source) && records != [] && size == |records| && limit == cfg.maxBatch && 0 < limit < size
    case BadRecord(i, e) =>
      && !Blank(source) && (cfg.maxBatch > 0 ==> |records| <= cfg.maxBatch) && i < |records|
      && Parse(cfg.env, records[i]) == Err(e) && forall k | 0 <= k < i :: Parse(cfg.env, records[k]).Ok?
  }

  lemma ValidationErrors(cfg: Config, source: string, records: seq<string>, receivedAt: Time)
    ensures
      var r := Validated(cfg, source, records, receivedAt);
      r.Err? ==> Refused(cfg, source, records, r.error)
  {
    TrimmedAway(source);
    hide Parse, TrimSpace, Blank;
    FirstBadRecord(cfg.env, TrimSpace(source), records, 0, receivedAt);
  }

  lemma {:induction false} FirstBadRecord(env: Env, source: string, records: seq<string>, i: nat, receivedAt: Time)
    requires i <= |records|
    ensures
      var r := ParseFrom(env, source, records, i, receivedAt);
      r.Err? ==>
        && r.error.BadRecord? && i <= r.error.index < |records|
        && Parse(env, records[r.error.index]) == Err(r.error.error)
        && forall k | i <= k < r.error.index :: Parse(env, records[k]).Ok?
    decreases |records| - i
  {
    hide Parse;
    if i < |records| && Parse(env, records[i]).Ok? {
      FirstBadRecord(env, source, records, i + 1, receivedAt);
    }
  }

  ghost function Joined(events: seq<Event>, r: Result<seq<Event>, ValidateError>): Result<seq<Event>, ValidateError> {
    if r.Err? then r else Ok(events + r.value)
  }

  lemma JoinedTwice(events: seq<Event>, e: Event, r: Result<seq<Event>, ValidateError>)
    ensures Joined(events, Joined([e], r)) == Joined(events + [e], r)
  {
    if r.Ok? {
      assert events + ([e] + r.value) == events + [e] + r.value;
    }
  }

  lemma {:induction false} ParseFromIsComplete(env: Env, source: string, records: seq<string>, i: nat, receivedAt: Time)
    requires i <= |records|
    ensures
      var r := ParseFrom(env, source, records, i, receivedAt);
      && (r.Ok? <==> forall k | i <= k < |records| :: Parse(env, records[k]).Ok?)
      && (r.Ok? ==> |r.value| == |records| - i &&
                    forall k | i <= k < |records| ::
                      r.value[k - i] == MakeEvent(source, Parse(env, records[k]).value, receivedAt)
                          && FromApi(env, r.value[k - i]))
    decreases |records| - i
  {
    hide Parse, FromApi;
    if i < |records| {
      ParseFromIsComplete(env, source, records, i + 1, receivedAt);
      if Parse(env, records[i]).Ok? {
        MadeFromApi(env, source, records[i], receivedAt);
      }
    }
  }

  /** All-or-nothing: a request is accepted exactly when it names a source, has records within the
      limit, and every record parses; then every record becomes its event, in order. */
  lemma ValidationIsAllOrNothing(cfg: Config, source: string, records: seq<string>, receivedAt: Time)
    ensures
      var r := Validated(cfg, source, records, receivedAt);
      && (r.Ok? <==>
            && !Blank(source) && records != [] && (cfg.maxBatch > 0 ==> |records| <= cfg.maxBatch)
            && forall k | 0 <= k < |records| :: Parse(cfg.env, records[k]).Ok?)
      && (r.Ok? ==> |r.value| == |records| &&
                    forall k | 0 <= k < |records| ::
                      MadeFrom(cfg.env, source, records[k], receivedAt, r.value[k]) && FromApi(cfg.env, r.value[k]))
  {
    hide MadeFrom, Parse, FromApi, TrimSpace, Blank;
    forall k | 0 <= k < |records| && Parse(cfg.env, records[k]).Ok?
      ensures MadeFrom(cfg.env, source, records[k], receivedAt,
                       MakeEvent(TrimSpace(source), Parse(cfg.env, records[k]).value, receivedAt))
    {
      MadeField(cfg.env, source, records[k], receivedAt);
    }
    ParseFromIsComplete(cfg.env, TrimSpace(source), records, 0, receivedAt);
    TrimmedAway(source);
  }

  // ---- Spool files ----

  /** A file of the spool directory by its index, which stands for its fresh name: a temporary file
      with the records written so far, a finished `.jsonl` file, or none. */
  datatype Slot = Tmp(recs: seq<Rec>) | Final(recs: seq<Rec>) | Gone

  function EventsOf(recs: seq<Rec>): (r: seq<Event>)
    ensures |r| == |recs| && forall i | 0 <= i < |recs| :: r[i] == recs[i].event
  {
    seq(|recs|, i requires 0 <= i < |recs| => recs[i].event)
  }

  function Tagged(recs: seq<Rec>, events: seq<Event>): seq<Rec>
    requires |recs| == |events|
  {
    seq(|recs|, i requires 0 <= i < |recs| => Rec(recs[i].id, events[i]))
  }

  predicate Encodable(env: Env, recs: seq<Rec>) {
    Lines(env, EventsOf(recs)).Some?
  }

  /** The size of the file that holds these records. */
  function PayloadBytes(env: Env, recs: seq<Rec>): nat {
    match Lines(env, EventsOf(recs))
    case None => 0
    case Some(text) => ByteLen(text)
  }

  /** What reading a finished file gives: the text is split and decoded again. */
  function ReadSlot(env: Env, recs: seq<Rec>): Option<seq<Rec>> {
    match Lines(env, EventsOf(recs))
    case None => None
    case Some(text) =>
      match ReadAll(env, text, false)
      case Err(_) => None
      case Ok(events) => if |events| == |recs| then Some(Tagged(recs, events)) else None
  }

  /** A spool file reads as exactly the records written, or not at all. */
  lemma ReadSlotExactly(env: Env, recs: seq<Rec>)
    requires Lawful(env)
    ensures ReadSlot(env, recs) == if Encodable(env, recs) && AllFit(env, EventsOf(recs)) then Some(recs) else None
  {
    if Encodable(env, recs) {
      JsonLinesRoundTrip(env, EventsOf(recs), false);
      assert Tagged(recs, EventsOf(recs)) == recs;
    }
  }

  // ---- State ----

  /** Where a request is. `sent` are the positions of its records that are in Kafka, `listed` is the
      directory as it was when its walk began. */
  datatype Phase =
    | Arrived
    | Inside
    | Publishing(recs: seq<Rec>, sent: set<nat>)
    | Fallback(recs: seq<Rec>)
    | Walking(recs: seq<Rec>, listed: seq<Slot>)
    | Unspooled(count: nat)
    | Admitted(recs: seq<Rec>)
    | Writing(recs: seq<Rec>, slot: nat, written: nat)
    | Spoiled(count: nat)
    | Stored(recs: seq<Rec>, spooled: bool)
    | Leaving
    | Left

  datatype Replay =
    | Idle
    | Pass(todo: seq<nat>)
    | Sending(slot: nat, recs: seq<Rec>, sent: set<nat>, todo: seq<nat>)
    | Clearing(slot: nat, recs: seq<Rec>, todo: seq<nat>)

  /** internal/metrics/counters.go, and two counts it does not keep: batches accepted into the spool
      and rejections for want of a spool. */
  datatype Tally = Tally(
    requests: int, acceptedRecords: int, rejectedRequests: int, rejectedRecords: int, kafkaErrors: int,
        spooledRecords: int,
    spoolErrors: int, replayedRecords: int, batches: int, spoolBatches: int, unspooled: int)

  const ZERO := Tally(0, 0, 0, 0, 0, 0, 0, 0, 0, 0, 0)

  /** `origin` is the batch each file was opened for, `accepted` every record of a request answered
      with 202, `issued` the identities handed out. */
  datatype State = State(
    hs: seq<Phase>, tokens: nat, files: seq<Slot>, origin: seq<seq<Rec>>, replay: Replay, tally: Tally,
    accepted: set<Rec>, issued: set<nat>)

  datatype Action =
    | Arrive
    | Acquire(h: nat)
    | Refuse(h: nat, count: nat)
    | Judge(h: nat, source: string, records: seq<string>, receivedAt: Time, ids: seq<nat>)
    | Deliver(h: nat, i: nat, part: nat)
    | Published(h: nat)
    | PublishFailed(h: nat)
    | ListDir(h: nat, live: bool, io: bool)
    | Admit(h: nat, walk: seq<SpoolUsage.Sight>)
    | OpenTmp(h: nat)
    | AppendTmp(h: nat)
    | WriteFailed(h: nat)
    | Rename(h: nat)
    | Answer(h: nat)
    | Reject(h: nat)
    | Release(h: nat)
    | Glob(todo: seq<nat>)
    | ReadNext(ok: bool, removed: bool)
    | Redeliver(i: nat, part: nat)
    | Republished
    | RepublishFailed
    | Remove(io: bool)
    | Crash

  /** Bytes in finished files; the directory walk skips temporary ones. */
  function UsedBytes(env: Env, files: seq<Slot>): nat {
    if files == [] then 0
    else
      var n := |files| - 1;
      UsedBytes(env, files[..n]) + (if files[n].Final? then PayloadBytes(env, files[n].recs) else 0)
  }

  /** The records of a request that was validated: its events under fresh identities. */
  function Label(ids: seq<nat>, events: seq<Event>): seq<Rec>
    requires |ids| == |events|
  {
    seq(|ids|, i requires 0 <= i < |ids| => Rec(ids[i], events[i]))
  }

  predicate FreshIds(s: State, ids: seq<nat>) {
    (forall i | 0 <= i < |ids| :: ids[i] !in s.issued) && (forall i, j | 0 <= i < j < |ids| :: ids[i] != ids[j])
  }

  /** Kafka takes one message of a batch that could be encoded as a whole. */
  function Append(env: Env, logs: Logs, part: nat, r: Rec): Logs
    requires part < |logs| && Encode(env, r.event).Some?
  {
    logs[part := logs[part] + [Entry(r.id, Encode(env, r.event).value)]]
  }

  predicate Deliverable(env: Env, logs: Logs, recs: seq<Rec>, i: nat, part: nat) {
    i < |recs| && part < |logs| && Encodable(env, recs) && Encode(env, recs[i].event).Some?
  }

  /** The batch does not fit beside the files. */
  predicate Overfull(cfg: Config, files: seq<Slot>, recs: seq<Rec>) {
    SpoolUsage.Full(UsedBytes(cfg.env, files), PayloadBytes(cfg.env, recs), cfg.maxBytes)
  }

  /** What a walk that began with the listing can meet: temporary files are passed over by name, and a
      file may have been removed before it was looked at, or not be readable. */
  predicate CanSee(env: Env, listed: seq<Slot>, now: seq<Slot>, walk: seq<SpoolUsage.Sight>) {
    if listed == [] then walk == []
    else
      var n := |listed| - 1;
      if listed[n].Gone? then CanSee(env, listed[..n], now, walk)
      else
        && walk != [] && CanSee(env, listed[..n], now, walk[..|walk| - 1])
        && match listed[n]
           case Tmp(_) => walk[|walk| - 1] == SpoolUsage.Seen(SpoolUsage.Temporary)
           case Final(recs) =>
             || walk[|walk| - 1] == SpoolUsage.Seen(SpoolUsage.Regular(PayloadBytes(env, recs)))
             || walk[|walk| - 1].Broken?
             || (walk[|walk| - 1].Vanished? && n < |now| && now[n].Gone?)
           case Gone => true
  }

  /** What the walk sees when nothing goes wrong. */
  function Sights(env: Env, files: seq<Slot>): seq<SpoolUsage.Sight> {
    if files == [] then []
    else
      var n := |files| - 1;
      Sights(env, files[..n]) +
      match files[n]
      case Tmp(_) => [SpoolUsage.Seen(SpoolUsage.Temporary)]
      case Final(recs) => [SpoolUsage.Seen(SpoolUsage.Regular(PayloadBytes(env, recs)))]
      case Gone => []
  }

  lemma {:induction false} SightsCanBeSeen(env: Env, files: seq<Slot>, now: seq<Slot>)
    ensures CanSee(env, files, now, Sights(env, files))
  {
    hide PayloadBytes;
    if files != [] {
      var n, walk := |files| - 1, Sights(env, files);
      SightsCanBeSeen(env, files[..n], now);
      if files[n].Gone? {
        assert walk == Sights(env, files[..n]);
      } else {
        assert walk[..|walk| - 1] == Sights(env, files[..n]);
      }
    }
  }

  /** A walk counts the bytes of the listing, fails, or is emptied by a file that vanished. */
  lemma {:induction false} WalkCounts(env: Env, listed: seq<Slot>, now: seq<Slot>, walk: seq<SpoolUsage.Sight>)
    requires CanSee(env, listed, now, walk)
    ensures SpoolUsage.Look(walk).Counted? ==> SpoolUsage.Look(walk).usage.bytes == UsedBytes(env, listed)
    ensures SpoolUsage.Look(walk).Hollow? ==> exists i | 0 <= i < |walk| :: walk[i].Vanished?
  {
    hide PayloadBytes;
    if listed != [] {
      var n := |listed| - 1;
      if listed[n].Gone? {
        WalkCounts(env, listed[..n], now, walk);
      } else {
        WalkCounts(env, listed[..n], now, walk[..|walk| - 1]);
      }
    }
  }

  lemma SightsAreWhole(env: Env, files: seq<Slot>)
    ensures SpoolUsage.Look(Sights(env, files)).Counted?
        && SpoolUsage.Look(Sights(env, files)).usage.bytes == UsedBytes(env, files)
  {
    hide PayloadBytes;
    SightsCanBeSeen(env, files, files);
    WalkCounts(env, files, files, Sights(env, files));
    AllSeen(env, files);
    SpoolUsage.LookCounts(Sights(env, files));
  }

  lemma {:induction false} AllSeen(env: Env, files: seq<Slot>)
    ensures forall i | 0 <= i < |Sights(env, files)| :: Sights(env, files)[i].Seen?
  {
    hide PayloadBytes;
    if files != [] {
      AllSeen(env, files[..|files| - 1]);
    }
  }

  predicate AllSent(recs: seq<Rec>, sent: set<nat>) {
    forall i | 0 <= i < |recs| :: i in sent
  }

  function At(s: State, h: nat): Phase {
    if h < |s.hs| then s.hs[h] else Left
  }

  predicate Enabled(cfg: Config, s: State, logs: Logs, a: Action) {
    match a
    case Arrive => true
    case Acquire(h) => At(s, h).Arrived?
    case Refuse(h, _) => At(s, h).Inside?
    case Judge(h, source, records, receivedAt, ids) =>
      && At(s, h).Inside? && FreshIds(s, ids)
      && var events := Validated(cfg, source, records, receivedAt);
         events.Ok? ==> |ids| == |events.value|
    case Deliver(h, i, part) => At(s, h).Publishing? && Deliverable(cfg.env, logs, s.hs[h].recs, i, part)
    case Published(h) => At(s, h).Publishing? && AllSent(s.hs[h].recs, s.hs[h].sent)
    case PublishFailed(h) => At(s, h).Publishing?
    case ListDir(h, _, _) => At(s, h).Fallback?
    case Admit(h, walk) => At(s, h).Walking? && CanSee(cfg.env, s.hs[h].listed, s.files, walk)
    case OpenTmp(h) => At(s, h).Admitted?
    case AppendTmp(h) => At(s, h).Writing? && s.hs[h].written < |s.hs[h].recs| && s.hs[h].slot < |s.files|
    case WriteFailed(h) => At(s, h).Admitted? || At(s, h).Writing?
    case Rename(h) => At(s, h).Writing? && s.hs[h].written == |s.hs[h].recs| && s.hs[h].slot < |s.files|
    case Answer(h) => At(s, h).Stored?
    case Reject(h) => At(s, h).Spoiled? || At(s, h).Unspooled?
    case Release(h) => At(s, h).Leaving? && (cfg.maxInFlight > 0 ==> s.tokens > 0)
    case Glob(_) => s.replay.Idle? || s.replay == Pass([])
    case ReadNext(_, _) => s.replay.Pass? && s.replay.todo != []
    case Redeliver(i, part) => s.replay.Sending? && Deliverable(cfg.env, logs, s.replay.recs, i, part)
    case Republished => s.replay.Sending? && AllSent(s.replay.recs, s.replay.sent)
    case RepublishFailed => s.replay.Sending?
    case Remove(_) => s.replay.Clearing? && s.replay.slot < |s.files|
    case Crash => true
  }

  function Move(s: State, h: nat, p: Phase): State
    requires h < |s.hs|
  {
    s.(hs := s.hs[h := p])
  }

  /** acquire: a full semaphore rejects the request at once. */
  function ApplyAcquire(cfg: Config, s: State, h: nat): State
    requires h < |s.hs|
  {
    if cfg.maxInFlight == 0 then Move(s, h, Inside)
    else if s.tokens < cfg.maxInFlight then Move(s, h, Inside).(tokens := s.tokens + 1)
    else Move(s, h, Left).(tally := s.tally.(rejectedRequests := s.tally.rejectedRequests + 1))
  }

  function ApplyRefuse(s: State, h: nat, records: nat): State
    requires h < |s.hs|
  {
    Move(s, h, Leaving).(tally := s.tally.(rejectedRequests := s.tally.rejectedRequests + 1,
                                           rejectedRecords := s.tally.rejectedRecords + records))
  }

  function ApplyJudge(cfg: Config, s: State, h: nat, source: string, records: seq<string>, receivedAt: Time,
      ids: seq<nat>): State
    requires h < |s.hs|
    requires var events := Validated(cfg, source, records, receivedAt); events.Ok? ==> |ids| == |events.value|
  {
    match Validated(cfg, source, records, receivedAt)
    case Err(_) => ApplyRefuse(s, h, |records|)
    case Ok(events) =>
      if !cfg.hasPublisher then ApplyRefuse(s, h, |events|)
      else Move(s, h, Publishing(Label(ids, events), {})).(issued := s.issued + (set i | 0 <= i < |ids| :: ids[i]))
  }

  /** Writer.Write up to its walk: the request's context is still alive, the directory can be made and
      opened, and the batch can be encoded. */
  function ApplyList(cfg: Config, s: State, h: nat, live: bool, io: bool): State
    requires h < |s.hs| && s.hs[h].Fallback?
  {
    var recs := s.hs[h].recs;
    if live && io && Encodable(cfg.env, recs) then Move(s, h, Walking(recs, s.files)) else Spoil(s, h, |recs|)
  }

  function Spoil(s: State, h: nat, count: nat): State
    requires h < |s.hs|
  {
    Move(s, h, Spoiled(count)).(tally := s.tally.(spoolErrors := s.tally.spoolErrors + 1))
  }

  /** The capacity test, on what the walk saw. */
  function ApplyAdmit(cfg: Config, s: State, h: nat, walk: seq<SpoolUsage.Sight>): State
    requires h < |s.hs| && s.hs[h].Walking?
  {
    var recs := s.hs[h].recs;
    if SpoolUsage.Refuses(walk, PayloadBytes(cfg.env, recs), cfg.maxBytes) == Some(false)
        then Move(s, h, Admitted(recs))
    else Spoil(s, h, |recs|)
  }

  function ApplyAnswer(s: State, h: nat): State
    requires h < |s.hs| && s.hs[h].Stored?
  {
    var recs, t := s.hs[h].recs, s.tally;
    var n, k := |recs|, if s.hs[h].spooled then 1 else 0;
    Move(s, h, Leaving).(
      accepted := s.accepted + (set r | r in recs),
      tally := t.(acceptedRecords := t.acceptedRecords + n, batches := t.batches + 1,
                  spooledRecords := t.spooledRecords + k * n, spoolBatches := t.spoolBatches + k))
  }

  /** A file that cannot be read stays; an empty one is removed, if that works. */
  function ApplyRead(cfg: Config, s: State, ok: bool, removed: bool): State
    requires s.replay.Pass? && s.replay.todo != []
  {
    var k, rest := s.replay.todo[0], s.replay.todo[1..];
    if !ok || k >= |s.files| || !s.files[k].Final? then s.(replay := Pass(rest))
    else
      match ReadSlot(cfg.env, s.files[k].recs)
      case None => s.(replay := Pass(rest))
      case Some(recs) =>
        if recs == [] then s.(replay := Pass(rest), files := if removed then s.files[k := Gone] else s.files)
        else s.(replay := Sending(k, recs, {}, rest))
  }

  function Apply(cfg: Config, s: State, logs: Logs, a: Action): (State, Logs)
    requires Enabled(cfg, s, logs, a)
  {
    var t := s.tally;
    match a
    case Arrive => (s.(hs := s.hs + [Arrived], tally := t.(requests := t.requests + 1)), logs)
    case Acquire(h) => (ApplyAcquire(cfg, s, h), logs)
    case Refuse(h, records) => (ApplyRefuse(s, h, records), logs)
    case Judge(h, source, records, receivedAt, ids) => (ApplyJudge(cfg, s, h, source, records, receivedAt, ids), logs)
    case Deliver(h, i, part) =>
      var p := s.hs[h];
      (Move(s, h, p.(sent := p.sent + {i})), Append(cfg.env, logs, part, p.recs[i]))
    case Published(h) => (Move(s, h, Stored(s.hs[h].recs, false)), logs)
    case PublishFailed(h) =>
      var recs := s.hs[h].recs;
      var next := if cfg.hasSpool then Fallback(recs) else Unspooled(|recs|);
      (Move(s, h, next).(tally := t.(kafkaErrors := t.kafkaErrors + 1)), logs)
    case ListDir(h, live, io) => (ApplyList(cfg, s, h, live, io), logs)
    case Admit(h, walk) => (ApplyAdmit(cfg, s, h, walk), logs)
    case OpenTmp(h) =>
      (Move(s, h, Writing(s.hs[h].recs, |s.files|, 0)).(files := s.files + [Tmp([])],
          origin := s.origin + [s.hs[h].recs]), logs)
    case AppendTmp(h) =>
      var p := s.hs[h];
      (Move(s, h, p.(written := p.written + 1)).(files := s.files[p.slot := Tmp(p.recs[..p.written + 1])]), logs)
    case WriteFailed(h) => (Spoil(s, h, |s.hs[h].recs|), logs)
    case Rename(h) =>
      var p := s.hs[h];
      var renamed := match s.files[p.slot] case Tmp(recs) => Final(recs) case other => other;
      (Move(s, h, Stored(p.recs, true)).(files := s.files[p.slot := renamed]), logs)
    case Answer(h) => (ApplyAnswer(s, h), logs)
    case Reject(h) =>
      (Move(s, h, Leaving).(tally := t.(rejectedRequests := t.rejectedRequests + 1,
                                        rejectedRecords := t.rejectedRecords + s.hs[h].count,
                                        unspooled := t.unspooled + (if s.hs[h].Unspooled? then 1 else 0))), logs)
    case Release(h) => (Move(s, h, Left).(tokens := if cfg.maxInFlight > 0 then s.tokens - 1 else s.tokens), logs)
    case Glob(todo) => (s.(replay := Pass(todo)), logs)
    case ReadNext(ok, removed) => (ApplyRead(cfg, s, ok, removed), logs)
    case Redeliver(i, part) =>
      (s.(replay := s.replay.(sent := s.replay.sent + {i})), Append(cfg.env, logs, part, s.replay.recs[i]))
    case Republished => (s.(replay := Clearing(s.replay.slot, s.replay.recs, s.replay.todo)), logs)
    case RepublishFailed => (s.(replay := Idle), logs)
    case Remove(io) =>
      if io then
        (s.(files := s.files[s.replay.slot := Gone], replay := Pass(s.replay.todo),
            tally := t.(replayedRecords := t.replayedRecords + |s.replay.recs|)), logs)
      else (s.(replay := Idle), logs)
    case Crash => (s.(hs := [], tokens := 0, replay := Idle, tally := ZERO), logs)
  }

  function Step(cfg: Config, s: State, logs: Logs, a: Action): (State, Logs) {
    if Enabled(cfg, s, logs, a) then Apply(cfg, s, logs, a) else (s, logs)
  }

  predicate Init(s: State) {
    s == State([], 0, [], [], Idle, ZERO, {}, {})
  }
}
