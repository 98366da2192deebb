/** The log API as it is written: the handler, the spool writer and the spool replayer updating their
    counters, semaphore and files in place. Every effect is recorded as an action of the API's state
    machine, so whatever holds of all runs of the machine holds here. */
module Frontend {
  import opened Text
  import opened Logline
  import opened Codec
  import opened Records
  import opened Api
  import opened Steps
  import opened Promises
  import opened Metrics
  import SpoolUsage
  import Intake
  import Durability

  // ---- What the outside world does during one request ----

  /** What the handler reads: another method, no JSON, a body over the limit, a request with more after
      it, or a request. */
  datatype Body = NotPost | Malformed | TooLarge | Trailing(count: nat) | Posted(source: string, records: seq<string>)

  /** How writing the temporary file and renaming it ends. */
  datatype FileOutcome = NotOpened | Stopped(written: nat) | NotRenamed | Renamed

  /** `deliveries` are the records Kafka stores, by position and partition; `published` is its reply.
      `live` is whether the request's context is alive at the fallback, `walked` whether the spool
      directory can be made and walked. */
  datatype Outside = Outside(receivedAt: Time, deliveries: seq<(nat, nat)>, published: bool, live: bool,
      walked: bool, file: FileOutcome)

  datatype Answer = Accepted(count: nat, spooled: bool) | Refused(status: nat, retryAfter: bool)

  datatype WriteError = Dead | NoDirectory | Unencodable | Full | FileFailed

  /** Publish succeeds only when the batch could be encoded and each record was stored. */
  predicate Acknowledged(env: Env, recs: seq<Rec>, partitions: nat, deliveries: seq<(nat, nat)>, published: bool) {
    published && Encodable(env, recs) && forall i | 0 <= i < |recs| :: DeliveredTo(deliveries, partitions, i)
  }

  predicate DeliveredTo(deliveries: seq<(nat, nat)>, partitions: nat, i: nat) {
    exists k | 0 <= k < |deliveries| :: deliveries[k].0 == i && deliveries[k].1 < partitions
  }

  predicate Saturated(cfg: Config, tokens: nat) {
    cfg.maxInFlight > 0 && tokens >= cfg.maxInFlight
  }

  /** Writer.Write comes as far as its file: the request's context is alive, the directory can be made
      and walked, the batch can be encoded, and it fits. */
  predicate MayWrite(cfg: Config, files: seq<Slot>, recs: seq<Rec>, live: bool, walked: bool) {
    live && walked && Encodable(cfg.env, recs) && !Overfull(cfg, files, recs)
  }

  /** The mode agrees with admission. When it is exhausted, no batch that holds anything fits; when it is
      not, there is room, and a batch is turned away exactly when it is larger than that. */
  lemma ModeAgreesWithAdmission(cfg: Config, files: seq<Slot>, recs: seq<Rec>)
    requires Encodable(cfg.env, recs) && recs != []
    ensures
      var used := UsedBytes(cfg.env, files);
      && (SpoolUsage.ModeOf(used, cfg.maxBytes) == SpoolUsage.Exhausted ==> Overfull(cfg, files, recs))
      && (SpoolUsage.ModeOf(used, cfg.maxBytes) != SpoolUsage.Exhausted && cfg.maxBytes > 0 ==>
            used < cfg.maxBytes && (Overfull(cfg, files, recs) <==> PayloadBytes(cfg.env, recs) > cfg.maxBytes - used))
  {
    PayloadIsPositive(cfg.env, recs);
    if cfg.maxBytes > 0 {
      SpoolUsage.ModeExactly(UsedBytes(cfg.env, files), cfg.maxBytes);
    }
  }

  lemma PayloadIsPositive(env: Env, recs: seq<Rec>)
    requires Encodable(env, recs) && recs != []
    ensures PayloadBytes(env, recs) > 0
  {
    hide Encode;
    var text := Lines(env, EventsOf(recs)).value;
    assert text != "";
  }

  /** The counters show the machine's tally. */
  predicate Shows(v: Totals, t: Tally) {
    && v.requests == t.requests && v.accepted == t.acceptedRecords && v.rejectedRequests == t.rejectedRequests
    && v.rejectedRecords == t.rejectedRecords && v.kafkaErrors == t.kafkaErrors && v.spooled == t.spooledRecords
    && v.spoolErrors == t.spoolErrors && v.replayed == t.replayedRecords && v.batches == t.batches
  }

  /** The records of a posted request: its events under the identities drawn for it. */
  function Batch(cfg: Config, body: Body, receivedAt: Time, ids: seq<nat>): Option<seq<Rec>> {
    if !body.Posted? then None
    else
      match Validated(cfg, body.source, body.records, receivedAt)
      case Err(_) => None
      case Ok(events) => if |ids| == |events| then Some(Label(ids, events)) else None
  }

  /** A spool file in a replay pass: whether it can be read, what Kafka stores of it and replies, and
      whether it can be removed. */
  datatype FileScript = FileScript(name: nat, read: bool, deliveries: seq<(nat, nat)>, published: bool, removed: bool)

  function Names(pass: seq<FileScript>): (r: seq<nat>)
    ensures |r| == |pass| && forall i | 0 <= i < |pass| :: r[i] == pass[i].name
  {
    seq(|pass|, i requires 0 <= i < |pass| => pass[i].name)
  }

  function Redeliveries(deliveries: seq<(nat, nat)>): (r: seq<Action>)
    ensures |r| == |deliveries| && forall i | 0 <= i < |r| :: r[i] == Redeliver(deliveries[i].0, deliveries[i].1)
  {
    seq(|deliveries|, i requires 0 <= i < |deliveries| => Redeliver(deliveries[i].0, deliveries[i].1))
  }

  /** The machine's actions for one file; those that come too late are not enabled. */
  function FileActions(f: FileScript): seq<Action> {
    [ReadNext(f.read, f.removed)] + SendActions(f)
  }

  function SendActions(f: FileScript): seq<Action> {
    Redeliveries(f.deliveries) + (if f.published then [Republished] else []) + [RepublishFailed, Remove(f.removed)]
  }

  function PassActions(pass: seq<FileScript>): seq<Action> {
    if pass == [] then [] else FileActions(pass[0]) + PassActions(pass[1..])
  }

  /** The records that a pass finds in a file; none when it is missing, empty or cannot be read. */
  function Loaded(env: Env, files: seq<Slot>, f: FileScript): seq<Rec> {
    if f.read && f.name < |files| && files[f.name].Final? && ReadSlot(env, files[f.name].recs).Some? then
      ReadSlot(env, files[f.name].recs).value
    else []
  }

  /** A file that could be read is gone, and its records are in the topic. */
  ghost predicate Cleared(env: Env, before: seq<Slot>, after: seq<Slot>, logs: Logs, f: FileScript) {
    var recs := Loaded(env, before, f);
    recs != [] ==> f.name < |after| && after[f.name].Gone? && Durability.AllLogged(env, logs, recs)
  }

  /** A file that could be read, and whose publishing was not acknowledged or that cannot be removed. */
  predicate Blocked(env: Env, partitions: nat, files: seq<Slot>, f: FileScript) {
    var recs := Loaded(env, files, f);
    recs != [] && (!Acknowledged(env, recs, partitions, f.deliveries, f.published) || !f.removed)
  }

  /** What a pass does at one file: it stops there, at a file that is blocked, or clears it. */
  ghost predicate Handled(env: Env, partitions: nat, before: seq<Slot>, after: seq<Slot>, logs: Logs, f: FileScript,
      stop: bool) {
    && OnlyRemoves(before, after)
    && (forall k | 0 <= k < |after| && after[k] != before[k] :: k == f.name && f.read)
    && (if stop then after == before && Blocked(env, partitions, before, f) else Cleared(env, before, after, logs, f))
  }

  /** Every record that a removed file held for a reader is in the topic. */
  ghost predicate RemovedAreLogged(env: Env, before: seq<Slot>, after: seq<Slot>, logs: Logs) {
    |before| == |after| &&
    forall k | 0 <= k < |before| && before[k].Final? && after[k].Gone? && ReadSlot(env, before[k].recs).Some? ::
      Durability.AllLogged(env, logs, ReadSlot(env, before[k].recs).value)
  }

  /** The pass has come through its first `n` files. */
  ghost predicate Through(env: Env, first: seq<Slot>, after: seq<Slot>, logs: Logs, pass: seq<FileScript>, n: nat) {
    && OnlyRemoves(first, after) && RemovedAreLogged(env, first, after, logs)
    && forall k | 0 <= k < n && k < |pass| && Loaded(env, first, pass[k]) != [] ::
        pass[k].name < |after| && after[pass[k].name].Gone?
  }

  /** The records a request is counted with when it is rejected. */
  function Size(body: Body): nat {
    match body
    case Trailing(count) => count
    case Posted(_, records) => |records|
    case _ => 0
  }

  /** When the batch of a request is stored. */
  predicate Stores(cfg: Config, files: seq<Slot>, batch: Option<seq<Rec>>, partitions: nat, o: Outside) {
    && batch.Some? && cfg.hasPublisher
    && (Acknowledged(cfg.env, batch.value, partitions, o.deliveries, o.published)
        || (cfg.hasSpool && MayWrite(cfg, files, batch.value, o.live, o.walked) && o.file.Renamed?))
  }

  /** The response to a request inside the semaphore. Only a full spool asks the client to come back. */
  function Expected(cfg: Config, files: seq<Slot>, body: Body, batch: Option<seq<Rec>>, partitions: nat,
      o: Outside): Answer {
    match body
    case NotPost => Refused(405, false)
    case Malformed => Refused(400, false)
    case TooLarge => Refused(413, false)
    case Trailing(_) => Refused(400, false)
    case Posted(_, _) =>
      if batch.None? then Refused(422, false)
      else if Stores(cfg, files, batch, partitions, o) then
        Accepted(|batch.value|, !Acknowledged(cfg.env, batch.value, partitions, o.deliveries, o.published))
      else
        var full := Encodable(cfg.env, batch.value) && Overfull(cfg, files, batch.value);
        Refused(503, cfg.hasPublisher && cfg.hasSpool && o.live && o.walked && full)
  }

  /** The design promises 503 only when no durable path remains. When Kafka has failed, a valid batch is
      refused exactly when the spool has no room, the file system fails, the batch cannot be encoded, or
      the request's context has ended; in the last case there may well be room, for the fallback runs
      under the context that the publishing may have used up. And only a full spool says Retry-After. */
  lemma RefusedAfterKafkaExactly(cfg: Config, files: seq<Slot>, body: Body, batch: seq<Rec>, partitions: nat,
      o: Outside)
    requires body.Posted? && cfg.hasPublisher && cfg.hasSpool
    requires !Acknowledged(cfg.env, batch, partitions, o.deliveries, o.published)
    ensures
      var answer := Expected(cfg, files, body, Some(batch), partitions, o);
      var broken := !o.walked || !o.file.Renamed? || !Encodable(cfg.env, batch);
      && (answer.Refused? <==> !o.live || broken || Overfull(cfg, files, batch))
      && (answer.Refused? ==> answer.status == 503 && (answer.retryAfter ==> Overfull(cfg, files, batch)))
      && (!o.live && !broken && !Overfull(cfg, files, batch) ==>
            answer == Refused(503, false)
                && Expected(cfg, files, body, Some(batch), partitions, o.(live := true)).Accepted?)
  {
    hide Encodable, UsedBytes, PayloadBytes;
  }

  /** The answers by number: 405 for another method, 400 for what is no request, 413 past the body limit,
      422 for a request that is not valid, 503 when it is stored nowhere, and 202 when it is stored, in
      Kafka or else in the spool. */
  lemma AnswerTable(cfg: Config, files: seq<Slot>, body: Body, ids: seq<nat>, partitions: nat, o: Outside)
    requires body.Posted? ==> |ids| == |body.records|
    ensures
      var batch := Batch(cfg, body, o.receivedAt, ids);
      var answer := Expected(cfg, files, body, batch, partitions, o);
      && (body.NotPost? ==> answer == Refused(405, false)) && (body.Malformed? ==> answer == Refused(400, false))
      && (body.TooLarge? ==> answer == Refused(413, false)) && (body.Trailing? ==> answer == Refused(400, false))
      && (body.Posted? && !WellFormed(cfg, body.source, body.records) ==> answer == Refused(422, false))
      && (batch.Some? <==> body.Posted? && WellFormed(cfg, body.source, body.records))
      && (batch.Some? ==>
            var acked := Acknowledged(cfg.env, batch.value, partitions, o.deliveries, o.published);
            var written := cfg.hasSpool && MayWrite(cfg, files, batch.value, o.live, o.walked) && o.file.Renamed?;
            && |batch.value| == |body.records|
            && (!cfg.hasPublisher ==> answer == Refused(503, false))
            && (cfg.hasPublisher && acked ==> answer == Accepted(|body.records|, false))
            && (cfg.hasPublisher && !acked && written ==> answer == Accepted(|body.records|, true))
            && (cfg.hasPublisher && !acked && !cfg.hasSpool ==> answer == Refused(503, false))
            && (cfg.hasPublisher && !acked && !written ==> answer.Refused? && answer.status == 503))
  {
    hide Acknowledged, MayWrite, Encodable, Overfull, Validated, WellFormed, MadeFrom;
    if body.Posted? {
      ValidationIsTold(cfg, body.source, body.records, o.receivedAt);
    }
  }

  /** The topic after a delivery. */
  function Taken(env: Env, logs: Logs, recs: seq<Rec>, i: nat, part: nat): Logs {
    if Deliverable(env, logs, recs, i, part) then Append(env, logs, part, recs[i]) else logs
  }

  /** Nothing happens to the files but the removal of finished ones. */
  predicate OnlyRemoves(before: seq<Slot>, after: seq<Slot>) {
    |after| == |before| && forall k | 0 <= k < |after| :: after[k] == before[k] || (before[k].Final? && after[k].Gone?)
  }

  /** The failures of Kafka that a request counts: its batch was offered and not acknowledged. */
  function KafkaFailures(cfg: Config, batch: Option<seq<Rec>>, partitions: nat, o: Outside): nat {
    if batch.Some? && cfg.hasPublisher
        && !Acknowledged(cfg.env, batch.value, partitions, o.deliveries, o.published) then 1
    else 0
  }

  /** The failures of the spool: the batch then was offered to the spool and not written. */
  function SpoolFailures(cfg: Config, files: seq<Slot>, batch: Option<seq<Rec>>, partitions: nat, o: Outside): nat {
    if KafkaFailures(cfg, batch, partitions, o) == 1 && cfg.hasSpool && !Stores(cfg, files, batch, partitions, o) then 1
    else 0
  }

  /** The records that a reader finds in a file. */
  function Held(env: Env, slot: Slot): nat {
    if slot.Final? && ReadSlot(env, slot.recs).Some? then |ReadSlot(env, slot.recs).value| else 0
  }

  /** And in all finished files. */
  function Waiting(env: Env, files: seq<Slot>): nat {
    if files == [] then 0 else Waiting(env, files[..|files| - 1]) + Held(env, files[|files| - 1])
  }

  lemma {:induction false} WaitingWithout(env: Env, files: seq<Slot>, k: nat)
    requires k < |files|
    ensures Waiting(env, files) == Waiting(env, files[k := Gone]) + Held(env, files[k])
  {
    hide ReadSlot;
    var n := |files| - 1;
    if k == n {
      assert files[k := Gone][..n] == files[..n];
    } else {
      WaitingWithout(env, files[..n], k);
      assert files[k := Gone][..n] == files[..n][k := Gone];
    }
  }

  /** What a file of a pass holds, and what is left without it. */
  lemma FileHolds(env: Env, files: seq<Slot>, f: FileScript)
    ensures f.name < |files| && files[f.name].Final? ==>
        && Waiting(env, files) == Waiting(env, files[f.name := Gone]) + Held(env, files[f.name])
        && Held(env, files[f.name]) ==
           match ReadSlot(env, files[f.name].recs) {
             case None => 0
             case Some(recs) => |recs|
           }
  {
    if f.name < |files| {
      WaitingWithout(env, files, f.name);
    }
    hide ReadSlot, Waiting;
  }

  /** A batch counted once: as accepted, with its records among the accepted ones, or as rejected; with
      the failures on the way. */
  ghost predicate Settled(s: State, s': State, recs: seq<Rec>, n: nat, answer: Answer, kafka: nat, spool: nat) {
    var t, t', accepted := s.tally, s'.tally, answer.Accepted?;
    && t'.kafkaErrors == t.kafkaErrors + kafka && t'.spoolErrors == t.spoolErrors + spool
    && t'.spooledRecords == t.spooledRecords + (if accepted && answer.spooled then n else 0)
    && s'.accepted == (if accepted then s.accepted + (set r | r in recs) else s.accepted)
    && t'.requests == t.requests
    && t'.batches == t.batches + (if accepted then 1 else 0)
    && t'.acceptedRecords == t.acceptedRecords + (if accepted then n else 0)
    && t'.rejectedRequests == t.rejectedRequests + (if accepted then 0 else 1)
    && t'.rejectedRecords == t.rejectedRecords + (if accepted then 0 else n)
  }

  class Frontend {
    const cfg: Config
    const partitions: nat
    const metrics: Counters

    var inFlight: nat
    var files: seq<Slot>

    /** Outside the process: `logs.raw`. */
    var topic: Logs

    ghost const origin: State
    ghost const originLogs: Logs
    ghost var model: State
    ghost var logs: Logs
    ghost var done: seq<Action>

    constructor (cfg: Config, topic: Logs, partitions: nat, text: int -> string)
      requires partitions == |topic|
      ensures Valid() && fresh(metrics)
      ensures this.cfg == cfg && Init(origin) && originLogs == topic && done == []
    {
      this.cfg, this.partitions := cfg, partitions;
      this.inFlight, this.files, this.topic := 0, [], topic;
      this.metrics := new Counters(text);
      this.origin, this.originLogs := State([], 0, [], [], Idle, ZERO, {}, {}), topic;
      this.model, this.logs, this.done := State([], 0, [], [], Idle, ZERO, {}, {}), topic, [];
    }

    /** The machine's state is what the actions so far make of the origin. */
    ghost predicate Traced()
      reads this
    {
      (model, logs) == Run(cfg, origin, originLogs, done)
    }

    /** What the process can see of its state agrees with the machine. */
    ghost predicate Valid()
      reads this, metrics
    {
      Traced() && Coupled() && metrics.Valid() && Shows(metrics.View(), model.tally)
    }

    ghost predicate Coupled()
      reads this
    {
      inFlight == model.tokens && files == model.files && topic == logs && |logs| == partitions
    }

    /** One action of the machine. */
    ghost method Do(a: Action)
      requires Traced()
      modifies this`model, this`logs, this`done
      ensures Traced() && done == old(done) + [a] && (model, logs) == Step(cfg, old(model), old(logs), a)
    {
      hide Step;
      RunTwice(cfg, origin, originLogs, done, [a]);
      RunOne(cfg, model, logs, a);
      var (s, more) := Step(cfg, model, logs, a);
      model, logs, done := s, more, done + [a];
    }

    /** Actions that are not enabled, and so do nothing. */
    ghost method Idly(actions: seq<Action>)
      requires Traced() && forall a | a in actions :: !Enabled(cfg, model, logs, a)
      modifies this`model, this`logs, this`done
      ensures Traced() && done == old(done) + actions && model == old(model) && logs == old(logs)
    {
      hide Run, Enabled;
      RunTwice(cfg, origin, originLogs, done, actions);
      RunOfDisabled(cfg, model, logs, actions);
      done := done + actions;
    }

    /** acquire. */
    method Acquire(ghost h: nat) returns (ok: bool)
      requires Valid() && At(model, h).Arrived?
      modifies this`inFlight, this`model, this`logs, this`done, metrics
      ensures Valid() && old(done) <= done && logs == old(logs)
      ensures model == ApplyAcquire(cfg, old(model), h) && ok == !Saturated(cfg, old(inFlight))
    {
      hide Run, Counts;
      Do(Api.Acquire(h));
      ok := !Saturated(cfg, inFlight);
      if !ok {
        metrics.ObserveRejected(0);
      } else if cfg.maxInFlight > 0 {
        inFlight := inFlight + 1;
      }
    }

    /** release. */
    method Release(ghost h: nat)
      requires Valid() && At(model, h).Leaving? && (cfg.maxInFlight > 0 ==> inFlight > 0)
      modifies this`inFlight, this`model, this`logs, this`done
      ensures Valid() && old(done) <= done && logs == old(logs)
      ensures model == Move(old(model), h, Left).(tokens := if cfg.maxInFlight > 0 then old(model).tokens - 1
          else old(model).tokens)
    {
      hide Run, Counts;
      Do(Api.Release(h));
      if cfg.maxInFlight > 0 {
        inFlight := inFlight - 1;
      }
    }

    /** The producer: the batch is encoded as a whole, then any of its records may reach Kafka. */
    method Publish(ghost h: nat, recs: seq<Rec>, o: Outside) returns (ok: bool)
      requires Traced() && Coupled() && At(model, h) == Publishing(recs, {})
      modifies this`model, this`topic, this`logs, this`done
      ensures Traced() && Coupled() && old(done) <= done
      ensures At(model, h).Publishing? && model == Move(old(model), h, Publishing(recs, model.hs[h].sent))
      ensures ok == Acknowledged(cfg.env, recs, partitions, o.deliveries, o.published)
      ensures ok ==> AllSent(recs, model.hs[h].sent) && Durability.AllLogged(cfg.env, topic, recs)
    {
      hide Run, Step, Encodable, Marked, Durability.InLog;
      DeliverAll(h, recs, o.deliveries);
      ok := Acknowledged(cfg.env, recs, partitions, o.deliveries, o.published);
      if ok {
        AllMarked(cfg.env, recs, partitions, o.deliveries, o.published, model.hs[h].sent);
      }
    }

    /** Kafka stores one record, if there is one to store. */
    method Take(recs: seq<Rec>, i: nat, part: nat)
      modifies this`topic
      ensures topic == Taken(cfg.env, old(topic), recs, i, part)
    {
      hide Encode, Encodable;
      if Deliverable(cfg.env, topic, recs, i, part) {
        topic := Append(cfg.env, topic, part, recs[i]);
      }
    }

    /** The records that reach Kafka, one by one. */
    method DeliverAll(ghost h: nat, recs: seq<Rec>, deliveries: seq<(nat, nat)>)
      requires Traced() && Coupled() && At(model, h) == Publishing(recs, {})
      modifies this`model, this`topic, this`logs, this`done
      ensures Traced() && Coupled() && old(done) <= done
      ensures At(model, h).Publishing? && model == Move(old(model), h, Publishing(recs, model.hs[h].sent))
      ensures Encodable(cfg.env, recs) ==> Marked(deliveries, partitions, recs, model.hs[h].sent)
      ensures Durability.SentAreLogged(cfg.env, logs, recs, model.hs[h].sent)
    {
      hide Run, Step, Encodable, Marked, Deliverable, Durability.SentAreLogged;
      ghost var (start, sent) := (model, {});
      var k := 0;
      NoneLogged(cfg.env, logs, recs);
      NoneMarked(recs, partitions);
      assert start.hs[h := Publishing(recs, {})] == start.hs;
      while k < |deliveries|
        invariant 0 <= k <= |deliveries| && Traced() && Coupled() && old(done) <= done
        invariant model == Move(start, h, Publishing(recs, sent))
        invariant Encodable(cfg.env, recs) ==> Marked(deliveries[..k], partitions, recs, sent)
        invariant Durability.SentAreLogged(cfg.env, logs, recs, sent)
      {
        var (i, part) := deliveries[k];
        Take(recs, i, part);
        DeliverIs(cfg, model, logs, h, i, part);
        OneMoreLogged(cfg.env, logs, recs, sent, i, part);
        MarkedMore(cfg.env, logs, deliveries, k, recs, sent);
        assert start.hs[h := Publishing(recs, sent)][h := Publishing(recs, sent + {i})] ==
            start.hs[h := Publishing(recs, sent + {i})];
        Do(Deliver(h, i, part));
        sent := model.hs[h].sent;
        k := k + 1;
      }
      assert deliveries[..|deliveries|] == deliveries;
    }

    /** Writer.State, when the walk meets no failure: the mode and the usage that are shown. */
    method SpoolState() returns (mode: SpoolUsage.Mode, usage: SpoolUsage.Usage)
      ensures usage.bytes == UsedBytes(cfg.env, files) && mode == SpoolUsage.ModeOf(usage.bytes, cfg.maxBytes)
    {
      hide UsedBytes, Sights, SpoolUsage.Look;
      SightsAreWhole(cfg.env, files);
      var walked := SpoolUsage.DirUsage(Sights(cfg.env, files));
      usage := walked.value;
      mode := SpoolUsage.ModeOf(usage.bytes, cfg.maxBytes);
    }

    /** Writer.Write, for a batch that is not empty. */
    method Write(ghost h: nat, recs: seq<Rec>, o: Outside) returns (error: Option<WriteError>)
      requires Traced() && Coupled() && At(model, h) == Fallback(recs)
      modifies this`files, this`model, this`logs, this`done
      ensures Traced() && Coupled() && old(done) <= done && logs == old(logs)
      ensures error.None? <==> MayWrite(cfg, old(files), recs, o.live, o.walked) && o.file.Renamed?
      ensures error == Some(Full) <==> o.live && o.walked && Encodable(cfg.env, recs) && Overfull(cfg, old(files), recs)
      ensures error.Some? && error != Some(FileFailed) ==> files == old(files)
      ensures
        var exhausted := SpoolUsage.ModeOf(UsedBytes(cfg.env, old(files)), cfg.maxBytes) == SpoolUsage.Exhausted;
        exhausted && recs != [] && o.live && o.walked && Encodable(cfg.env, recs) ==>
            error == Some(Full) && files == old(files)
      ensures error.None? ==>
                && files == old(files) + [Final(recs)]
                && model == Move(old(model), h, Stored(recs, true)).(files := files, origin := model.origin)
      ensures error.Some? ==>
                && (files == old(files) || exists part :: files == old(files) + [Tmp(part)])
                && model == Move(old(model), h, Spoiled(|recs|)).(
                              files := files, origin := model.origin,
                              tally := old(model).tally.(spoolErrors := old(model).tally.spoolErrors + 1))
    {
      hide Run, Step, PayloadBytes, UsedBytes, Encodable, ByteLen, Lines, CanSee, Sights, SpoolUsage.Look,
          SpoolUsage.ModeOf;
      if Encodable(cfg.env, recs) && recs != [] {
        ModeAgreesWithAdmission(cfg, files, recs);
      }
      ListIs(cfg, model, logs, h, o.live, o.walked);
      ByteCount(cfg.env, recs);
      Do(ListDir(h, o.live, o.walked));
      if !o.live {
        return Some(Dead);
      }
      if !o.walked {
        return Some(NoDirectory);
      }
      var payload := MarshalJSONLines(cfg.env, EventsOf(recs));
      if payload.None? {
        return Some(Unencodable);
      }
      var walk := Sights(cfg.env, files);
      SightsCanBeSeen(cfg.env, files, files);
      SightsAreWhole(cfg.env, files);
      AdmitIs(cfg, model, logs, h, walk);
      Do(Admit(h, walk));
      var full := SpoolUsage.Overflows(walk, ByteLen(payload.value), cfg.maxBytes);
      if full.value {
        return Some(Full);
      }
      assert At(model, h) == Admitted(recs);
      error := PutFile(h, recs, o.file);
    }

    /** The temporary file and the rename. */
    method PutFile(ghost h: nat, recs: seq<Rec>, o: FileOutcome) returns (error: Option<WriteError>)
      requires Traced() && Coupled() && At(model, h) == Admitted(recs)
      modifies this`files, this`model, this`logs, this`done
      ensures Traced() && Coupled() && old(done) <= done && logs == old(logs)
      ensures error == if o.Renamed? then None else Some(FileFailed)
      ensures error.None? ==>
                && files == old(files) + [Final(recs)]
                && model == Move(old(model), h, Stored(recs, true)).(files := files, origin := model.origin)
      ensures error.Some? ==>
                && (files == old(files) || exists part :: files == old(files) + [Tmp(part)])
                && model == Move(old(model), h, Spoiled(|recs|)).(
                              files := files, origin := model.origin,
                              tally := old(model).tally.(spoolErrors := old(model).tally.spoolErrors + 1))
    {
      hide Run, Step;
      if o.NotOpened? {
        FailIs(cfg, model, logs, h);
        Do(WriteFailed(h));
        return Some(FileFailed);
      }
      var name := |files|;
      OpenIs(cfg, model, logs, h);
      Do(OpenTmp(h));
      files := files + [Tmp([])];
      var count := if o.Stopped? && o.written < |recs| then o.written else |recs|;
      for i := 0 to count
        invariant Traced() && Coupled() && old(done) <= done && logs == old(logs)
        invariant files == old(files) + [Tmp(recs[..i])]
        invariant model == Move(old(model), h, Writing(recs, name, i)).(files := files, origin := model.origin)
      {
        AppendIs(cfg, model, logs, h);
        Do(AppendTmp(h));
        files := files[name := Tmp(recs[..i + 1])];
      }
      if !o.Renamed? {
        FailIs(cfg, model, logs, h);
        Do(WriteFailed(h));
        return Some(FileFailed);
      }
      RenameIs(cfg, model, logs, h);
      assert recs[..|recs|] == recs;
      Do(Rename(h));
      files := files[name := Final(recs)];
      error := None;
    }

    /** A request's batch is stored: it is counted and answered with 202. */
    method Accept(ghost h: nat, recs: seq<Rec>, spooled: bool) returns (answer: Answer)
      requires Valid() && At(model, h) == Stored(recs, spooled)
      modifies this`model, this`logs, this`done, metrics
      ensures Valid() && old(done) <= done && logs == old(logs)
      ensures model == ApplyAnswer(old(model), h) && answer == Accepted(|recs|, spooled)
    {
      hide Run, Step, Counts;
      var events := EventsOf(recs);
      AnswerIs(cfg, model, logs, h);
      Do(Api.Answer(h));
      metrics.ObserveAccepted(events, spooled);
      answer := Accepted(|events|, spooled);
    }

    /** A request's batch is stored nowhere. */
    method Reject(ghost h: nat, recs: seq<Rec>, retryAfter: bool) returns (answer: Answer)
      requires Valid() && (At(model, h) == Spoiled(|recs|) || At(model, h) == Unspooled(|recs|))
      modifies this`model, this`logs, this`done, metrics
      ensures Valid() && old(done) <= done && logs == old(logs)
      ensures answer == Refused(503, retryAfter)
      ensures
        var t, n := old(model).tally, if old(model).hs[h].Unspooled? then 1 else 0;
        model == Move(old(model), h, Leaving).(
                   tally := t.(rejectedRequests := t.rejectedRequests + 1,
                       rejectedRecords := t.rejectedRecords + |recs|,
                               unspooled := t.unspooled + n))
    {
      hide Run, Step, Counts;
      RejectIs(cfg, model, logs, h);
      Do(Api.Reject(h));
      metrics.ObserveRejected(|recs|);
      answer := Refused(503, retryAfter);
    }

    /** The fallback to the spool. */
    method FallBack(ghost h: nat, recs: seq<Rec>, o: Outside) returns (answer: Answer)
      requires Valid() && At(model, h) == Fallback(recs)
      modifies this`files, this`model, this`logs, this`done, metrics
      ensures Valid() && old(done) <= done
      ensures model.hs == old(model).hs[h := Leaving] && model.tokens == old(model).tokens
      ensures
        var spooled := MayWrite(cfg, old(files), recs, o.live, o.walked) && o.file.Renamed?;
        var full := o.live && o.walked && Encodable(cfg.env, recs) && Overfull(cfg, old(files), recs);
        && answer == (if spooled then Accepted(|recs|, true) else Refused(503, full))
        && Settled(old(model), model, recs, |recs|, answer, 0, if spooled then 0 else 1)
    {
      hide Run, Step, MayWrite, Encodable, Overfull, Counts;
      var error := Write(h, recs, o);
      if error.Some? {
        metrics.ObserveSpoolWriteError();
        answer := Reject(h, recs, error == Some(Full));
      } else {
        answer := Accept(h, recs, true);
      }
    }

    /** The end of ServeHTTP: Kafka first, then the spool. */
    method StoreBatch(ghost h: nat, recs: seq<Rec>, o: Outside) returns (answer: Answer)
      requires Valid() && At(model, h) == Publishing(recs, {})
      modifies this`files, this`model, this`topic, this`logs, this`done, metrics
      ensures Valid() && old(done) <= done
      ensures model.hs == old(model).hs[h := Leaving] && model.tokens == old(model).tokens
      ensures
        var acked := Acknowledged(cfg.env, recs, partitions, o.deliveries, o.published);
        var spooled := cfg.hasSpool && MayWrite(cfg, old(files), recs, o.live, o.walked) && o.file.Renamed?;
        var full := cfg.hasSpool && o.live && o.walked && Encodable(cfg.env, recs) && Overfull(cfg, old(files), recs);
        && answer == (if acked then Accepted(|recs|, false) else if spooled then Accepted(|recs|, true)
            else Refused(503, full))
        && Settled(old(model), model, recs, |recs|, answer, if acked then 0 else 1,
                   if acked || spooled || !cfg.hasSpool then 0 else 1)
    {
      hide Run, Step, Acknowledged, MayWrite, Encodable, Overfull, Counts, Keys, AllSent, Durability.AllLogged;
      var published := Publish(h, recs, o);
      if published {
        PublishedIs(cfg, model, logs, h);
        Do(Published(h));
        answer := Accept(h, recs, false);
        return;
      }
      PublishFailedIs(cfg, model, logs, h);
      Do(PublishFailed(h));
      metrics.ObserveKafkaPublishError();
      if cfg.hasSpool {
        answer := FallBack(h, recs, o);
      } else {
        answer := Reject(h, recs, false);
      }
    }

    /** A request that is refused before anything is stored. */
    method Refuse(ghost h: nat, count: nat, status: nat) returns (answer: Answer)
      requires Valid() && At(model, h).Inside?
      modifies this`model, this`logs, this`done, metrics
      ensures Valid() && old(done) <= done && logs == old(logs)
      ensures model == ApplyRefuse(old(model), h, count) && answer == Refused(status, false)
    {
      hide Run, Step, Counts;
      RefuseIs(cfg, model, logs, h, count);
      Do(Api.Refuse(h, count));
      metrics.ObserveRejected(count);
      answer := Refused(status, false);
    }

    /** ServeHTTP between acquire and release. */
    method Handle(ghost h: nat, body: Body, ids: seq<nat>, o: Outside) returns (answer: Answer)
      requires Valid() && At(model, h).Inside? && FreshIds(model, ids) && (body.Posted? ==> |ids| == |body.records|)
      modifies this`files, this`model, this`topic, this`logs, this`done, metrics
      ensures Valid() && old(done) <= done
      ensures model.hs == old(model).hs[h := Leaving] && model.tokens == old(model).tokens
      ensures
        var batch := Batch(cfg, body, o.receivedAt, ids);
        && (answer.Accepted? <==> Stores(cfg, old(files), batch, partitions, o))
        && answer == Expected(cfg, old(files), body, batch, partitions, o)
        && Settled(old(model), model, if batch.Some? then batch.value else [], Size(body), answer,
                   KafkaFailures(cfg, batch, partitions, o), SpoolFailures(cfg, old(files), batch, partitions, o))
    {
      hide Run, Step, Acknowledged, MayWrite, Encodable, Overfull, Counts, Validated;
      match body
      case NotPost => answer := Refuse(h, 0, 405);
      case Malformed => answer := Refuse(h, 0, 400);
      case TooLarge => answer := Refuse(h, 0, 413);
      case Trailing(count) => answer := Refuse(h, count, 400);
      case Posted(source, records) =>
        answer := HandlePosted(h, source, records, ids, o);
    }

    /** The same for a request that was read. */
    method HandlePosted(ghost h: nat, source: string, records: seq<string>, ids: seq<nat>, o: Outside)
        returns (answer: Answer)
      requires Valid() && At(model, h).Inside? && FreshIds(model, ids) && |ids| == |records|
      modifies this`files, this`model, this`topic, this`logs, this`done, metrics
      ensures Valid() && old(done) <= done
      ensures model.hs == old(model).hs[h := Leaving] && model.tokens == old(model).tokens
      ensures
        var batch := Batch(cfg, Posted(source, records), o.receivedAt, ids);
        && answer == Expected(cfg, old(files), Posted(source, records), batch, partitions, o)
        && Settled(old(model), model, if batch.Some? then batch.value else [], |records|, answer,
                   KafkaFailures(cfg, batch, partitions, o), SpoolFailures(cfg, old(files), batch, partitions, o))
    {
      hide Run, Step, Acknowledged, MayWrite, Encodable, Overfull, Counts, Validated;
      EventsMatch(cfg, source, records, o.receivedAt);
      JudgeIs(cfg, model, logs, h, source, records, o.receivedAt, ids);
      Do(Judge(h, source, records, o.receivedAt, ids));
      var events := ValidateRequest(cfg, source, records, o.receivedAt);
      if events.Err? {
        metrics.ObserveRejected(|records|);
        return Refused(422, false);
      }
      if !cfg.hasPublisher {
        metrics.ObserveRejected(|events.value|);
        return Refused(503, false);
      }
      answer := StoreBatch(h, Label(ids, events.value), o);
    }

    /** ServeHTTP, from any state the other requests may have left: the request is answered with 202
        exactly when it is admitted, read and valid, and its batch is stored in Kafka or, failing that,
        in the spool; in each case it is counted once and the semaphore is given back. */
    method ServeHTTP(body: Body, ids: seq<nat>, o: Outside) returns (answer: Answer)
      requires Valid() && FreshIds(model, ids) && (body.Posted? ==> |ids| == |body.records|)
      modifies this`inFlight, this`files, this`model, this`topic, this`logs, this`done, metrics
      ensures Valid() && old(done) <= done
      ensures model.hs == old(model).hs + [Left] && inFlight == old(inFlight)
      ensures
        var batch := Batch(cfg, body, o.receivedAt, ids);
        && (answer.Accepted? <==> !Saturated(cfg, old(inFlight)) && Stores(cfg, old(files), batch, partitions, o))
        && answer == (if Saturated(cfg, old(inFlight)) then Refused(503, true)
            else Expected(cfg, old(files), body, batch, partitions, o))
        && model.accepted == (if answer.Accepted? then old(model).accepted + (set r | r in batch.value)
            else old(model).accepted)
        && model.tally.requests == old(model).tally.requests + 1
        && model.tally.batches == old(model).tally.batches + (if answer.Accepted? then 1 else 0)
        && model.tally.rejectedRequests == old(model).tally.rejectedRequests + (if answer.Accepted? then 0 else 1)
      ensures
        var batch, t, t' := Batch(cfg, body, o.receivedAt, ids), old(model).tally, model.tally;
        var saturated := Saturated(cfg, old(inFlight));
        && t'.acceptedRecords == t.acceptedRecords + (if answer.Accepted? then Size(body) else 0)
        && t'.rejectedRecords == t.rejectedRecords + (if answer.Accepted? || saturated then 0 else Size(body))
        && t'.spooledRecords == t.spooledRecords + (if answer.Accepted? && answer.spooled then Size(body) else 0)
        && t'.kafkaErrors == t.kafkaErrors + (if saturated then 0 else KafkaFailures(cfg, batch, partitions, o))
        && t'.spoolErrors == t.spoolErrors
                             + (if saturated then 0 else SpoolFailures(cfg, old(files), batch, partitions, o))
    {
      hide Run, Step, Counts, KafkaFailures, SpoolFailures, Expected, Batch, FreshIds, Acknowledged, MayWrite;
      ArriveIs(cfg, model, logs);
      SameIds(model, Step(cfg, model, logs, Arrive).0, ids);
      ghost var h := |model.hs|;
      Do(Arrive);
      metrics.ObserveRequest();
      var admitted := Acquire(h);
      if !admitted {
        return Refused(503, true);
      }
      SameIds(old(model), model, ids);
      answer := Handle(h, body, ids, o);
      Release(h);
    }

    /** The records of a spool file that reach Kafka, one by one. */
    method RedeliverAll(recs: seq<Rec>, deliveries: seq<(nat, nat)>)
      requires Traced() && Coupled() && model.replay.Sending? && model.replay.recs == recs && model.replay.sent == {}
      modifies this`model, this`topic, this`logs, this`done
      ensures Traced() && Coupled() && done == old(done) + Redeliveries(deliveries) && Extends(old(logs), logs)
      ensures model.replay.Sending? && model == old(model).(replay := old(model).replay.(sent := model.replay.sent))
      ensures Marked(deliveries, partitions, recs, model.replay.sent) || !Encodable(cfg.env, recs)
      ensures AllSent(recs, model.replay.sent) ==>
          Complete(deliveries, partitions, recs) && (recs != [] ==> Encodable(cfg.env, recs))
      ensures Durability.SentAreLogged(cfg.env, logs, recs, model.replay.sent)
    {
      hide Run, Step, Encodable, Marked, Deliverable, Durability.SentAreLogged, OnlySent;
      ghost var start := model;
      var k := 0;
      NoneMarked(recs, partitions);
      NoneLogged(cfg.env, logs, recs);
      NoneSent(cfg.env, recs, partitions);
      while k < |deliveries|
        invariant 0 <= k <= |deliveries| && Traced() && Coupled() && Extends(old(logs), logs)
        invariant done == old(done) + Redeliveries(deliveries[..k])
        invariant model.replay.Sending? && model == start.(replay := start.replay.(sent := model.replay.sent))
        invariant Encodable(cfg.env, recs) ==> Marked(deliveries[..k], partitions, recs, model.replay.sent)
        invariant OnlySent(cfg.env, deliveries[..k], partitions, recs, model.replay.sent)
        invariant Durability.SentAreLogged(cfg.env, logs, recs, model.replay.sent)
      {
        var (i, part) := deliveries[k];
        Take(recs, i, part);
        RedeliverIs(cfg, model, logs, i, part);
        MarkedMore(cfg.env, logs, deliveries, k, recs, model.replay.sent);
        SentMore(cfg.env, logs, deliveries, k, recs, model.replay.sent);
        OneMoreLogged(cfg.env, logs, recs, model.replay.sent, i, part);
        ExtendsFurther(old(logs), logs, Step(cfg, model, logs, Redeliver(i, part)).1);
        Do(Redeliver(i, part));
        assert Redeliveries(deliveries[..k + 1]) == Redeliveries(deliveries[..k]) + [Redeliver(i, part)];
        k := k + 1;
      }
      assert deliveries[..|deliveries|] == deliveries;
      SentIsComplete(cfg.env, deliveries, partitions, recs, model.replay.sent);
    }

    /** One file of a replay pass: read, publish, remove, report. */
    method ReplayFile(f: FileScript, ghost rest: seq<nat>) returns (stop: bool)
      requires Valid() && model.replay == Pass([f.name] + rest)
      modifies this`files, this`model, this`topic, this`logs, this`done, metrics
      ensures Valid() && done == old(done) + FileActions(f) && Extends(old(logs), logs)
      ensures model.replay == if stop then Idle else Pass(rest)
      ensures model.hs == old(model).hs && model.accepted == old(model).accepted && inFlight == old(inFlight)
      ensures Handled(cfg.env, partitions, old(files), files, logs, f, stop)
      ensures model.tally.replayedRecords + Waiting(cfg.env, files) ==
          old(model.tally.replayedRecords) + Waiting(cfg.env, old(files))
    {
      hide Waiting, Held, Run, Step, Counts, ReadSlot, Encodable, Handled, Durability.AllLogged, SendActions,
          FileActions,
          Acknowledged;
      assert ([f.name] + rest)[1..] == rest;
      var recs := if f.read && f.name < |files|
          && files[f.name].Final? then ReadSlot(cfg.env, files[f.name].recs) else None;
      ReadIs(cfg, model, logs, f.read, f.removed);
      Do(ReadNext(f.read, f.removed));
      FileStarts(f);
      FileHolds(cfg.env, files, f);
      if recs.None? || |recs.value| == 0 {
        Unsent(cfg, model, logs, f);
        Idly(SendActions(f));
        if recs.Some? && f.removed {
          files := files[f.name := Gone];
        }
        NothingToSend(cfg.env, partitions, old(files), files, logs, f);
        return false;
      }
      stop := RepublishFile(f, recs.value, rest);
      SomethingToSend(cfg.env, partitions, old(files), files, logs, f, stop);
    }

    /** The end of a file whose records are in the topic. */
    method RemoveFile(name: nat, recs: seq<Rec>, removed: bool)
      requires Valid() && model.replay.Clearing? && model.replay.slot == name < |files| && model.replay.recs == recs
      modifies this`files, this`model, this`logs, this`done, metrics
      ensures Valid() && done == old(done) + [Remove(removed)] && logs == old(logs)
      ensures model.replay == if removed then Pass(old(model).replay.todo) else Idle
      ensures files == if removed then old(files)[name := Gone] else old(files)
      ensures model.hs == old(model).hs && model.accepted == old(model).accepted
      ensures model.tally.replayedRecords == old(model.tally.replayedRecords) + if removed then |recs| else 0
    {
      hide Run, Step, Counts;
      RemoveIs(cfg, model, logs, removed);
      Do(Remove(removed));
      if removed {
        files := files[name := Gone];
        metrics.ObserveReplayed(|recs|);
      }
    }

    method RepublishFile(f: FileScript, recs: seq<Rec>, ghost rest: seq<nat>) returns (stop: bool)
      requires Valid() && model.replay == Sending(f.name, recs, {}, rest) && f.name < |files| && files[f.name].Final?
          && recs != []
      modifies this`files, this`model, this`topic, this`logs, this`done, metrics
      ensures Valid() && done == old(done) + SendActions(f) && Extends(old(logs), logs)
      ensures model.replay == if stop then Idle else Pass(rest)
      ensures files == (if stop then old(files) else old(files)[f.name := Gone])
      ensures stop <==> !Acknowledged(cfg.env, recs, partitions, f.deliveries, f.published) || !f.removed
      ensures !stop ==> Durability.AllLogged(cfg.env, topic, recs)
      ensures model.tally.replayedRecords == old(model.tally.replayedRecords) + if stop then 0 else |recs|
      ensures model.hs == old(model).hs && model.accepted == old(model).accepted && inFlight == old(inFlight)
    {
      hide Run, Step, Counts, Encodable, Marked, Durability.InLog, OnlySent, Redeliveries;
      RedeliverAll(recs, f.deliveries);
      if Acknowledged(cfg.env, recs, partitions, f.deliveries, f.published) {
        AllMarked(cfg.env, recs, partitions, f.deliveries, f.published, model.replay.sent);
        RepublishedIs(cfg, model, logs);
        Do(Republished);
        Idly([RepublishFailed]);
        RemoveFile(f.name, recs, f.removed);
        stop := !f.removed;
      } else {
        GiveUp(f);
        stop := true;
      }
    }

    /** The end of a file whose publishing was not acknowledged. */
    ghost method GiveUp(f: FileScript)
      requires Traced() && model.replay.Sending? && (f.published ==> !AllSent(model.replay.recs, model.replay.sent))
      modifies this`model, this`logs, this`done
      ensures Traced() && logs == old(logs) && model == old(model).(replay := Idle)
      ensures done == old(done) + (if f.published then [Republished] else []) + [RepublishFailed, Remove(f.removed)]
    {
      hide Run, Step;
      if f.published {
        Idly([Republished]);
      }
      RepublishFailedIs(cfg, model, logs);
      Do(RepublishFailed);
      Idly([Remove(f.removed)]);
    }

    /** ReplayOnce, for any directory listing: exactly the actions of a pass. Up to where it stops, each
        file that could be read is gone and its records are in the topic; and it stops early only at a
        file that could be read, and that was not acknowledged or could not be removed. */
    method ReplayOnce(pass: seq<FileScript>) returns (ok: bool, ghost stopped: nat)
      requires Valid() && (model.replay.Idle? || model.replay == Pass([]))
      modifies this`files, this`model, this`topic, this`logs, this`done, metrics
      ensures Valid()
      ensures cfg.hasPublisher ==> done == old(done) + ([Glob(Names(pass))] + PassActions(pass))
      ensures cfg.hasPublisher ==> model.replay == if ok then Pass([]) else Idle
      ensures !cfg.hasPublisher ==>
          ok && stopped == 0 && model == old(model) && files == old(files) && done == old(done)
      ensures cfg.hasPublisher ==> stopped <= |pass| && (ok <==> stopped == |pass|)
      ensures forall k | 0 <= k < stopped :: Cleared(cfg.env, old(files), files, topic, pass[k])
      ensures !ok ==> stopped < |pass| && Blocked(cfg.env, partitions, old(files), pass[stopped])
      ensures OnlyRemoves(old(files), files) && Extends(old(logs), logs)
      ensures model.tally.replayedRecords + Waiting(cfg.env, files) ==
          old(model.tally.replayedRecords) + Waiting(cfg.env, old(files))
      ensures model.hs == old(model).hs && model.accepted == old(model).accepted && inFlight == old(inFlight)
    {
      hide Waiting, Run, Step, Counts, Cleared, Blocked, OnlyRemoves, Extends, PassActions, Shows;
      if !cfg.hasPublisher {
        NothingDone(files, logs);
        return true, 0;
      }
      GlobIs(cfg, model, logs, Names(pass));
      Do(Glob(Names(pass)));
      ok, stopped := RunPass(pass);
      Glue(old(done), [Glob(Names(pass))], PassActions(pass));
    }

    /** The actions of the files that a pass does not come to. */
    ghost method SkipRest(pass: seq<FileScript>, i: nat)
      requires Traced() && model.replay.Idle? && i <= |pass|
      modifies this`model, this`logs, this`done
      ensures Traced() && model == old(model) && logs == old(logs) && done == old(done) + PassActions(pass[i..])
    {
      hide Run, Enabled, PassActions;
      PassIsIdle(cfg, model, logs, pass[i..]);
      Idly(PassActions(pass[i..]));
    }

    /** The next file of the pass. */
    method NextFile(pass: seq<FileScript>, i: nat, ghost first: seq<Slot>) returns (stop: bool)
      requires Valid() && i < |pass| && model.replay == Pass(Names(pass)[i..])
          && Through(cfg.env, first, files, logs, pass, i)
      modifies this`files, this`model, this`topic, this`logs, this`done, metrics
      ensures Valid() && Extends(old(logs), logs)
      ensures done == old(done)
          + (if stop then FileActions(pass[i]) + PassActions(pass[i + 1..]) else FileActions(pass[i]))
      ensures model.replay == if stop then Idle else Pass(Names(pass)[i + 1..])
      ensures Through(cfg.env, first, files, logs, pass, if stop then i else i + 1)
      ensures stop ==> Blocked(cfg.env, partitions, first, pass[i])
      ensures model.tally.replayedRecords + Waiting(cfg.env, files) ==
          old(model.tally.replayedRecords) + Waiting(cfg.env, old(files))
      ensures model.hs == old(model).hs && model.accepted == old(model).accepted && inFlight == old(inFlight)
    {
      hide Waiting, Run, Step, Counts, Blocked, Through, Handled, FileActions, Extends, Enabled, Shows, PassActions;
      assert Names(pass)[i..] == [pass[i].name] + Names(pass)[i + 1..];
      stop := ReplayFile(pass[i], Names(pass)[i + 1..]);
      ThroughMore(cfg.env, partitions, first, old(files), files, old(logs), logs, pass, i, stop);
      if stop {
        SkipRest(pass, i + 1);
        Glue(old(done), FileActions(pass[i]), PassActions(pass[i + 1..]));
      }
    }

    /** The loop over the files. */
    method RunPass(pass: seq<FileScript>) returns (ok: bool, ghost stopped: nat)
      requires Valid() && model.replay == Pass(Names(pass))
      modifies this`files, this`model, this`topic, this`logs, this`done, metrics
      ensures Valid() && done == old(done) + PassActions(pass)
      ensures model.replay == if ok then Pass([]) else Idle
      ensures stopped <= |pass| && (ok <==> stopped == |pass|)
      ensures forall k | 0 <= k < stopped :: Cleared(cfg.env, old(files), files, topic, pass[k])
      ensures !ok ==> Blocked(cfg.env, partitions, old(files), pass[stopped])
      ensures OnlyRemoves(old(files), files) && Extends(old(logs), logs)
      ensures model.tally.replayedRecords + Waiting(cfg.env, files) ==
          old(model.tally.replayedRecords) + Waiting(cfg.env, old(files))
      ensures model.hs == old(model).hs && model.accepted == old(model).accepted && inFlight == old(inFlight)
    {
      hide Waiting, Run, Step, Counts, Cleared, Blocked, OnlyRemoves, Through, FileActions, Extends, Shows, PassActions;
      PassSplit(pass, 0);
      NothingDone(files, logs);
      ThroughNone(cfg.env, files, logs, pass);
      for i := 0 to |pass|
        invariant Valid() && model.replay == Pass(Names(pass)[i..])
        invariant done + PassActions(pass[i..]) == old(done) + PassActions(pass)
        invariant Extends(old(logs), logs) && Through(cfg.env, old(files), files, logs, pass, i)
        invariant model.tally.replayedRecords + Waiting(cfg.env, files) ==
            old(model.tally.replayedRecords) + Waiting(cfg.env, old(files))
        invariant model.hs == old(model).hs && model.accepted == old(model).accepted && inFlight == old(inFlight)
      {
        ghost var sofar, done0 := logs, done;
        PassSplit(pass, i);
        var stop := NextFile(pass, i, old(files));
        ExtendsFurther(old(logs), sofar, logs);
        if stop {
          ThroughIsCleared(cfg.env, old(files), files, logs, pass, i);
          return false, i;
        }
        Glue(done0, FileActions(pass[i]), PassActions(pass[i + 1..]));
      }
      PassSplit(pass, |pass|);
      ThroughIsCleared(cfg.env, old(files), files, logs, pass, |pass|);
      return true, |pass|;
    }

    /** So the promises of the machine are promises of the process, in terms of its own fields: what was
        answered with 202 is durable, the semaphore is within its limit, and once no request is inside
        each request counts as an accepted batch or as a rejection. */
    lemma KeepsPromises()
      requires Valid() && Init(origin) && Lawful(cfg.env)
      ensures forall r | r in model.accepted :: Durability.Durable(cfg.env, model, topic, r)
      ensures cfg.maxInFlight > 0 ==> inFlight <= cfg.maxInFlight
      ensures (forall h | 0 <= h < |model.hs| :: model.hs[h].Left?) ==>
                metrics.requestsTotal == metrics.batchesAcceptedTotal + metrics.rejectedRequestsTotal
    {
      InitHolds(cfg, origin, originLogs);
      hide Run, Lawful, Durability.Readable, Started, FromApi, Durability.Durable, Intake.Sum, Counts;
      AcceptedIsDurable(cfg, origin, originLogs, done);
      RequestsAreAccountedFor(cfg, origin, originLogs, done);
      if cfg.maxInFlight > 0 {
        SemaphoreIsExact(cfg, origin, originLogs, done);
      }
    }
  }

  // ---- Deliveries and identities ----

  /** The deliverable ones among the first deliveries are marked as sent. */
  predicate Marked(deliveries: seq<(nat, nat)>, partitions: nat, recs: seq<Rec>, sent: set<nat>) {
    forall k | 0 <= k < |deliveries| :: deliveries[k].0 < |recs| && deliveries[k].1 < partitions ==>
        deliveries[k].0 in sent
  }

  lemma NoneMarked(recs: seq<Rec>, partitions: nat)
    ensures Marked([], partitions, recs, {})
  {
  }

  lemma MarkedMore(env: Env, logs: Logs, deliveries: seq<(nat, nat)>, k: nat, recs: seq<Rec>, sent: set<nat>)
    requires k < |deliveries|
    requires Encodable(env, recs) ==> Marked(deliveries[..k], |logs|, recs, sent)
    ensures
      var (i, part) := deliveries[k];
      Encodable(env, recs) ==>
        Marked(deliveries[..k + 1], |logs|, recs, if Deliverable(env, logs, recs, i, part) then sent + {i} else sent)
  {
    hide Encodable, Encode;
    if Encodable(env, recs) {
      EachEncodes(env, recs, deliveries[k].0);
      assert forall j | 0 <= j < k :: deliveries[..k + 1][j] == deliveries[..k][j];
    }
  }

  lemma AllMarked(env: Env, recs: seq<Rec>, partitions: nat, deliveries: seq<(nat, nat)>, published: bool,
      sent: set<nat>)
    requires Acknowledged(env, recs, partitions, deliveries, published) && Marked(deliveries, partitions, recs, sent)
    ensures AllSent(recs, sent)
  {
    hide Encodable;
    forall i | 0 <= i < |recs| ensures i in sent {
      assert DeliveredTo(deliveries, partitions, i);
    }
  }

  lemma SameIds(s: State, s': State, ids: seq<nat>)
    requires FreshIds(s, ids) && s'.issued == s.issued
    ensures FreshIds(s', ids)
  {
  }

  lemma EventsMatch(cfg: Config, source: string, records: seq<string>, receivedAt: Time)
    ensures
      var events := Validated(cfg, source, records, receivedAt);
      events.Ok? ==> |events.value| == |records|
  {
    hide Validated;
    ValidationIsAllOrNothing(cfg, source, records, receivedAt);
  }

  // ---- What is logged ----

  lemma NoneLogged(env: Env, logs: Logs, recs: seq<Rec>)
    ensures Durability.SentAreLogged(env, logs, recs, {})
  {
  }

  lemma OneMoreLogged(env: Env, logs: Logs, recs: seq<Rec>, sent: set<nat>, i: nat, part: nat)
    requires Durability.SentAreLogged(env, logs, recs, sent)
    ensures
      var taken := Deliverable(env, logs, recs, i, part);
      var more := if taken then Append(env, logs, part, recs[i]) else logs;
      && |more| == |logs| && Extends(logs, more)
      && Durability.SentAreLogged(env, more, recs, if taken then sent + {i} else sent)
  {
    hide Encode, Encodable, Durability.InLog;
    if Deliverable(env, logs, recs, i, part) {
      Durability.AppendExtends(env, logs, part, recs[i]);
      var more := Append(env, logs, part, recs[i]);
      forall j | j in sent && j < |recs| ensures Durability.InLog(env, more, recs[j]) {
        Durability.LogStays(env, logs, more, recs[j]);
      }
    }
  }

  /** Only what was delivered is sent, and nothing of a batch that cannot be encoded. */
  predicate OnlySent(env: Env, deliveries: seq<(nat, nat)>, partitions: nat, recs: seq<Rec>, sent: set<nat>) {
    forall i | i in sent :: Encodable(env, recs) && DeliveredTo(deliveries, partitions, i)
  }

  predicate Complete(deliveries: seq<(nat, nat)>, partitions: nat, recs: seq<Rec>) {
    forall i | 0 <= i < |recs| :: DeliveredTo(deliveries, partitions, i)
  }

  lemma NoneSent(env: Env, recs: seq<Rec>, partitions: nat)
    ensures OnlySent(env, [], partitions, recs, {})
  {
  }

  lemma SentMore(env: Env, logs: Logs, deliveries: seq<(nat, nat)>, k: nat, recs: seq<Rec>, sent: set<nat>)
    requires k < |deliveries| && OnlySent(env, deliveries[..k], |logs|, recs, sent)
    ensures
      var (i, part) := deliveries[k];
      OnlySent(env, deliveries[..k + 1], |logs|, recs, if Deliverable(env, logs, recs, i, part) then sent + {i}
          else sent)
  {
    hide Encodable, Encode;
    var (i, part) := deliveries[k];
    forall j | j in sent ensures DeliveredTo(deliveries[..k + 1], |logs|, j) {
      var m :| 0 <= m < k && deliveries[..k][m].0 == j && deliveries[..k][m].1 < |logs|;
      assert deliveries[..k + 1][m] == deliveries[..k][m];
    }
    assert deliveries[..k + 1][k] == deliveries[k];
  }

  lemma SentIsComplete(env: Env, deliveries: seq<(nat, nat)>, partitions: nat, recs: seq<Rec>, sent: set<nat>)
    requires OnlySent(env, deliveries, partitions, recs, sent)
    ensures AllSent(recs, sent) ==> Complete(deliveries, partitions, recs) && (recs != [] ==> Encodable(env, recs))
  {
    hide Encodable;
    if AllSent(recs, sent) && recs != [] {
      assert 0 in sent;
    }
  }

  // ---- Replay passes ----

  /** Without a batch to send, the rest of a file's actions does nothing. */
  lemma Unsent(cfg: Config, s: State, logs: Logs, f: FileScript)
    requires !s.replay.Sending? && !s.replay.Clearing?
    ensures forall a | a in SendActions(f) :: !Enabled(cfg, s, logs, a)
  {
    forall a | a in SendActions(f) ensures a.Redeliver? || a.Republished? || a.RepublishFailed? || a.Remove? {
    }
  }

  lemma PassSplit(pass: seq<FileScript>, i: nat)
    requires i <= |pass|
    ensures pass[0..] == pass && Names(pass)[0..] == Names(pass)
    ensures PassActions(pass[i..]) == if i < |pass| then FileActions(pass[i]) + PassActions(pass[i + 1..]) else []
    ensures i == |pass| ==> Names(pass)[i..] == []
  {
    hide FileActions;
    if i < |pass| {
      assert pass[i..][1..] == pass[i + 1..];
    }
  }

  /** Once the replayer has stopped, the rest of the pass does nothing. */
  lemma {:induction false} PassIsIdle(cfg: Config, s: State, logs: Logs, pass: seq<FileScript>)
    requires s.replay.Idle?
    ensures forall a | a in PassActions(pass) :: !Enabled(cfg, s, logs, a)
  {
    if pass != [] {
      PassIsIdle(cfg, s, logs, pass[1..]);
      Unsent(cfg, s, logs, pass[0]);
    }
  }

  lemma Glue(a: seq<Action>, b: seq<Action>, c: seq<Action>)
    ensures a + b + c == a + (b + c)
  {
  }

  lemma FileStarts(f: FileScript)
    ensures [ReadNext(f.read, f.removed)] + SendActions(f) == FileActions(f)
  {
  }

  lemma NothingToSend(env: Env, partitions: nat, before: seq<Slot>, after: seq<Slot>, logs: Logs, f: FileScript)
    requires Loaded(env, before, f) == []
    requires after == before
        || (f.read && f.name < |before| && before[f.name].Final? && after == before[f.name := Gone])
    ensures Handled(env, partitions, before, after, logs, f, false)
  {
  }

  lemma SomethingToSend(env: Env, partitions: nat, before: seq<Slot>, after: seq<Slot>, logs: Logs, f: FileScript,
      stop: bool)
    requires Loaded(env, before, f) != [] && f.name < |before|
    requires after == if stop then before else before[f.name := Gone]
    requires stop ==> Blocked(env, partitions, before, f)
    requires !stop ==> Durability.AllLogged(env, logs, Loaded(env, before, f))
    ensures Handled(env, partitions, before, after, logs, f, stop)
  {
    hide Durability.AllLogged, ReadSlot, Acknowledged;
  }

  lemma NothingDone(files: seq<Slot>, logs: Logs)
    ensures OnlyRemoves(files, files) && Extends(logs, logs)
  {
  }

  lemma ThroughNone(env: Env, files: seq<Slot>, logs: Logs, pass: seq<FileScript>)
    ensures Through(env, files, files, logs, pass, 0)
  {
  }

  lemma ThroughMore(env: Env, partitions: nat, first: seq<Slot>, before: seq<Slot>, after: seq<Slot>, logs: Logs,
      more: Logs,
                    pass: seq<FileScript>, i: nat, stop: bool)
    requires i < |pass| && Through(env, first, before, logs, pass, i) && Extends(logs, more)
    requires Handled(env, partitions, before, after, more, pass[i], stop)
    ensures Through(env, first, after, more, pass, if stop then i else i + 1)
    ensures stop ==> Blocked(env, partitions, first, pass[i])
  {
    hide ReadSlot, Durability.AllLogged, Acknowledged;
    var f := pass[i];
    RemovedStayLogged(env, first, before, after, logs, more, f, stop);
    assert f.name < |first| && first[f.name].Final? ==> before[f.name] == first[f.name] || before[f.name].Gone?;
  }

  lemma RemovedStayLogged(env: Env, first: seq<Slot>, before: seq<Slot>, after: seq<Slot>, logs: Logs, more: Logs,
      f: FileScript, stop: bool)
    requires OnlyRemoves(first, before) && OnlyRemoves(before, after) && RemovedAreLogged(env, first, before, logs)
        && Extends(logs, more)
    requires forall k | 0 <= k < |after| && after[k] != before[k] :: k == f.name && f.read
    requires if stop then after == before else Cleared(env, before, after, more, f)
    ensures RemovedAreLogged(env, first, after, more)
  {
    hide ReadSlot, Durability.InLog;
    forall k | 0 <= k < |first| && first[k].Final? && after[k].Gone? && ReadSlot(env, first[k].recs).Some?
      ensures Durability.AllLogged(env, more, ReadSlot(env, first[k].recs).value)
    {
      var recs := ReadSlot(env, first[k].recs).value;
      if before[k].Gone? {
        forall i | 0 <= i < |recs| ensures Durability.InLog(env, more, recs[i]) {
          Durability.LogStays(env, logs, more, recs[i]);
        }
      } else if recs != [] {
        assert Loaded(env, before, f) == recs;
      }
    }
  }

  lemma ThroughIsCleared(env: Env, first: seq<Slot>, after: seq<Slot>, logs: Logs, pass: seq<FileScript>, n: nat)
    requires n <= |pass| && Through(env, first, after, logs, pass, n)
    ensures OnlyRemoves(first, after) && forall k | 0 <= k < n :: Cleared(env, first, after, logs, pass[k])
  {
    hide ReadSlot, Durability.AllLogged;
  }
}
