/** Nothing the log API answered with 202 is lost, and spool files are published whole: the invariant
    of the API machine that speaks of records. */
module Durability {
  import opened Text
  import opened Logline
  import opened Codec
  import opened Records
  import opened Api
  import opened Intake
  import SpoolUsage

  ghost predicate InLog(env: Env, logs: Logs, r: Rec) {
    exists p, o :: 0 <= p < |logs| && 0 <= o < |logs[p]| && Carries(env, logs[p][o], r)
  }

  ghost predicate InSpool(s: State, r: Rec) {
    exists k :: 0 <= k < |s.files| && s.files[k].Final? && r in s.files[k].recs
  }

  /** The record is durable: in a finished spool file or in `logs.raw`. */
  ghost predicate Durable(env: Env, s: State, logs: Logs, r: Rec) {
    InSpool(s, r) || InLog(env, logs, r)
  }

  predicate Valid(env: Env, recs: seq<Rec>) {
    recs != [] && forall i | 0 <= i < |recs| :: FromApi(env, recs[i].event)
  }

  /** The positions in `sent` hold records that are in the log. */
  ghost predicate SentAreLogged(env: Env, logs: Logs, recs: seq<Rec>, sent: set<nat>) {
    forall i | i in sent && i < |recs| :: InLog(env, logs, recs[i])
  }

  ghost predicate AllLogged(env: Env, logs: Logs, recs: seq<Rec>) {
    forall i | 0 <= i < |recs| :: InLog(env, logs, recs[i])
  }

  ghost predicate AllDurable(env: Env, s: State, logs: Logs, recs: seq<Rec>) {
    forall i | 0 <= i < |recs| :: Durable(env, s, logs, recs[i])
  }

  /** What each request has achieved so far. */
  ghost predicate PhaseSound(env: Env, s: State, logs: Logs, p: Phase) {
    match p
    case Publishing(recs, sent) => Valid(env, recs) && SentAreLogged(env, logs, recs, sent)
    case Fallback(recs) => Valid(env, recs)
    case Walking(recs, _) => Valid(env, recs)
    case Admitted(recs) => Valid(env, recs)
    case Writing(recs, _, _) => Valid(env, recs)
    case Stored(recs, _) => Valid(env, recs) && AllDurable(env, s, logs, recs)
    case _ => true
  }

  ghost predicate ReplaySound(env: Env, logs: Logs, r: Replay) {
    match r
    case Sending(_, recs, sent, _) => SentAreLogged(env, logs, recs, sent)
    case Clearing(_, recs, _) => AllLogged(env, logs, recs)
    case _ => true
  }

  /** Every message of the topic decodes. */
  predicate Readable(env: Env, logs: Logs) {
    forall p, o | 0 <= p < |logs| && 0 <= o < |logs[p]| :: RecordOf(env, logs[p][o]).Some?
  }

  /** A file that is gone was published whole. */
  ghost predicate GoneAreLogged(env: Env, s: State, logs: Logs) {
    forall k | 0 <= k < |s.files| && s.files[k].Gone? && k < |s.origin| :: AllLogged(env, logs, s.origin[k])
  }

  predicate FinalsAreValid(env: Env, s: State) {
    forall k | 0 <= k < |s.files| && s.files[k].Final? :: Valid(env, s.files[k].recs)
  }

  ghost predicate AcceptedAreDurable(env: Env, s: State, logs: Logs) {
    forall r | r in s.accepted :: FromApi(env, r.event) && Durable(env, s, logs, r)
  }

  ghost predicate RequestsAreSound(env: Env, s: State, logs: Logs) {
    forall h | 0 <= h < |s.hs| :: PhaseSound(env, s, logs, s.hs[h])
  }

  ghost predicate Placed(env: Env, s: State, logs: Logs) {
    && RequestsAreSound(env, s, logs) && FinalsAreValid(env, s) && GoneAreLogged(env, s, logs)
    && ReplaySound(env, logs, s.replay) && AcceptedAreDurable(env, s, logs)
  }

  // ---- What a step leaves in place ----

  lemma LogStays(env: Env, logs: Logs, more: Logs, r: Rec)
    requires Extends(logs, more) && InLog(env, logs, r)
    ensures InLog(env, more, r)
  {
    hide Carries;
    var p, o :| 0 <= p < |logs| && 0 <= o < |logs[p]| && Carries(env, logs[p][o], r);
    assert more[p][o] == logs[p][o];
  }

  /** A step keeps finished files, or removes one whose records are all in the log. */
  ghost predicate Keeps(env: Env, s: State, logs: Logs, s': State, more: Logs) {
    && Extends(logs, more) && |s.files| <= |s'.files|
    && forall k | 0 <= k < |s.files| && s.files[k].Final? ::
        s'.files[k] == s.files[k] || AllLogged(env, more, s.files[k].recs)
  }

  lemma DurableStays(env: Env, s: State, logs: Logs, s': State, more: Logs, r: Rec)
    requires Keeps(env, s, logs, s', more) && Durable(env, s, logs, r)
    ensures Durable(env, s', more, r)
  {
    if InLog(env, logs, r) {
      LogStays(env, logs, more, r);
    } else {
      var k :| 0 <= k < |s.files| && s.files[k].Final? && r in s.files[k].recs;
      if s'.files[k] != s.files[k] {
        var i :| 0 <= i < |s.files[k].recs| && s.files[k].recs[i] == r;
      }
    }
  }

  lemma SoundnessStays(env: Env, s: State, logs: Logs, s': State, more: Logs)
    requires Keeps(env, s, logs, s', more)
    ensures forall p :: PhaseSound(env, s, logs, p) ==> PhaseSound(env, s', more, p)
    ensures forall r :: Durable(env, s, logs, r) ==> Durable(env, s', more, r)
    ensures forall recs :: AllLogged(env, logs, recs) ==> AllLogged(env, more, recs)
    ensures forall recs, sent :: SentAreLogged(env, logs, recs, sent) ==> SentAreLogged(env, more, recs, sent)
  {
    hide Valid;
    forall r | Durable(env, s, logs, r) ensures Durable(env, s', more, r) {
      DurableStays(env, s, logs, s', more, r);
    }
    forall r | InLog(env, logs, r) ensures InLog(env, more, r) {
      LogStays(env, logs, more, r);
    }
  }

  /** Kafka takes one more message: the log grows by the record's message. */
  lemma AppendExtends(env: Env, logs: Logs, part: nat, r: Rec)
    requires part < |logs| && Encode(env, r.event).Some?
    ensures Extends(logs, Append(env, logs, part, r)) && InLog(env, Append(env, logs, part, r), r)
  {
    hide Encode;
    var m := Entry(r.id, Encode(env, r.event).value);
    assert Carries(env, m, r);
    assert Append(env, logs, part, r)[part][|logs[part]|] == m;
  }

  /** A message made by the API decodes. */
  lemma AppendIsReadable(env: Env, logs: Logs, part: nat, r: Rec)
    requires part < |logs| && Encode(env, r.event).Some? && Lawful(env) && FromApi(env, r.event) && Readable(env, logs)
    ensures Readable(env, Append(env, logs, part, r))
  {
    hide Encode, FromApi, RecordOf;
    var m, more := Entry(r.id, Encode(env, r.event).value), Append(env, logs, part, r);
    assert Carries(env, m, r);
    CarriedIsDecoded(env, m, r);
    forall p, o | 0 <= p < |more| && 0 <= o < |more[p]| ensures RecordOf(env, more[p][o]).Some? {
      assert more[p][o] == m || (o < |logs[p]| && more[p][o] == logs[p][o]);
    }
  }

  // ---- Steps ----

  /** Steps that touch neither files nor logs nor the replayer, and move one request on. */
  lemma MovedOn(env: Env, s: State, logs: Logs, s': State, h: nat)
    requires Placed(env, s, logs)
    requires s'.files == s.files && s'.origin == s.origin && s'.replay == s.replay
    requires h < |s.hs| == |s'.hs| && s'.hs == s.hs[h := s'.hs[h]]
    requires PhaseSound(env, s, logs, s'.hs[h])
    requires forall r | r in s'.accepted :: r in s.accepted || (FromApi(env, r.event) && Durable(env, s, logs, r))
    ensures Placed(env, s', logs)
  {
    hide Valid, InLog, FromApi, Durable;
    assert Keeps(env, s, logs, s', logs);
    SoundnessStays(env, s, logs, s', logs);
  }

  /** Judging a request makes valid batches only. */
  lemma JudgedIsValid(cfg: Config, s: State, logs: Logs, h: nat, source: string, records: seq<string>,
      receivedAt: Time, ids: seq<nat>)
    requires Enabled(cfg, s, logs, Judge(h, source, records, receivedAt, ids))
    ensures PhaseSound(cfg.env, s, logs, ApplyJudge(cfg, s, h, source, records, receivedAt, ids).hs[h])
  {
    hide Validated, FromApi, InLog, InSpool, Label, Valid;
    var events := Validated(cfg, source, records, receivedAt);
    ValidationIsAllOrNothing(cfg, source, records, receivedAt);
    if events.Ok? {
      LabelIsValid(cfg.env, ids, events.value);
    }
  }

  lemma LabelIsValid(env: Env, ids: seq<nat>, events: seq<Event>)
    requires |ids| == |events| > 0 && forall i | 0 <= i < |events| :: FromApi(env, events[i])
    ensures Valid(env, Label(ids, events))
  {
    hide FromApi;
    assert forall i | 0 <= i < |events| :: Label(ids, events)[i].event == events[i];
  }

  predicate IsQuiet(a: Action) {
    a.Acquire? || a.Refuse? || a.PublishFailed? || a.ListDir? || a.Admit? || a.WriteFailed? || a.Reject? || a.Release?
  }

  /** These actions move one request on, with its batch or without, and store nothing. */
  lemma QuietMoves(cfg: Config, s: State, logs: Logs, a: Action)
    requires Enabled(cfg, s, logs, a) && IsQuiet(a)
    ensures
      var (s', more), h := Apply(cfg, s, logs, a), Actor(a).value;
      && more == logs && s' == s.(hs := s'.hs, tokens := s'.tokens, tally := s'.tally)
      && h < |s.hs| == |s'.hs| && s'.hs == s.hs[h := s'.hs[h]]
      && var p, p' := s.hs[h], s'.hs[h];
         && !p'.Publishing? && !p'.Writing? && !p'.Stored?
         && (p'.Fallback? || p'.Walking? || p'.Admitted? ==>
             (p.Publishing? || p.Fallback? || p.Walking?) && p.recs == p'.recs)
  {
    hide CanSee, Encodable, SpoolUsage.Refuses;
  }

  lemma QuietKeeps(cfg: Config, s: State, logs: Logs, a: Action)
    requires Enabled(cfg, s, logs, a) && Placed(cfg.env, s, logs) && IsQuiet(a)
    ensures Apply(cfg, s, logs, a).1 == logs && Placed(cfg.env, Apply(cfg, s, logs, a).0, logs)
  {
    hide Apply, Enabled, InLog, InSpool, Valid, AllDurable, SentAreLogged, FinalsAreValid, GoneAreLogged;
    QuietMoves(cfg, s, logs, a);
    assert PhaseSound(cfg.env, s, logs, s.hs[Actor(a).value]);
    MovedOn(cfg.env, s, logs, Apply(cfg, s, logs, a).0, Actor(a).value);
  }

  /** A batch that is judged, stored or answered for. */
  lemma BatchKeeps(cfg: Config, s: State, logs: Logs, a: Action)
    requires Enabled(cfg, s, logs, a) && Placed(cfg.env, s, logs)
    requires a.Judge? || a.Published? || a.Answer?
    ensures Apply(cfg, s, logs, a).1 == logs && Placed(cfg.env, Apply(cfg, s, logs, a).0, logs)
  {
    hide Validated, ApplyJudge, InLog, FromApi, InSpool;
    var s' := Apply(cfg, s, logs, a).0;
    var h := Actor(a).value;
    assert PhaseSound(cfg.env, s, logs, s.hs[h]);
    if a.Judge? {
      JudgeOnlyMoves(cfg, s, logs, a);
      JudgedIsValid(cfg, s, logs, h, a.source, a.records, a.receivedAt, a.ids);
    }
    MovedOn(cfg.env, s, logs, s', h);
  }

  lemma JudgeOnlyMoves(cfg: Config, s: State, logs: Logs, a: Action)
    requires a.Judge? && Enabled(cfg, s, logs, a)
    ensures
      var s' := ApplyJudge(cfg, s, a.h, a.source, a.records, a.receivedAt, a.ids);
      && s'.files == s.files && s'.origin == s.origin && s'.replay == s.replay && s'.accepted == s.accepted
      && |s'.hs| == |s.hs| && s'.hs == s.hs[a.h := s'.hs[a.h]]
  {
    hide Validated;
  }

  /** One message of a request's batch reaches Kafka. */
  lemma DeliverKeeps(cfg: Config, s: State, logs: Logs, h: nat, i: nat, part: nat)
    requires Lawful(cfg.env) && Placed(cfg.env, s, logs) && Enabled(cfg, s, logs, Deliver(h, i, part))
    ensures
      var (s', more) := Apply(cfg, s, logs, Deliver(h, i, part));
      Extends(logs, more) && Placed(cfg.env, s', more) && (Readable(cfg.env, logs) ==> Readable(cfg.env, more))
  {
    hide InLog, FromApi, InSpool, Append, Readable, Encode, Encodable, Lawful;
    var env, p := cfg.env, s.hs[h];
    assert PhaseSound(env, s, logs, p);
    var (s', more) := Apply(cfg, s, logs, Deliver(h, i, part));
    AppendExtends(env, logs, part, p.recs[i]);
    if Readable(env, logs) {
      AppendIsReadable(env, logs, part, p.recs[i]);
    }
    assert Keeps(env, s, logs, s', more);
    SoundnessStays(env, s, logs, s', more);
    assert SentAreLogged(env, more, p.recs, p.sent);
  }

  /** The same for the replayer, whose batch is the content of a finished file. */
  lemma RedeliverKeeps(cfg: Config, s: State, logs: Logs, i: nat, part: nat)
    requires Lawful(cfg.env) && Placed(cfg.env, s, logs) && FilesMatch(s) && Enabled(cfg, s, logs, Redeliver(i, part))
    ensures
      var (s', more) := Apply(cfg, s, logs, Redeliver(i, part));
      Extends(logs, more) && Placed(cfg.env, s', more) && (Readable(cfg.env, logs) ==> Readable(cfg.env, more))
  {
    hide InLog, FromApi, InSpool, Append, Readable, Encode, Encodable, Lawful;
    var env, recs, sent := cfg.env, s.replay.recs, s.replay.sent;
    ReplayedFileIsFinal(s);
    hide FilesMatch;
    assert Valid(env, s.files[s.replay.slot].recs);
    var (s', more) := Apply(cfg, s, logs, Redeliver(i, part));
    AppendExtends(env, logs, part, recs[i]);
    if Readable(env, logs) {
      AppendIsReadable(env, logs, part, recs[i]);
    }
    assert Keeps(env, s, logs, s', more);
    SoundnessStays(env, s, logs, s', more);
    assert SentAreLogged(env, more, recs, sent);
  }

  lemma ReplayedFileIsFinal(s: State)
    requires FilesMatch(s)
    ensures |s.origin| == |s.files|
    ensures s.replay.Sending? || s.replay.Clearing? ==>
              s.replay.slot < |s.files| && s.files[s.replay.slot] == Final(s.replay.recs)
                  && s.origin[s.replay.slot] == s.replay.recs
  {
  }

  /** Steps on files that finish or remove none. */
  lemma UnfinishedKeeps(cfg: Config, s: State, logs: Logs, a: Action)
    requires Enabled(cfg, s, logs, a) && Placed(cfg.env, s, logs) && FilesMatch(s)
    requires a.OpenTmp? || a.AppendTmp?
    ensures Apply(cfg, s, logs, a).1 == logs && Placed(cfg.env, Apply(cfg, s, logs, a).0, logs)
  {
    hide InLog, FromApi, Readable, Valid;
    var env, s', h := cfg.env, Apply(cfg, s, logs, a).0, Actor(a).value;
    assert PhaseSound(env, s, logs, s.hs[h]);
    if a.AppendTmp? {
      assert s.files[s.hs[h].slot].Tmp?;
    }
    assert Keeps(env, s, logs, s', logs);
    SoundnessStays(env, s, logs, s', logs);
  }

  /** The rename makes the whole batch durable at once. */
  lemma RenameKeeps(cfg: Config, s: State, logs: Logs, h: nat)
    requires Enabled(cfg, s, logs, Rename(h)) && Placed(cfg.env, s, logs) && FilesMatch(s)
    ensures
      var s' := Apply(cfg, s, logs, Rename(h)).0;
      && Apply(cfg, s, logs, Rename(h)).1 == logs && Placed(cfg.env, s', logs)
      && s'.files[s.hs[h].slot] == Final(s.hs[h].recs)
  {
    hide InLog, FromApi, Readable, Valid;
    var env, s' := cfg.env, Apply(cfg, s, logs, Rename(h)).0;
    var recs, k := s.hs[h].recs, s.hs[h].slot;
    assert PhaseSound(env, s, logs, s.hs[h]);
    assert recs[..|recs|] == recs;
    assert s'.files[k] == Final(recs);
    assert Keeps(env, s, logs, s', logs);
    SoundnessStays(env, s, logs, s', logs);
    assert forall i | 0 <= i < |recs| :: recs[i] in s'.files[k].recs && InSpool(s', recs[i]);
  }

  /** The replayer's own steps, other than publishing. */
  lemma ReplayKeeps(cfg: Config, s: State, logs: Logs, a: Action)
    requires Lawful(cfg.env) && Enabled(cfg, s, logs, a) && Placed(cfg.env, s, logs) && FilesMatch(s)
    requires a.Glob? || a.Republished? || a.RepublishFailed? || a.Remove?
    ensures Apply(cfg, s, logs, a).1 == logs && Placed(cfg.env, Apply(cfg, s, logs, a).0, logs)
  {
    hide InLog, FromApi, Readable, Valid;
    ReplayedFileIsFinal(s);
    hide FilesMatch, Lawful;
    var env, s' := cfg.env, Apply(cfg, s, logs, a).0;
    assert Keeps(env, s, logs, s', logs);
    SoundnessStays(env, s, logs, s', logs);
  }

  lemma ReadKeeps(cfg: Config, s: State, logs: Logs, ok: bool, removed: bool)
    requires Lawful(cfg.env) && Placed(cfg.env, s, logs) && FilesMatch(s)
        && Enabled(cfg, s, logs, ReadNext(ok, removed))
    ensures Placed(cfg.env, ApplyRead(cfg, s, ok, removed), logs)
    ensures ApplyRead(cfg, s, ok, removed).files == s.files
  {
    hide InLog, FromApi, Readable, ReadSlot;
    var env, s', k := cfg.env, ApplyRead(cfg, s, ok, removed), s.replay.todo[0];
    if k < |s.files| && s.files[k].Final? {
      ReadSlotExactly(env, s.files[k].recs);
    }
    hide FilesMatch, Lawful;
    assert Keeps(env, s, logs, s', logs);
    SoundnessStays(env, s, logs, s', logs);
  }

  lemma ArriveOrCrashKeeps(cfg: Config, s: State, logs: Logs, a: Action)
    requires Placed(cfg.env, s, logs) && (a.Arrive? || a.Crash?)
    ensures Placed(cfg.env, Apply(cfg, s, logs, a).0, logs)
  {
    hide InLog, FromApi, Readable, Valid;
    var env, s' := cfg.env, Apply(cfg, s, logs, a).0;
    assert Keeps(env, s, logs, s', logs);
    SoundnessStays(env, s, logs, s', logs);
  }

  /** Whatever happens next, requests, files and accepted records stay sound, and the log only grows. */
  lemma StepKeepsPlaced(cfg: Config, s: State, logs: Logs, a: Action)
    requires Lawful(cfg.env) && Placed(cfg.env, s, logs) && FilesMatch(s)
    ensures
      var (s', more) := Step(cfg, s, logs, a);
      Extends(logs, more) && Placed(cfg.env, s', more) && (Readable(cfg.env, logs) ==> Readable(cfg.env, more))
  {
    hide Placed, FilesMatch, Lawful, CanSee, Validated, Append, ReadSlot, Encodable;
    if Enabled(cfg, s, logs, a) {
      match a
      case Arrive => ArriveOrCrashKeeps(cfg, s, logs, a);
      case Crash => ArriveOrCrashKeeps(cfg, s, logs, a);
      case Deliver(h, i, part) => DeliverKeeps(cfg, s, logs, h, i, part);
      case Redeliver(i, part) => RedeliverKeeps(cfg, s, logs, i, part);
      case OpenTmp(h) => UnfinishedKeeps(cfg, s, logs, a);
      case AppendTmp(h) => UnfinishedKeeps(cfg, s, logs, a);
      case Rename(h) => RenameKeeps(cfg, s, logs, h);
      case ReadNext(ok, removed) => ReadKeeps(cfg, s, logs, ok, removed);
      case Glob(_) => ReplayKeeps(cfg, s, logs, a);
      case Republished => ReplayKeeps(cfg, s, logs, a);
      case RepublishFailed => ReplayKeeps(cfg, s, logs, a);
      case Remove(_) => ReplayKeeps(cfg, s, logs, a);
      case Judge(_, _, _, _, _) => BatchKeeps(cfg, s, logs, a);
      case Published(_) => BatchKeeps(cfg, s, logs, a);
      case Answer(_) => BatchKeeps(cfg, s, logs, a);
      case _ => QuietKeeps(cfg, s, logs, a);
    }
  }
}
