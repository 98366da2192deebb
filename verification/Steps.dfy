/** What single actions of the API machine do to its state. */
module Steps {
  import opened Text
  import opened Logline
  import opened Codec
  import opened Records
  import opened Api
  import SpoolUsage

  lemma DeliverIs(cfg: Config, s: State, logs: Logs, h: nat, i: nat, part: nat)
    requires At(s, h).Publishing?
    ensures
      var (s', more), p := Step(cfg, s, logs, Deliver(h, i, part)), s.hs[h];
      && more == (if Deliverable(cfg.env, logs, p.recs, i, part) then Append(cfg.env, logs, part, p.recs[i]) else logs)
      && s' == Move(s, h, Publishing(p.recs, if Deliverable(cfg.env, logs, p.recs, i, part) then p.sent + {i}
          else p.sent))
  {
    hide Encode, Encodable;
    var p := s.hs[h];
    assert s.hs[h := p] == s.hs && Move(s, h, p) == s && p == Publishing(p.recs, p.sent);
    if Deliverable(cfg.env, logs, p.recs, i, part) {
      assert Step(cfg, s, logs, Deliver(h, i, part)).0 == Move(s, h, Publishing(p.recs, p.sent + {i}));
    }
  }

  lemma {:induction false} LinesNeedEach(env: Env, events: seq<Event>, i: nat)
    requires Lines(env, events).Some? && i < |events|
    ensures Encode(env, events[i]).Some?
  {
    hide Encode;
    if i > 0 {
      LinesNeedEach(env, events[1..], i - 1);
    }
  }

  lemma EachEncodes(env: Env, recs: seq<Rec>, i: nat)
    requires Encodable(env, recs)
    ensures i < |recs| ==> Encode(env, recs[i].event).Some?
  {
    hide Encode, Lines;
    if i < |recs| {
      LinesNeedEach(env, EventsOf(recs), i);
    }
  }

  lemma ByteCount(env: Env, recs: seq<Rec>)
    ensures Encodable(env, recs) <==> Lines(env, EventsOf(recs)).Some?
    ensures Encodable(env, recs) ==> PayloadBytes(env, recs) == ByteLen(Lines(env, EventsOf(recs)).value)
  {
  }

  lemma ListIs(cfg: Config, s: State, logs: Logs, h: nat, live: bool, io: bool)
    requires At(s, h).Fallback?
    ensures Step(cfg, s, logs, ListDir(h, live, io)) == (ApplyList(cfg, s, h, live, io), logs)
  {
    hide ApplyList;
  }

  lemma AdmitIs(cfg: Config, s: State, logs: Logs, h: nat, walk: seq<SpoolUsage.Sight>)
    requires At(s, h).Walking? && CanSee(cfg.env, s.hs[h].listed, s.files, walk)
    ensures Step(cfg, s, logs, Admit(h, walk)) == (ApplyAdmit(cfg, s, h, walk), logs)
  {
    hide ApplyAdmit, CanSee;
  }

  lemma AcquireIs(cfg: Config, s: State, logs: Logs, h: nat)
    requires At(s, h).Arrived?
    ensures Step(cfg, s, logs, Acquire(h)) == (ApplyAcquire(cfg, s, h), logs)
  {
    hide ApplyAcquire;
  }

  lemma ReleaseIs(cfg: Config, s: State, logs: Logs, h: nat)
    requires At(s, h).Leaving? && (cfg.maxInFlight > 0 ==> s.tokens > 0)
    ensures Step(cfg, s, logs, Release(h)) ==
            (Move(s, h, Left).(tokens := if cfg.maxInFlight > 0 then s.tokens - 1 else s.tokens), logs)
  {
  }

  lemma FailIs(cfg: Config, s: State, logs: Logs, h: nat)
    requires At(s, h).Admitted? || At(s, h).Writing?
    ensures Step(cfg, s, logs, WriteFailed(h)) ==
            (Spoil(s, h, |s.hs[h].recs|), logs)
  {
  }

  lemma OpenIs(cfg: Config, s: State, logs: Logs, h: nat)
    requires At(s, h).Admitted?
    ensures
      var recs := s.hs[h].recs;
      Step(cfg, s, logs, OpenTmp(h)) ==
      (Move(s, h, Writing(recs, |s.files|, 0)).(files := s.files + [Tmp([])], origin := s.origin + [recs]), logs)
  {
  }

  lemma AppendIs(cfg: Config, s: State, logs: Logs, h: nat)
    requires At(s, h).Writing? && s.hs[h].written < |s.hs[h].recs| && s.hs[h].slot < |s.files|
    ensures
      var p := s.hs[h];
      Step(cfg, s, logs, AppendTmp(h)) ==
      (Move(s, h, Writing(p.recs, p.slot, p.written + 1)).(files := s.files[p.slot := Tmp(p.recs[..p.written + 1])]),
          logs)
  {
  }

  lemma RenameIs(cfg: Config, s: State, logs: Logs, h: nat)
    requires At(s, h).Writing? && s.hs[h].written == |s.hs[h].recs| && s.hs[h].slot < |s.files|
    requires s.files[s.hs[h].slot] == Tmp(s.hs[h].recs)
    ensures
      var p := s.hs[h];
      Step(cfg, s, logs, Rename(h)) ==
      (Move(s, h, Stored(p.recs, true)).(files := s.files[p.slot := Final(p.recs)]), logs)
  {
  }

  lemma PublishedIs(cfg: Config, s: State, logs: Logs, h: nat)
    requires At(s, h).Publishing? && AllSent(s.hs[h].recs, s.hs[h].sent)
    ensures Step(cfg, s, logs, Published(h)) == (Move(s, h, Stored(s.hs[h].recs, false)), logs)
  {
  }

  lemma PublishFailedIs(cfg: Config, s: State, logs: Logs, h: nat)
    requires At(s, h).Publishing?
    ensures
      var recs := s.hs[h].recs;
      Step(cfg, s, logs, PublishFailed(h)) ==
      (Move(s, h, if cfg.hasSpool then Fallback(recs) else Unspooled(|recs|)).(
              tally := s.tally.(kafkaErrors := s.tally.kafkaErrors + 1)), logs)
  {
  }

  lemma AnswerIs(cfg: Config, s: State, logs: Logs, h: nat)
    requires At(s, h).Stored?
    ensures Step(cfg, s, logs, Answer(h)) == (ApplyAnswer(s, h), logs)
  {
    hide ApplyAnswer;
  }

  lemma RejectIs(cfg: Config, s: State, logs: Logs, h: nat)
    requires At(s, h).Spoiled? || At(s, h).Unspooled?
    ensures
      var t := s.tally;
      Step(cfg, s, logs, Reject(h)) ==
      (Move(s, h, Leaving).(
              tally := t.(rejectedRequests := t.rejectedRequests + 1,
                  rejectedRecords := t.rejectedRecords + s.hs[h].count,
                          unspooled := t.unspooled + if s.hs[h].Unspooled? then 1 else 0)), logs)
  {
  }

  lemma ArriveIs(cfg: Config, s: State, logs: Logs)
    ensures Step(cfg, s, logs, Arrive) ==
            (s.(hs := s.hs + [Arrived], tally := s.tally.(requests := s.tally.requests + 1)), logs)
  {
  }

  lemma RefuseIs(cfg: Config, s: State, logs: Logs, h: nat, count: nat)
    requires At(s, h).Inside?
    ensures Step(cfg, s, logs, Refuse(h, count)) == (ApplyRefuse(s, h, count), logs)
  {
    hide ApplyRefuse;
  }

  lemma JudgeIs(cfg: Config, s: State, logs: Logs, h: nat, source: string, records: seq<string>, receivedAt: Time,
      ids: seq<nat>)
    requires At(s, h).Inside? && FreshIds(s, ids)
    requires var events := Validated(cfg, source, records, receivedAt); events.Ok? ==> |ids| == |events.value|
    ensures
      var (s', more) := Step(cfg, s, logs, Judge(h, source, records, receivedAt, ids));
      var events := Validated(cfg, source, records, receivedAt);
      && more == logs && s' == ApplyJudge(cfg, s, h, source, records, receivedAt, ids)
      && (events.Err? ==> s' == ApplyRefuse(s, h, |records|))
      && (events.Ok? && !cfg.hasPublisher ==> s' == ApplyRefuse(s, h, |events.value|))
      && (events.Ok? && cfg.hasPublisher ==>
          s' == Move(s, h, Publishing(Label(ids, events.value), {})).(issued := s'.issued))
  {
    hide Validated;
  }

  lemma RedeliverIs(cfg: Config, s: State, logs: Logs, i: nat, part: nat)
    requires s.replay.Sending?
    ensures
      var (s', more), r := Step(cfg, s, logs, Redeliver(i, part)), s.replay;
      && more == (if Deliverable(cfg.env, logs, r.recs, i, part) then Append(cfg.env, logs, part, r.recs[i]) else logs)
      && s' == s.(replay := r.(sent := if Deliverable(cfg.env, logs, r.recs, i, part) then r.sent + {i} else r.sent))
  {
    hide Encode, Encodable;
  }

  lemma ReadIs(cfg: Config, s: State, logs: Logs, ok: bool, removed: bool)
    requires s.replay.Pass? && s.replay.todo != []
    ensures Step(cfg, s, logs, ReadNext(ok, removed)) == (ApplyRead(cfg, s, ok, removed), logs)
  {
    hide ApplyRead;
  }

  lemma RepublishedIs(cfg: Config, s: State, logs: Logs)
    requires s.replay.Sending? && AllSent(s.replay.recs, s.replay.sent)
    ensures Step(cfg, s, logs, Republished) ==
        (s.(replay := Clearing(s.replay.slot, s.replay.recs, s.replay.todo)), logs)
  {
  }

  lemma RepublishFailedIs(cfg: Config, s: State, logs: Logs)
    requires s.replay.Sending?
    ensures Step(cfg, s, logs, RepublishFailed) == (s.(replay := Idle), logs)
  {
  }

  lemma RemoveIs(cfg: Config, s: State, logs: Logs, io: bool)
    requires s.replay.Clearing? && s.replay.slot < |s.files|
    ensures
      var r, t := s.replay, s.tally;
      Step(cfg, s, logs, Remove(io)) ==
      (if io then s.(files := s.files[r.slot := Gone], replay := Pass(r.todo),
          tally := t.(replayedRecords := t.replayedRecords + |r.recs|))
       else s.(replay := Idle), logs)
  {
  }

  lemma GlobIs(cfg: Config, s: State, logs: Logs, todo: seq<nat>)
    requires s.replay.Idle? || s.replay == Pass([])
    ensures Step(cfg, s, logs, Glob(todo)) == (s.(replay := Pass(todo)), logs)
  {
  }
}
