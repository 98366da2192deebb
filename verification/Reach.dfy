/** What the API machine can reach from a state: requests that come to their capacity test together, that
    pass it, write and leave, files that the replayer publishes and removes. */
module Reach {
  import opened Text
  import opened Logline
  import opened Codec
  import opened Records
  import opened Api
  import opened Steps
  import opened Promises
  import Intake
  import SpoolUsage

  datatype Request = Request(source: string, records: seq<string>, receivedAt: Time)

  /** The request is valid, and its batch takes this many bytes. */
  predicate Weighs(cfg: Config, q: Request, bytes: nat) {
    var events := Validated(cfg, q.source, q.records, q.receivedAt);
    events.Ok? && Lines(cfg.env, events.value).Some? && ByteLen(Lines(cfg.env, events.value).value) == bytes
  }

  /** A request at its fallback, whose batch takes this many bytes. */
  predicate Heavy(env: Env, p: Phase, bytes: nat) {
    (p.Walking? || p.Admitted?) && Encodable(env, p.recs) && PayloadBytes(env, p.recs) == bytes
  }

  /** The phase has the batch that this request was validated to. */
  predicate Carries(cfg: Config, p: Phase, q: Request) {
    var events := Validated(cfg, q.source, q.records, q.receivedAt);
    (p.Walking? || p.Admitted? || p.Stored?) && p.recs != [] && events.Ok? && EventsOf(p.recs) == events.value
  }

  predicate Below(s: State, base: nat) {
    forall i | i in s.issued :: i < base
  }

  // ---- What can be reached ----

  /** What requests and walks a run may have: requests of at most `limit` bytes, and, unless `torn`,
      only walks during which no file vanishes. */
  predicate Fair(cfg: Config, limit: nat, torn: bool, actions: seq<Action>) {
    SmallRequests(cfg, actions, limit) && (torn || WholeWalks(actions))
  }

  ghost predicate Reaches(cfg: Config, limit: nat, torn: bool, s: State, logs: Logs, s': State, more: Logs) {
    exists actions :: Fair(cfg, limit, torn, actions) && Run(cfg, s, logs, actions) == (s', more)
  }

  lemma ReachSelf(cfg: Config, limit: nat, torn: bool, s: State, logs: Logs)
    ensures Reaches(cfg, limit, torn, s, logs, s, logs)
  {
    assert Fair(cfg, limit, torn, []) && Run(cfg, s, logs, []) == (s, logs);
  }

  lemma ReachStep(cfg: Config, limit: nat, torn: bool, s: State, logs: Logs, a: Action)
    requires RequestBytes(cfg, a) <= limit && (torn || Intake.WholeWalk(a))
    ensures Reaches(cfg, limit, torn, s, logs, Step(cfg, s, logs, a).0, Step(cfg, s, logs, a).1)
  {
    hide Step, Run, RequestBytes, Intake.WholeWalk;
    RunOne(cfg, s, logs, a);
    assert Fair(cfg, limit, torn, [a]);
  }

  lemma ReachFurther(cfg: Config, limit: nat, torn: bool, s: State, logs: Logs, s1: State, logs1: Logs, s2: State,
      logs2: Logs)
    requires Reaches(cfg, limit, torn, s, logs, s1, logs1) && Reaches(cfg, limit, torn, s1, logs1, s2, logs2)
    ensures Reaches(cfg, limit, torn, s, logs, s2, logs2)
  {
    hide Run, RequestBytes, Intake.WholeWalk;
    var xs :| Fair(cfg, limit, torn, xs) && Run(cfg, s, logs, xs) == (s1, logs1);
    var ys :| Fair(cfg, limit, torn, ys) && Run(cfg, s1, logs1, ys) == (s2, logs2);
    RunTwice(cfg, s, logs, xs, ys);
    assert Fair(cfg, limit, torn, xs + ys);
  }

  /** One more action, with no request in it and no walk. */
  lemma Onward(cfg: Config, limit: nat, torn: bool, s0: State, logs0: Logs, s: State, logs: Logs, a: Action)
    requires Reaches(cfg, limit, torn, s0, logs0, s, logs) && !a.Judge? && !a.Admit?
    ensures Reaches(cfg, limit, torn, s0, logs0, Step(cfg, s, logs, a).0, Step(cfg, s, logs, a).1)
  {
    hide Step, Reaches;
    ReachStep(cfg, limit, torn, s, logs, a);
    ReachFurther(cfg, limit, torn, s0, logs0, s, logs, Step(cfg, s, logs, a).0, Step(cfg, s, logs, a).1);
  }

  // ---- A request comes to its walk ----

  function Numbers(base: nat, n: nat): (r: seq<nat>)
    ensures |r| == n && forall i | 0 <= i < n :: r[i] == base + i
  {
    seq(n, i => base + i)
  }

  /** Kafka has failed, and the request is about to fall back to the spool. */
  lemma ComesToFallback(cfg: Config, limit: nat, torn: bool, s: State, logs: Logs, q: Request, bytes: nat, base: nat)
      returns (s': State)
    requires cfg.hasPublisher && cfg.hasSpool && Weighs(cfg, q, bytes) && bytes <= limit && Below(s, base)
    requires cfg.maxInFlight > 0 ==> s.tokens < cfg.maxInFlight
    ensures Reaches(cfg, limit, torn, s, logs, s', logs)
    ensures s' == s.(hs := s'.hs, tokens := if cfg.maxInFlight > 0 then s.tokens + 1 else s.tokens,
        issued := s'.issued, tally := s'.tally)
    ensures s'.tally == s.tally.(requests := s.tally.requests + 1, kafkaErrors := s.tally.kafkaErrors + 1)
    ensures |s'.hs| == |s.hs| + 1 && s'.hs[..|s.hs|] == s.hs && Below(s', base + |q.records|)
    ensures
      var p := s'.hs[|s.hs|];
      p.Fallback? && Encodable(cfg.env, p.recs) && PayloadBytes(cfg.env, p.recs) == bytes
      && EventsOf(p.recs) == Validated(cfg, q.source, q.records, q.receivedAt).value && p.recs != []
  {
    hide Step, Reaches, Validated, PayloadBytes, Encodable, Lines, ByteLen;
    var h, ids := |s.hs|, Numbers(base, |q.records|);
    var events := Validated(cfg, q.source, q.records, q.receivedAt).value;
    ValidationIsAllOrNothing(cfg, q.source, q.records, q.receivedAt);
    var recs := Label(ids, events);
    Relabelled(cfg.env, ids, events, bytes);
    ReachSelf(cfg, limit, torn, s, logs);
    var s1 := s.(hs := s.hs + [Arrived], tally := s.tally.(requests := s.tally.requests + 1));
    ArriveIs(cfg, s, logs);
    Onward(cfg, limit, torn, s, logs, s, logs, Arrive);
    var s2 := ApplyAcquire(cfg, s1, h);
    AcquireIs(cfg, s1, logs, h);
    Onward(cfg, limit, torn, s, logs, s1, logs, Acquire(h));
    var s3 := Judged(cfg, limit, torn, s, s2, logs, h, q, ids);
    PublishFailedIs(cfg, s3, logs, h);
    Onward(cfg, limit, torn, s, logs, s3, logs, PublishFailed(h));
    s' := Move(s3, h, Fallback(recs)).(tally := s3.tally.(kafkaErrors := s3.tally.kafkaErrors + 1));
    assert s'.hs == s.hs + [Fallback(recs)];
  }

  /** The request's walk has begun. */
  lemma ComesToWalk(cfg: Config, limit: nat, torn: bool, s: State, logs: Logs, q: Request, bytes: nat, base: nat)
      returns (s': State)
    requires cfg.hasPublisher && cfg.hasSpool && Weighs(cfg, q, bytes) && bytes <= limit && Below(s, base)
    requires cfg.maxInFlight > 0 ==> s.tokens < cfg.maxInFlight
    ensures Reaches(cfg, limit, torn, s, logs, s', logs)
    ensures s' == s.(hs := s'.hs, tokens := if cfg.maxInFlight > 0 then s.tokens + 1 else s.tokens,
        issued := s'.issued, tally := s'.tally)
    ensures |s'.hs| == |s.hs| + 1 && s'.hs[..|s.hs|] == s.hs && Below(s', base + |q.records|)
    ensures
      var p := s'.hs[|s.hs|];
      p.Walking? && p.listed == s.files && Heavy(cfg.env, p, bytes) && Carries(cfg, p, q)
  {
    hide Step, Reaches, Validated, PayloadBytes, Encodable, Lines, ByteLen;
    var h := |s.hs|;
    var s1 := ComesToFallback(cfg, limit, torn, s, logs, q, bytes, base);
    ListIs(cfg, s1, logs, h, true, true);
    Onward(cfg, limit, torn, s, logs, s1, logs, ListDir(h, true, true));
    s' := ApplyList(cfg, s1, h, true, true);
    assert s'.hs == s.hs + [Walking(s1.hs[h].recs, s.files)];
  }

  lemma Judged(cfg: Config, limit: nat, torn: bool, s0: State, s: State, logs: Logs, h: nat, q: Request,
      ids: seq<nat>) returns (s': State)
    requires Reaches(cfg, limit, torn, s0, logs, s, logs)
    requires At(s, h).Inside? && FreshIds(s, ids) && cfg.hasPublisher
    requires
      var events := Validated(cfg, q.source, q.records, q.receivedAt);
      events.Ok? && |events.value| == |ids| && PayloadBytes(cfg.env, Label(ids, events.value)) <= limit
    ensures Reaches(cfg, limit, torn, s0, logs, s', logs)
    ensures
      var events := Validated(cfg, q.source, q.records, q.receivedAt);
      s' == Move(s, h, Publishing(Label(ids, events.value), {})).(issued := s.issued + (set i | 0 <= i < |ids| ::
          ids[i]))
  {
    hide Step, Reaches, Validated, PayloadBytes;
    var a := Judge(h, q.source, q.records, q.receivedAt, ids);
    JudgeIs(cfg, s, logs, h, q.source, q.records, q.receivedAt, ids);
    ReachStep(cfg, limit, torn, s, logs, a);
    s' := Step(cfg, s, logs, a).0;
    ReachFurther(cfg, limit, torn, s0, logs, s, logs, s', logs);
  }

  lemma Relabelled(env: Env, ids: seq<nat>, events: seq<Event>, bytes: nat)
    requires |ids| == |events| && Lines(env, events).Some? && ByteLen(Lines(env, events).value) == bytes
    ensures
      var recs := Label(ids, events);
      EventsOf(recs) == events && Encodable(env, recs) && PayloadBytes(env, recs) == bytes
  {
    hide Lines, ByteLen;
    assert EventsOf(Label(ids, events)) == events;
  }

  /** Any number of requests, as far as the semaphore lets them, with the same listing in hand. */
  lemma {:induction false} AllComeToWalk(
    cfg: Config, limit: nat, torn: bool, s: State, logs: Logs, qs: seq<Request>, bytes: nat, base: nat)
    returns (s': State, base': nat)
    requires cfg.hasPublisher && cfg.hasSpool && bytes <= limit && Below(s, base)
    requires forall q | q in qs :: Weighs(cfg, q, bytes)
    requires cfg.maxInFlight > 0 ==> s.tokens + |qs| <= cfg.maxInFlight
    ensures Reaches(cfg, limit, torn, s, logs, s', logs) && Below(s', base')
    ensures s' == s.(hs := s'.hs, tokens := s'.tokens, issued := s'.issued, tally := s'.tally)
    ensures s'.tokens == if cfg.maxInFlight > 0 then s.tokens + |qs| else s.tokens
    ensures |s'.hs| == |s.hs| + |qs| && s'.hs[..|s.hs|] == s.hs
    ensures forall h | |s.hs| <= h < |s'.hs| ::
              && s'.hs[h].Walking? && s'.hs[h].listed == s.files && Heavy(cfg.env, s'.hs[h], bytes)
              && Carries(cfg, s'.hs[h], qs[h - |s.hs|])
    decreases |qs|
  {
    hide Reaches, Weighs, Heavy, Carries;
    ReachSelf(cfg, limit, torn, s, logs);
    s', base' := s, base;
    if qs != [] {
      var s1 := ComesToWalk(cfg, limit, torn, s, logs, qs[0], bytes, base);
      s', base' := AllComeToWalk(cfg, limit, torn, s1, logs, qs[1..], bytes, base + |qs[0].records|);
      ReachFurther(cfg, limit, torn, s, logs, s1, logs, s', logs);
      assert s'.hs[..|s.hs|] == s'.hs[..|s1.hs|][..|s.hs|];
      assert s'.hs[|s.hs|] == s'.hs[..|s1.hs|][|s.hs|];
    }
  }

  // ---- All pass the test, then all write and leave ----

  /** Every request from `from` on passes the test on the same walk. */
  lemma {:induction false} AllPass(cfg: Config, limit: nat, torn: bool, s: State, logs: Logs, from: nat,
      walk: seq<SpoolUsage.Sight>, bytes: nat, listed: seq<Slot>)
    returns (s': State)
    requires from <= |s.hs| && (torn || Intake.WholeWalk(Admit(0, walk)))
    requires CanSee(cfg.env, listed, s.files, walk) && SpoolUsage.Refuses(walk, bytes, cfg.maxBytes) == Some(false)
    requires forall h | from <= h < |s.hs| ::
        s.hs[h].Walking? && s.hs[h].listed == listed && Heavy(cfg.env, s.hs[h], bytes)
    ensures Reaches(cfg, limit, torn, s, logs, s', logs)
    ensures s' == s.(hs := s'.hs) && |s'.hs| == |s.hs| && s'.hs[..from] == s.hs[..from]
    ensures forall h | from <= h < |s'.hs| ::
              s'.hs[h].Admitted? && s'.hs[h].recs == s.hs[h].recs && Heavy(cfg.env, s'.hs[h], bytes)
    decreases |s.hs| - from
  {
    hide Reaches, Step, CanSee, SpoolUsage.Refuses, PayloadBytes, Encodable;
    ReachSelf(cfg, limit, torn, s, logs);
    s' := s;
    if from < |s.hs| {
      AdmitIs(cfg, s, logs, from, walk);
      ReachStep(cfg, limit, torn, s, logs, Admit(from, walk));
      var s1 := ApplyAdmit(cfg, s, from, walk);
      s' := AllPass(cfg, limit, torn, s1, logs, from + 1, walk, bytes, listed);
      ReachFurther(cfg, limit, torn, s, logs, s1, logs, s', logs);
      assert s'.hs[from] == s'.hs[..from + 1][from];
      assert s'.hs[..from] == s'.hs[..from + 1][..from];
    }
  }

  lemma {:induction false} Appends(cfg: Config, limit: nat, torn: bool, s: State, logs: Logs, h: nat)
      returns (s': State)
    requires h < |s.hs| && s.hs[h].Writing? && s.hs[h].slot == |s.files| - 1
    requires s.hs[h].written <= |s.hs[h].recs| && s.files[s.hs[h].slot] == Tmp(s.hs[h].recs[..s.hs[h].written])
    ensures Reaches(cfg, limit, torn, s, logs, s', logs)
    ensures
      var recs := s.hs[h].recs;
      s' == Move(s, h, Writing(recs, s.hs[h].slot, |recs|)).(files := s.files[..|s.files| - 1] + [Tmp(recs)])
    decreases |s.hs[h].recs| - s.hs[h].written
  {
    hide Reaches, Step;
    var p, k := s.hs[h], |s.files| - 1;
    ReachSelf(cfg, limit, torn, s, logs);
    if p.written == |p.recs| {
      assert p.recs[..p.written] == p.recs && s.hs[h := p] == s.hs;
      assert s.files == s.files[..k] + [s.files[k]];
      s' := s;
    } else {
      AppendIs(cfg, s, logs, h);
      Onward(cfg, limit, torn, s, logs, s, logs, AppendTmp(h));
      var s1 := Move(s, h, Writing(p.recs, p.slot,
          p.written + 1)).(files := s.files[k := Tmp(p.recs[..p.written + 1])]);
      s' := Appends(cfg, limit, torn, s1, logs, h);
      ReachFurther(cfg, limit, torn, s, logs, s1, logs, s', logs);
      assert s1.files[..k] == s.files[..k];
      assert s'.hs == s.hs[h := Writing(p.recs, p.slot, |p.recs|)];
    }
  }

  /** An admitted request writes its batch as the next file. */
  lemma Writes(cfg: Config, limit: nat, torn: bool, s: State, logs: Logs, h: nat) returns (s': State)
    requires h < |s.hs| && s.hs[h].Admitted?
    ensures Reaches(cfg, limit, torn, s, logs, s', logs)
    ensures
      var recs := s.hs[h].recs;
      s' == Move(s, h, Stored(recs, true)).(files := s.files + [Final(recs)], origin := s.origin + [recs])
  {
    hide Reaches, Step;
    var recs, k := s.hs[h].recs, |s.files|;
    ReachSelf(cfg, limit, torn, s, logs);
    OpenIs(cfg, s, logs, h);
    Onward(cfg, limit, torn, s, logs, s, logs, OpenTmp(h));
    var s1 := Move(s, h, Writing(recs, k, 0)).(files := s.files + [Tmp([])], origin := s.origin + [recs]);
    assert recs[..0] == [];
    var s2 := Appends(cfg, limit, torn, s1, logs, h);
    ReachFurther(cfg, limit, torn, s, logs, s1, logs, s2, logs);
    assert s1.files[..k] == s.files;
    RenameIs(cfg, s2, logs, h);
    Onward(cfg, limit, torn, s, logs, s2, logs, Rename(h));
    s' := Step(cfg, s2, logs, Rename(h)).0;
    assert s'.files == s.files + [Final(recs)] && s'.hs == s.hs[h := Stored(recs, true)];
  }

  /** Every admitted request from `from` on writes its batch. */
  lemma {:induction false} AllWrite(cfg: Config, limit: nat, torn: bool, s: State, logs: Logs, from: nat, bytes: nat)
      returns (s': State)
    requires from <= |s.hs| && forall h | from <= h < |s.hs| :: s.hs[h].Admitted? && Heavy(cfg.env, s.hs[h], bytes)
    ensures Reaches(cfg, limit, torn, s, logs, s', logs)
    ensures s' == s.(hs := s'.hs, files := s'.files, origin := s'.origin)
    ensures |s'.hs| == |s.hs| && s'.hs[..from] == s.hs[..from]
    ensures |s'.files| == |s.files| + |s.hs| - from && s'.files[..|s.files|] == s.files
    ensures forall h | from <= h < |s.hs| ::
              s'.hs[h] == Stored(s.hs[h].recs, true) && s'.files[|s.files| + h - from] == Final(s.hs[h].recs)
    ensures UsedBytes(cfg.env, s'.files) == UsedBytes(cfg.env, s.files) + (|s.hs| - from) * bytes
    decreases |s.hs| - from
  {
    hide Reaches, PayloadBytes, Encodable, UsedBytes;
    ReachSelf(cfg, limit, torn, s, logs);
    s' := s;
    if from < |s.hs| {
      var s1 := Writes(cfg, limit, torn, s, logs, from);
      Intake.UsedPush(cfg.env, s.files, Final(s.hs[from].recs));
      s' := AllWrite(cfg, limit, torn, s1, logs, from + 1, bytes);
      ReachFurther(cfg, limit, torn, s, logs, s1, logs, s', logs);
      assert (|s.hs| - from) * bytes == bytes + (|s.hs| - (from + 1)) * bytes;
      assert s'.hs[..from] == s'.hs[..from + 1][..from] && s'.hs[from] == s'.hs[..from + 1][from];
      assert s'.files[..|s.files|] == s'.files[..|s1.files|][..|s.files|];
      assert s'.files[|s.files|] == s'.files[..|s1.files|][|s.files|];
    }
  }

  /** Every stored request from `from` on is answered and gives its slot back. */
  lemma {:induction false} AllLeave(cfg: Config, limit: nat, torn: bool, s: State, logs: Logs, from: nat)
      returns (s': State)
    requires from <= |s.hs| && forall h | from <= h < |s.hs| :: s.hs[h].Stored?
    requires cfg.maxInFlight > 0 ==> s.tokens >= |s.hs| - from
    ensures Reaches(cfg, limit, torn, s, logs, s', logs)
    ensures s' == s.(hs := s'.hs, tokens := s'.tokens, tally := s'.tally, accepted := s'.accepted)
    ensures s'.tokens == if cfg.maxInFlight > 0 then s.tokens - (|s.hs| - from) else s.tokens
    decreases |s.hs| - from
  {
    hide Reaches, Step;
    ReachSelf(cfg, limit, torn, s, logs);
    s' := s;
    if from < |s.hs| {
      AnswerIs(cfg, s, logs, from);
      Onward(cfg, limit, torn, s, logs, s, logs, Answer(from));
      var s1 := ApplyAnswer(s, from);
      ReleaseIs(cfg, s1, logs, from);
      Onward(cfg, limit, torn, s, logs, s1, logs, Release(from));
      var s2 := Step(cfg, s1, logs, Release(from)).0;
      s' := AllLeave(cfg, limit, torn, s2, logs, from + 1);
      ReachFurther(cfg, limit, torn, s, logs, s2, logs, s', logs);
    }
  }

  /** A request that is spooled with nothing else going on. */
  lemma Spools(cfg: Config, limit: nat, torn: bool, s: State, logs: Logs, q: Request, bytes: nat, base: nat)
      returns (s': State, recs: seq<Rec>)
    requires cfg.hasPublisher && cfg.hasSpool && Weighs(cfg, q, bytes) && bytes <= limit && Below(s, base)
    requires (cfg.maxInFlight > 0 ==> s.tokens < cfg.maxInFlight)
        && !SpoolUsage.Full(UsedBytes(cfg.env, s.files), bytes, cfg.maxBytes)
    ensures Reaches(cfg, limit, torn, s, logs, s', logs)
    ensures s' == s.(hs := s'.hs, files := s.files + [Final(recs)], origin := s.origin + [recs], issued := s'.issued,
        tally := s'.tally, accepted := s'.accepted)
    ensures recs != [] && Encodable(cfg.env, recs) && PayloadBytes(cfg.env, recs) == bytes
    ensures EventsOf(recs) == Validated(cfg, q.source, q.records, q.receivedAt).value && Below(s', base + |q.records|)
  {
    hide Reaches, Step, Weighs, PayloadBytes, Encodable, UsedBytes, CanSee, SpoolUsage.Refuses, Validated;
    var h, walk := |s.hs|, Sights(cfg.env, s.files);
    var s1 := ComesToWalk(cfg, limit, torn, s, logs, q, bytes, base);
    recs := s1.hs[h].recs;
    SightsCanBeSeen(cfg.env, s.files, s.files);
    QuietWalk(cfg, s.files, bytes);
    var s2 := AllPass(cfg, limit, torn, s1, logs, h, walk, bytes, s.files);
    var s3 := Writes(cfg, limit, torn, s2, logs, h);
    ReachFurther(cfg, limit, torn, s, logs, s1, logs, s2, logs);
    ReachFurther(cfg, limit, torn, s, logs, s2, logs, s3, logs);
    AnswerIs(cfg, s3, logs, h);
    Onward(cfg, limit, torn, s, logs, s3, logs, Answer(h));
    var s4 := ApplyAnswer(s3, h);
    ReleaseIs(cfg, s4, logs, h);
    Onward(cfg, limit, torn, s, logs, s4, logs, Release(h));
    s' := Step(cfg, s4, logs, Release(h)).0;
  }

  lemma QuietWalk(cfg: Config, files: seq<Slot>, bytes: nat)
    requires !SpoolUsage.Full(UsedBytes(cfg.env, files), bytes, cfg.maxBytes)
    ensures Intake.WholeWalk(Admit(0, Sights(cfg.env, files)))
    ensures SpoolUsage.Refuses(Sights(cfg.env, files), bytes, cfg.maxBytes) == Some(false)
  {
    hide UsedBytes, SpoolUsage.Look, Sights;
    SightsAreWhole(cfg.env, files);
    AllSeen(cfg.env, files);
  }

  /** The replayer publishes one more record of a file's batch to the first partition. */
  lemma RepublishesOne(cfg: Config, limit: nat, torn: bool, s: State, logs: Logs, i: nat)
      returns (s': State, more: Logs)
    requires s.replay.Sending? && i < |s.replay.recs| && Encodable(cfg.env, s.replay.recs) && |logs| > 0
    ensures Reaches(cfg, limit, torn, s, logs, s', more) && |more| == |logs|
    ensures s' == s.(replay := s.replay.(sent := s.replay.sent + {i}))
  {
    hide Reaches, Step, Encodable, Encode;
    ReachSelf(cfg, limit, torn, s, logs);
    EachEncodes(cfg.env, s.replay.recs, i);
    RedeliverIs(cfg, s, logs, i, 0);
    Onward(cfg, limit, torn, s, logs, s, logs, Redeliver(i, 0));
    s', more := s.(replay := s.replay.(sent := s.replay.sent + {i})), Append(cfg.env, logs, 0, s.replay.recs[i]);
  }

  /** And then the rest of it. */
  lemma {:induction false} Republishes(cfg: Config, limit: nat, torn: bool, s: State, logs: Logs, i: nat)
      returns (s': State, more: Logs)
    requires s.replay.Sending? && i <= |s.replay.recs| && Encodable(cfg.env, s.replay.recs) && |logs| > 0
    requires forall j | 0 <= j < i :: j in s.replay.sent
    ensures Reaches(cfg, limit, torn, s, logs, s', more) && |more| == |logs|
    ensures s'.replay.Sending? && s' == s.(replay := s.replay.(sent := s'.replay.sent))
        && AllSent(s.replay.recs, s'.replay.sent)
    decreases |s.replay.recs| - i
  {
    hide Reaches, Encodable;
    ReachSelf(cfg, limit, torn, s, logs);
    s', more := s, logs;
    if i < |s.replay.recs| {
      var s1, logs1 := RepublishesOne(cfg, limit, torn, s, logs, i);
      s', more := Republishes(cfg, limit, torn, s1, logs1, i + 1);
      ReachFurther(cfg, limit, torn, s, logs, s1, logs1, s', more);
    }
  }

  /** A pass of the replayer that publishes and removes one file. */
  lemma Replays(cfg: Config, limit: nat, torn: bool, s: State, logs: Logs, k: nat) returns (s': State, more: Logs)
    requires (s.replay.Idle? || s.replay == Pass([])) && k < |s.files| && s.files[k].Final? && s.files[k].recs != []
        && |logs| > 0
    requires Encodable(cfg.env, s.files[k].recs) && ReadSlot(cfg.env, s.files[k].recs) == Some(s.files[k].recs)
    ensures Reaches(cfg, limit, torn, s, logs, s', more) && |more| == |logs|
    ensures s' == s.(files := s.files[k := Gone], replay := Pass([]), tally := s'.tally)
  {
    hide Reaches, Step, Encodable, ReadSlot;
    var recs := s.files[k].recs;
    ReachSelf(cfg, limit, torn, s, logs);
    GlobIs(cfg, s, logs, [k]);
    Onward(cfg, limit, torn, s, logs, s, logs, Glob([k]));
    var s1 := s.(replay := Pass([k]));
    ReadIs(cfg, s1, logs, true, true);
    Onward(cfg, limit, torn, s, logs, s1, logs, ReadNext(true, true));
    var s2 := s.(replay := Sending(k, recs, {}, []));
    assert [k][1..] == [] && ApplyRead(cfg, s1, true, true) == s2;
    var s3, logs3 := Republishes(cfg, limit, torn, s2, logs, 0);
    ReachFurther(cfg, limit, torn, s, logs, s2, logs, s3, logs3);
    RepublishedIs(cfg, s3, logs3);
    Onward(cfg, limit, torn, s, logs, s3, logs3, Republished);
    var s4 := s.(replay := Clearing(k, recs, []));
    RemoveIs(cfg, s4, logs3, true);
    Onward(cfg, limit, torn, s, logs, s4, logs3, Remove(true));
    s', more := Step(cfg, s4, logs3, Remove(true)).0, logs3;
  }

  lemma NothingUsed(env: Env, s: State)
    requires Init(s)
    ensures UsedBytes(env, s.files) == 0
  {
  }

  lemma Reached(cfg: Config, limit: nat, s: State, logs: Logs, s': State, more: Logs)
    requires Reaches(cfg, limit, true, s, logs, s', more)
    ensures exists actions :: SmallRequests(cfg, actions, limit) && Run(cfg, s, logs, actions) == (s', more)
  {
    hide Run, SmallRequests;
    var actions :| Fair(cfg, limit, true, actions) && Run(cfg, s, logs, actions) == (s', more);
    assert SmallRequests(cfg, actions, limit);
  }
}
