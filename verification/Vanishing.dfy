/** The spool when files vanish during the walks of the capacity test: with more than one request at a
    time nothing bounds it, with one at a time it stays bounded. */
module Vanishing {
  import opened Text
  import opened Logline
  import opened Codec
  import opened Records
  import opened Api
  import opened Steps
  import opened Promises
  import opened Reach
  import opened Limits
  import Intake
  import SpoolUsage

  // ---- A round ----

  /** A request that fits the spool, takes space in it, and can be read back from it. */
  ghost predicate Suitable(cfg: Config, q: Request, bytes: nat) {
    && Weighs(cfg, q, bytes) && 0 < bytes <= cfg.maxBytes
    && AllFit(cfg.env, Validated(cfg, q.source, q.records, q.receivedAt).value)
  }

  /** A finished file with the batch of this request. */
  predicate FileOf(cfg: Config, f: Slot, q: Request) {
    var events := Validated(cfg, q.source, q.records, q.receivedAt);
    f.Final? && f.recs != [] && events.Ok? && EventsOf(f.recs) == events.value
  }

  /** Nothing goes on, and the last file holds the batch of this request. */
  predicate Quiet(cfg: Config, s: State, q: Request, base: nat) {
    && s.tokens == 0 && (s.replay.Idle? || s.replay == Pass([])) && Below(s, base)
    && s.files != [] && FileOf(cfg, s.files[|s.files| - 1], q)
  }

  lemma FileIsReadable(cfg: Config, f: Slot, q: Request, bytes: nat)
    requires Lawful(cfg.env) && Suitable(cfg, q, bytes) && FileOf(cfg, f, q)
    ensures Encodable(cfg.env, f.recs) && PayloadBytes(cfg.env, f.recs) == bytes
        && ReadSlot(cfg.env, f.recs) == Some(f.recs)
  {
    hide Validated, Lines, ByteLen, AllFit, ReadSlot, Lawful;
    ReadSlotExactly(cfg.env, f.recs);
  }

  /** A walk of a directory from which one file was removed before the walk came to it. */
  lemma {:induction false} OneVanishes(env: Env, files: seq<Slot>, now: seq<Slot>, k: nat)
      returns (walk: seq<SpoolUsage.Sight>)
    requires k < |files| <= |now| && files[k].Final? && now[k].Gone?
    ensures CanSee(env, files, now, walk) && SpoolUsage.Look(walk).Hollow?
    decreases |files|
  {
    hide PayloadBytes;
    var n := |files| - 1;
    if k == n {
      var rest := Sights(env, files[..n]);
      walk := rest + [SpoolUsage.Vanished];
      SightsCanBeSeen(env, files[..n], now);
      AllSeen(env, files[..n]);
      assert walk[..|walk| - 1] == rest;
      SpoolUsage.LookFails(walk, |rest|);
    } else {
      var rest := OneVanishes(env, files[..n], now, k);
      walk := rest + match files[n]
        case Tmp(_) => [SpoolUsage.Seen(SpoolUsage.Temporary)]
        case Final(recs) => [SpoolUsage.Seen(SpoolUsage.Regular(PayloadBytes(env, recs)))]
        case Gone => [];
      if files[n].Gone? {
        assert walk == rest;
      } else {
        assert walk[..|walk| - 1] == rest;
      }
    }
  }

  /** `n` walks are under way when one file goes; all of them count nothing, all requests pass, write and
      leave. */
  lemma PassUnseen(cfg: Config, s: State, logs: Logs, k: nat, qs: seq<Request>, bytes: nat, base: nat)
      returns (s': State, more: Logs, base': nat)
    requires Lawful(cfg.env) && |logs| > 0 && cfg.hasPublisher && cfg.hasSpool && bytes <= cfg.maxBytes
        && Below(s, base)
    requires s.tokens == 0 && (s.replay.Idle? || s.replay == Pass([]))
        && (cfg.maxInFlight > 0 ==> |qs| <= cfg.maxInFlight)
    requires forall q | q in qs :: Weighs(cfg, q, bytes)
    requires k < |s.files| && s.files[k].Final? && s.files[k].recs != [] && Encodable(cfg.env, s.files[k].recs)
    requires ReadSlot(cfg.env, s.files[k].recs) == Some(s.files[k].recs)
    ensures Reaches(cfg, bytes, true, s, logs, s', more) && |more| == |logs| && Below(s', base')
    ensures s'.tokens == 0 && s'.replay == Pass([])
    ensures UsedBytes(cfg.env, s'.files) == UsedBytes(cfg.env, s.files) - PayloadBytes(cfg.env, s.files[k].recs)
        + |qs| * bytes
    ensures |s'.files| == |s.files| + |qs|
    ensures qs != [] ==> FileOf(cfg, s'.files[|s'.files| - 1], qs[|qs| - 1])
  {
    hide Reaches, Weighs, Heavy, Reach.Carries, FileOf, UsedBytes, PayloadBytes, Encodable, ReadSlot, Lawful, CanSee,
        SpoolUsage.Look;
    var s1;
    s1, base' := AllComeToWalk(cfg, bytes, true, s, logs, qs, bytes, base);
    var s2;
    s2, more := Replays(cfg, bytes, true, s1, logs, k);
    var walk := OneVanishes(cfg.env, s.files, s2.files, k);
    var s3 := AllPass(cfg, bytes, true, s2, more, |s.hs|, walk, bytes, s.files);
    var s4 := AllWrite(cfg, bytes, true, s3, more, |s.hs|, bytes);
    s' := AllLeave(cfg, bytes, true, s4, more, |s.hs|);
    Intake.UsedUpdate(cfg.env, s.files, k, Gone);
    if qs != [] {
      LastWritten(cfg, s1, s4, |s1.hs| - 1, qs[|qs| - 1]);
    }
    ReachFurther(cfg, bytes, true, s, logs, s1, logs, s2, more);
    ReachFurther(cfg, bytes, true, s, logs, s2, more, s3, more);
    ReachFurther(cfg, bytes, true, s, logs, s3, more, s4, more);
    ReachFurther(cfg, bytes, true, s, logs, s4, more, s', more);
  }

  /** A round of two requests: the last file goes, and two take its place. */
  lemma Round(cfg: Config, s: State, logs: Logs, q: Request, bytes: nat, base: nat)
      returns (s': State, more: Logs, base': nat)
    requires Lawful(cfg.env) && |logs| > 0 && cfg.hasPublisher && cfg.hasSpool && Suitable(cfg, q, bytes)
        && Quiet(cfg, s, q, base)
    requires cfg.maxInFlight != 1
    ensures Reaches(cfg, bytes, true, s, logs, s', more) && |more| > 0 && Quiet(cfg, s', q, base')
    ensures UsedBytes(cfg.env, s'.files) == UsedBytes(cfg.env, s.files) + bytes
  {
    hide Reaches, Weighs, FileOf, UsedBytes, PayloadBytes, Encodable, Validated, AllFit, ReadSlot, Lawful;
    var k := |s.files| - 1;
    FileIsReadable(cfg, s.files[k], q, bytes);
    FinalOf(cfg, s.files[k], q);
    s', more, base' := PassUnseen(cfg, s, logs, k, [q, q], bytes, base);
  }

  lemma FinalOf(cfg: Config, f: Slot, q: Request)
    requires FileOf(cfg, f, q)
    ensures f.Final? && f.recs != []
  {
  }

  /** A request that carried this batch to its walk has written it. */
  lemma LastWritten(cfg: Config, s: State, s': State, h: nat, q: Request)
    requires h < |s.hs| && Reach.Carries(cfg, s.hs[h], q)
    requires s'.files != [] && s'.files[|s'.files| - 1] == Final(s.hs[h].recs)
    ensures FileOf(cfg, s'.files[|s'.files| - 1], q)
  {
  }

  /** Any number of rounds with two requests. */
  lemma {:induction false} Rounds(cfg: Config, s: State, logs: Logs, q: Request, bytes: nat, n: nat, base: nat)
      returns (s': State, more: Logs)
    requires Lawful(cfg.env) && |logs| > 0 && cfg.hasPublisher && cfg.hasSpool && Suitable(cfg, q, bytes)
        && Quiet(cfg, s, q, base)
    requires cfg.maxInFlight != 1
    ensures Reaches(cfg, bytes, true, s, logs, s', more)
    ensures UsedBytes(cfg.env, s'.files) == UsedBytes(cfg.env, s.files) + n * bytes
    decreases n
  {
    hide Reaches, Suitable, Quiet, UsedBytes, Lawful;
    ReachSelf(cfg, bytes, true, s, logs);
    s', more := s, logs;
    if n > 0 {
      var s1, logs1, base1 := Round(cfg, s, logs, q, bytes, base);
      s', more := Rounds(cfg, s1, logs1, q, bytes, n - 1, base1);
      ReachFurther(cfg, bytes, true, s, logs, s1, logs1, s', more);
      assert n * bytes == bytes + (n - 1) * bytes;
    }
  }

  /** When files can vanish during walks, and the semaphore does not admit one request at a time, no bound
      holds: whatever the capacity and the size of the requests, some run from nothing ends above any
      given number of bytes. */
  lemma NoBoundWhenFilesVanish(cfg: Config, s0: State, logs: Logs, q: Request, bytes: nat, bound: nat)
    requires Lawful(cfg.env) && Init(s0) && |logs| > 0 && cfg.hasPublisher && cfg.hasSpool
    requires Suitable(cfg, q, bytes) && cfg.maxInFlight != 1
    ensures exists actions ::
              SmallRequests(cfg, actions, bytes) && UsedBytes(cfg.env, Run(cfg, s0, logs, actions).0.files) > bound
  {
    hide Run, Reaches, Weighs, UsedBytes, PayloadBytes, Encodable, Validated, AllFit, Lawful, SmallRequests;
    NothingUsed(cfg.env, s0);
    var s1, recs := Spools(cfg, bytes, true, s0, logs, q, bytes, 0);
    Intake.UsedPush(cfg.env, s0.files, Final(recs));
    SpooledIsFile(cfg, recs, q, bytes);
    var s2, more := Rounds(cfg, s1, logs, q, bytes, bound, |q.records|);
    ReachFurther(cfg, bytes, true, s0, logs, s1, logs, s2, more);
    assert bound * bytes >= bound;
    Reached(cfg, bytes, s0, logs, s2, more);
  }

  lemma SpooledIsFile(cfg: Config, recs: seq<Rec>, q: Request, bytes: nat)
    requires Weighs(cfg, q, bytes) && recs != []
        && EventsOf(recs) == Validated(cfg, q.source, q.records, q.receivedAt).value
    ensures FileOf(cfg, Final(recs), q)
  {
    hide Validated, Lines, ByteLen;
  }

  /** Even one request at a time can take the spool past its capacity: a small file vanishes during the
      walk of a larger request. For any number of requests at once the bound of SpoolIsBounded breaks. */
  lemma VanishedFileBreaksTheBound(
    cfg: Config, s0: State, logs: Logs, one: Request, a: nat, fill: seq<Request>, qs: seq<Request>, bytes: nat)
    requires Lawful(cfg.env) && Init(s0) && |logs| > 0 && cfg.hasPublisher && cfg.hasSpool
        && |qs| == cfg.maxInFlight > 0
    requires Suitable(cfg, one, a) && (forall q | q in fill :: Weighs(cfg, q, bytes))
        && (forall q | q in qs :: Weighs(cfg, q, bytes))
    requires a <= bytes && a + |fill| * bytes <= cfg.maxBytes < |fill| * bytes + bytes && bytes <= cfg.maxBytes
    ensures exists actions ::
              && SmallRequests(cfg, actions, bytes)
              && UsedBytes(cfg.env, Run(cfg, s0, logs, actions).0.files) > cfg.maxBytes + (cfg.maxInFlight - 1) * bytes
  {
    hide Run, Reaches, Weighs, UsedBytes, PayloadBytes, Encodable, Validated, AllFit, ReadSlot, FileOf, Lawful,
        SmallRequests;
    NothingUsed(cfg.env, s0);
    var s1, recs := Spools(cfg, bytes, true, s0, logs, one, a, 0);
    Intake.UsedPush(cfg.env, s0.files, Final(recs));
    SpooledIsFile(cfg, recs, one, a);
    FileIsReadable(cfg, Final(recs), one, a);
    var sizes: seq<nat> := seq(|fill|, _ => bytes);
    TotalOfEqual(|fill|, bytes);
    var s2, base := SpoolsAll(cfg, bytes, true, s1, logs, fill, sizes, |one.records|);
    assert s2.files[0] == s2.files[..1][0] == Final(recs);
    var s3, more, base' := PassUnseen(cfg, s2, logs, 0, qs, bytes, base);
    ReachFurther(cfg, bytes, true, s0, logs, s1, logs, s2, logs);
    ReachFurther(cfg, bytes, true, s0, logs, s2, logs, s3, more);
    assert cfg.maxInFlight * bytes == bytes + (cfg.maxInFlight - 1) * bytes;
    Reached(cfg, bytes, s0, logs, s3, more);
  }
}
