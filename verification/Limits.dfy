/** Where the promises end, in runs that start from nothing: how far requests fill the spool when they are
    admitted together, and a request that is refused beside an empty spool. */
module Limits {
  import opened Text
  import opened Logline
  import opened Codec
  import opened Records
  import opened Api
  import opened Steps
  import opened Promises
  import opened Reach
  import Intake
  import SpoolUsage

  // ---- Filling the spool ----

  function Total(sizes: seq<nat>): nat {
    if sizes == [] then 0 else sizes[0] + Total(sizes[1..])
  }

  /** Requests that are spooled one after the other. */
  lemma {:induction false} SpoolsAll(
    cfg: Config, limit: nat, torn: bool, s: State, logs: Logs, qs: seq<Request>, sizes: seq<nat>, base: nat)
    returns (s': State, base': nat)
    requires cfg.hasPublisher && cfg.hasSpool && Below(s, base) && (cfg.maxInFlight > 0 ==> s.tokens < cfg.maxInFlight)
    requires |qs| == |sizes| && forall i | 0 <= i < |qs| :: Weighs(cfg, qs[i], sizes[i]) && sizes[i] <= limit
    requires cfg.maxBytes > 0 ==> UsedBytes(cfg.env, s.files) + Total(sizes) <= cfg.maxBytes
    ensures Reaches(cfg, limit, torn, s, logs, s', logs) && Below(s', base')
    ensures s'.tokens == s.tokens && s'.replay == s.replay
    ensures |s'.files| == |s.files| + |qs| && s'.files[..|s.files|] == s.files
    ensures UsedBytes(cfg.env, s'.files) == UsedBytes(cfg.env, s.files) + Total(sizes)
    decreases |qs|
  {
    hide Reaches, Weighs, UsedBytes, PayloadBytes, Encodable, Validated;
    ReachSelf(cfg, limit, torn, s, logs);
    s', base' := s, base;
    if qs != [] {
      var s1, recs := Spools(cfg, limit, torn, s, logs, qs[0], sizes[0], base);
      Intake.UsedPush(cfg.env, s.files, Final(recs));
      s', base' := SpoolsAll(cfg, limit, torn, s1, logs, qs[1..], sizes[1..], base + |qs[0].records|);
      ReachFurther(cfg, limit, torn, s, logs, s1, logs, s', logs);
      assert s'.files[..|s.files|] == s'.files[..|s1.files|][..|s.files|];
    }
  }

  /** Beside files that are there already, any number of concurrent requests for which one fits are all
      written: they have all passed the test before the first of them wrote. */
  lemma Burst(cfg: Config, limit: nat, s: State, logs: Logs, qs: seq<Request>, bytes: nat, base: nat)
      returns (s': State)
    requires cfg.hasPublisher && cfg.hasSpool && Below(s, base) && bytes <= limit
    requires (cfg.maxInFlight > 0 ==> s.tokens + |qs| <= cfg.maxInFlight) && forall q | q in qs :: Weighs(cfg, q, bytes)
    requires !SpoolUsage.Full(UsedBytes(cfg.env, s.files), bytes, cfg.maxBytes)
    ensures Reaches(cfg, limit, false, s, logs, s', logs)
    ensures UsedBytes(cfg.env, s'.files) == UsedBytes(cfg.env, s.files) + |qs| * bytes
  {
    hide Reaches, Weighs, Heavy, Reach.Carries, UsedBytes, CanSee, Sights, SpoolUsage.Refuses, SpoolUsage.Full;
    var walk := Sights(cfg.env, s.files);
    var s1, base1 := AllComeToWalk(cfg, limit, false, s, logs, qs, bytes, base);
    SightsCanBeSeen(cfg.env, s.files, s.files);
    QuietWalk(cfg, s.files, bytes);
    var s2 := AllPass(cfg, limit, false, s1, logs, |s.hs|, walk, bytes, s.files);
    s' := AllWrite(cfg, limit, false, s2, logs, |s.hs|, bytes);
    ReachFurther(cfg, limit, false, s, logs, s1, logs, s2, logs);
    ReachFurther(cfg, limit, false, s, logs, s2, logs, s', logs);
  }

  lemma {:induction false} TotalOfEqual(n: nat, bytes: nat)
    ensures Total(seq(n, _ => bytes)) == n * bytes
  {
    if n > 0 {
      assert seq(n, _ => bytes)[1..] == seq(n - 1, _ => bytes);
      TotalOfEqual(n - 1, bytes);
      assert n * bytes == bytes + (n - 1) * bytes;
    }
  }

  /** From nothing: fill the spool with requests of one size, leaving room for one more, and let any
      number of them come at once. */
  lemma FillThenBurst(cfg: Config, s0: State, logs: Logs, fill: seq<Request>, qs: seq<Request>, bytes: nat)
      returns (s: State)
    requires Init(s0) && cfg.hasPublisher && cfg.hasSpool && (cfg.maxInFlight > 0 ==> |qs| <= cfg.maxInFlight)
    requires (forall q | q in fill :: Weighs(cfg, q, bytes)) && (forall q | q in qs :: Weighs(cfg, q, bytes))
    requires cfg.maxBytes > 0 ==> |fill| * bytes + bytes <= cfg.maxBytes
    ensures Reaches(cfg, bytes, false, s0, logs, s, logs)
    ensures UsedBytes(cfg.env, s.files) == |fill| * bytes + |qs| * bytes
  {
    hide Reaches, Weighs, UsedBytes;
    var sizes: seq<nat> := seq(|fill|, _ => bytes);
    TotalOfEqual(|fill|, bytes);
    NothingUsed(cfg.env, s0);
    var s1, base := SpoolsAll(cfg, bytes, false, s0, logs, fill, sizes, 0);
    s := Burst(cfg, bytes, s1, logs, qs, bytes, base);
    ReachFurther(cfg, bytes, false, s0, logs, s1, logs, s, logs);
  }

  // ---- The bound is reached ----

  /** From nothing, for requests of any one size that fits the spool: with `k` of them fitting, and `n`
      at once as the semaphore allows, some run with whole walks ends with `k - 1 + n` payloads in the
      spool. Where they fill it exactly, `maxInFlight` of them attain the bound of SpoolIsBounded. */
  lemma BoundIsReached(cfg: Config, s0: State, logs: Logs, fill: seq<Request>, qs: seq<Request>, bytes: nat)
    requires Init(s0) && cfg.hasPublisher && cfg.hasSpool && (cfg.maxInFlight > 0 ==> |qs| <= cfg.maxInFlight)
    requires (forall q | q in fill :: Weighs(cfg, q, bytes)) && (forall q | q in qs :: Weighs(cfg, q, bytes))
    requires cfg.maxBytes > 0 ==> |fill| * bytes + bytes <= cfg.maxBytes
    ensures exists actions ::
              && SmallRequests(cfg, actions, bytes) && WholeWalks(actions)
              && UsedBytes(cfg.env, Run(cfg, s0, logs, actions).0.files) == (|fill| + |qs|) * bytes
              && (|fill| * bytes + bytes == cfg.maxBytes && |qs| == cfg.maxInFlight > 0 ==>
                    (|fill| + |qs|) * bytes == cfg.maxBytes + (cfg.maxInFlight - 1) * bytes)
  {
    hide Run, Weighs, UsedBytes, WholeWalks, SmallRequests;
    var s := FillThenBurst(cfg, s0, logs, fill, qs, bytes);
    var actions :| Fair(cfg, bytes, false, actions) && Run(cfg, s0, logs, actions) == (s, logs);
    Distributes(|fill|, |qs|, bytes);
    assert SmallRequests(cfg, actions, bytes) && WholeWalks(actions);
  }

  lemma Distributes(a: nat, b: nat, c: nat)
    ensures (a + b) * c == a * c + b * c
    ensures b > 0 ==> (a + b) * c == a * c + c + (b - 1) * c
  {
    if b > 0 {
      assert (a + b) * c == (a + 1 + (b - 1)) * c;
    }
  }

  /** The spool stays within its capacity in every run whose walks are whole. */
  ghost predicate StaysWithin(cfg: Config) {
    forall s0, logs, actions | Init(s0) && WholeWalks(actions) ::
      UsedBytes(cfg.env, Run(cfg, s0, logs, actions).0.files) <= cfg.maxBytes
  }

  /** Given any request that fits the spool and takes space in it, the spool stays within its capacity
      exactly when the semaphore admits one request at a time. */
  lemma StaysWithinExactly(cfg: Config, q: Request, bytes: nat)
    requires Lawful(cfg.env) && cfg.hasPublisher && cfg.hasSpool && Weighs(cfg, q, bytes) && 0 < bytes <= cfg.maxBytes
    ensures StaysWithin(cfg) <==> cfg.maxInFlight == 1
  {
    hide Run, Weighs, UsedBytes, WholeWalks, Lawful;
    if cfg.maxInFlight == 1 {
      forall s0, logs, actions | Init(s0) && WholeWalks(actions)
        ensures UsedBytes(cfg.env, Run(cfg, s0, logs, actions).0.files) <= cfg.maxBytes
      {
        InitHolds(cfg, s0, logs);
        NothingUsed(cfg.env, s0);
        LargestIsLargest(cfg, actions);
        SpoolIsBounded(cfg, s0, logs, actions, Largest(cfg, actions));
      }
    } else {
      var s0, logs: Logs := State([], 0, [], [], Idle, ZERO, {}, {}), [];
      var k := cfg.maxBytes / bytes;
      Quotient(cfg.maxBytes, bytes);
      BoundIsReached(cfg, s0, logs, seq(k - 1, _ => q), [q, q], bytes);
      var actions :| WholeWalks(actions)
          && UsedBytes(cfg.env, Run(cfg, s0, logs, actions).0.files) == (k - 1 + 2) * bytes;
      assert UsedBytes(cfg.env, Run(cfg, s0, logs, actions).0.files) > cfg.maxBytes;
    }
  }

  lemma Quotient(a: nat, b: nat)
    requires 0 < b <= a
    ensures a / b >= 1 && (a / b - 1) * b + b <= a < (a / b - 1 + 2) * b
  {
    assert a == a / b * b + a % b;
    assert (a / b - 1) * b + b == a / b * b && (a / b - 1 + 2) * b == a / b * b + b;
  }

  /** The largest request of a run. */
  function Largest(cfg: Config, actions: seq<Action>): nat {
    if actions == [] then 0
    else
      var rest := Largest(cfg, actions[1..]);
      if RequestBytes(cfg, actions[0]) > rest then RequestBytes(cfg, actions[0]) else rest
  }

  lemma {:induction false} LargestIsLargest(cfg: Config, actions: seq<Action>)
    ensures SmallRequests(cfg, actions, Largest(cfg, actions))
  {
    hide RequestBytes;
    if actions != [] {
      LargestIsLargest(cfg, actions[1..]);
      assert actions == [actions[0]] + actions[1..];
    }
  }

  /** Without a semaphore there is no bound: `n` requests at once spool `n` payloads, whatever the
      capacity. */
  lemma NoSemaphoreNoBound(cfg: Config, s0: State, logs: Logs, q: Request, bytes: nat, n: nat)
    requires Init(s0) && cfg.hasPublisher && cfg.hasSpool && cfg.maxInFlight == 0
    requires Weighs(cfg, q, bytes) && (cfg.maxBytes > 0 ==> bytes <= cfg.maxBytes)
    ensures exists actions ::
              && SmallRequests(cfg, actions, bytes) && WholeWalks(actions)
              && UsedBytes(cfg.env, Run(cfg, s0, logs, actions).0.files) == n * bytes
  {
    hide Run, Weighs, UsedBytes, WholeWalks, SmallRequests;
    BoundIsReached(cfg, s0, logs, [], seq(n, _ => q), bytes);
  }

  // ---- A fallback that comes too late ----

  /** The design answers 503 only when no durable path remains. Yet from nothing there is a run that
      refuses a valid request beside an empty spool, with every file operation sound: publishing used
      up the request's context, and the fallback runs under the same one. Had the context been alive,
      the request would have been admitted from the same state. */
  lemma LateFallbackIsRefused(cfg: Config, s0: State, logs: Logs, q: Request, bytes: nat) returns (s: State)
    requires Init(s0) && cfg.hasPublisher && cfg.hasSpool && Weighs(cfg, q, bytes)
        && (cfg.maxBytes > 0 ==> bytes <= cfg.maxBytes)
    ensures Reaches(cfg, bytes, false, s0, logs, s, logs) && |s.hs| == 1 && s.files == []
    ensures
      var refused := Run(cfg, s, logs, [ListDir(0, false, true), Reject(0), Release(0)]).0;
      refused.hs == [Left] && refused.accepted == {} && refused.files == [] && refused.tally.rejectedRequests == 1
    ensures At(Run(cfg, s, logs, [ListDir(0, true, true), Admit(0, [])]).0, 0).Admitted?
  {
    hide Run, Step, Weighs, PayloadBytes, Encodable, Validated, Reaches;
    s := ComesToFallback(cfg, bytes, false, s0, logs, q, bytes, 0);
    ListIs(cfg, s, logs, 0, false, true);
    var s1 := ApplyList(cfg, s, 0, false, true);
    RejectIs(cfg, s1, logs, 0);
    var s2 := Step(cfg, s1, logs, Reject(0)).0;
    ReleaseIs(cfg, s2, logs, 0);
    RunThree(cfg, s, logs, ListDir(0, false, true), Reject(0), Release(0));
    ListIs(cfg, s, logs, 0, true, true);
    var t := ApplyList(cfg, s, 0, true, true);
    AdmitIs(cfg, t, logs, 0, []);
    RunTwo(cfg, s, logs, ListDir(0, true, true), Admit(0, []));
  }

  lemma RunTwo(cfg: Config, s: State, logs: Logs, a: Action, b: Action)
    ensures Run(cfg, s, logs, [a, b]) == (var (s', more) := Step(cfg, s, logs, a); Step(cfg, s', more, b))
  {
    hide Step, Run;
    var (s', more) := Step(cfg, s, logs, a);
    RunOne(cfg, s, logs, a);
    RunOne(cfg, s', more, b);
    RunTwice(cfg, s, logs, [a], [b]);
    assert [a] + [b] == [a, b];
  }

  lemma RunThree(cfg: Config, s: State, logs: Logs, a: Action, b: Action, c: Action)
    ensures
      var (s1, logs1) := Step(cfg, s, logs, a);
      var (s2, logs2) := Step(cfg, s1, logs1, b);
      Run(cfg, s, logs, [a, b, c]) == Step(cfg, s2, logs2, c)
  {
    hide Step, Run;
    var (s1, logs1) := Step(cfg, s, logs, a);
    RunOne(cfg, s, logs, a);
    RunTwo(cfg, s1, logs1, b, c);
    RunTwice(cfg, s, logs, [a], [b, c]);
    assert [a] + [b, c] == [a, b, c];
  }
}
