/** A semaphore that admits one request at a time keeps the spool bounded even when files vanish during
    the walks: a request that passes unseen takes the place of a file that went. */
module Alone {
  import opened Text
  import opened Logline
  import opened Codec
  import opened Records
  import opened Api
  import opened Intake
  import opened Promises
  import Reach
  import SpoolUsage
  import Vanishing

  // ---- Counting finished files ----

  function Finals(files: seq<Slot>): nat {
    if files == [] then 0 else Finals(files[..|files| - 1]) + (if files[|files| - 1].Final? then 1 else 0)
  }

  lemma {:induction false} FinalsUpdate(files: seq<Slot>, k: nat, f: Slot)
    requires k < |files|
    ensures Finals(files[k := f]) == Finals(files) - (if files[k].Final? then 1 else 0) + (if f.Final? then 1 else 0)
  {
    var n := |files| - 1;
    if k < n {
      assert files[k := f][..n] == files[..n][k := f];
      FinalsUpdate(files[..n], k, f);
    } else {
      assert files[k := f][..n] == files[..n];
    }
  }

  /** Every finished file was finished in the listing already. */
  predicate Within(files: seq<Slot>, listed: seq<Slot>) {
    |listed| <= |files| && forall k | 0 <= k < |files| && files[k].Final? :: k < |listed| && listed[k] == files[k]
  }

  predicate WentSince(files: seq<Slot>, listed: seq<Slot>, k: nat) {
    k < |listed| && k < |files| && listed[k].Final? && files[k].Gone?
  }

  lemma {:induction false} FinalsWithin(files: seq<Slot>, listed: seq<Slot>)
    requires Within(files, listed)
    ensures Finals(files) <= Finals(listed)
    ensures forall k: nat | WentSince(files, listed, k) :: Finals(files) + 1 <= Finals(listed)
    decreases |files|
  {
    if files != [] {
      var n := |files| - 1;
      if |listed| == |files| {
        FinalsWithin(files[..n], listed[..n]);
        forall k: nat | WentSince(files, listed, k) ensures Finals(files) + 1 <= Finals(listed) {
          if k < n {
            assert WentSince(files[..n], listed[..n], k);
          }
        }
      } else {
        FinalsWithin(files[..n], listed);
        forall k: nat | WentSince(files, listed, k) ensures Finals(files) + 1 <= Finals(listed) {
          assert WentSince(files[..n], listed, k);
        }
      }
    }
  }

  /** Each finished file takes at least one byte and at most `limit`. */
  predicate Sized(env: Env, files: seq<Slot>, limit: nat) {
    forall k | 0 <= k < |files| && files[k].Final? :: 0 < PayloadBytes(env, files[k].recs) <= limit
  }

  lemma {:induction false} UsedOfSized(env: Env, files: seq<Slot>, limit: nat)
    requires Sized(env, files, limit)
    ensures Finals(files) <= UsedBytes(env, files) <= Finals(files) * limit
  {
    hide PayloadBytes;
    if files != [] {
      var n := |files| - 1;
      UsedOfSized(env, files[..n], limit);
      if files[n].Final? {
        assert Finals(files) * limit == Finals(files[..n]) * limit + limit;
      }
    }
  }

  /** A walk that comes out empty has met a file that went after the listing. */
  lemma {:induction false} HollowMeansGone(env: Env, listed: seq<Slot>, now: seq<Slot>, walk: seq<SpoolUsage.Sight>)
    requires CanSee(env, listed, now, walk) && SpoolUsage.Look(walk).Hollow?
    ensures exists k :: WentSince(now, listed, k)
  {
    hide PayloadBytes;
    if listed != [] {
      var n := |listed| - 1;
      if listed[n].Gone? {
        HollowMeansGone(env, listed[..n], now, walk);
        var k :| WentSince(now, listed[..n], k);
        assert WentSince(now, listed, k);
      } else if SpoolUsage.Look(walk[..|walk| - 1]).Hollow? {
        HollowMeansGone(env, listed[..n], now, walk[..|walk| - 1]);
        var k :| WentSince(now, listed[..n], k);
        assert WentSince(now, listed, k);
      } else {
        assert WentSince(now, listed, n);
      }
    }
  }

  // ---- The invariant ----

  /** What one request past its validation means for the files. */
  predicate HasRoom(cfg: Config, files: seq<Slot>, p: Phase, limit: nat) {
    match p
    case Publishing(recs, _) => recs != [] && PayloadBytes(cfg.env, recs) <= limit
    case Fallback(recs) => recs != [] && PayloadBytes(cfg.env, recs) <= limit
    case Walking(recs, listed) =>
      && 0 < PayloadBytes(cfg.env, recs) <= limit
      && Within(files, listed) && Sized(cfg.env, listed, limit) && Finals(listed) <= cfg.maxBytes
    case Admitted(recs) => 0 < PayloadBytes(cfg.env, recs) <= limit && Finals(files) + 1 <= cfg.maxBytes
    case Writing(recs, _, _) => 0 < PayloadBytes(cfg.env, recs) <= limit && Finals(files) + 1 <= cfg.maxBytes
    case _ => true
  }

  predicate AllFitIn(cfg: Config, s: State, limit: nat) {
    && Sized(cfg.env, s.files, limit) && Finals(s.files) <= cfg.maxBytes
    && forall h | 0 <= h < |s.hs| :: HasRoom(cfg, s.files, s.hs[h], limit)
  }

  lemma {:induction false} NoneInside(hs: seq<Phase>, h: nat)
    requires h < |hs| && Sum(hs, Token) <= 1 && Token(hs[h]) == 1
    ensures forall g | 0 <= g < |hs| && g != h :: Token(hs[g]) == 0
  {
    SumUpdate(hs, h, Left, Token);
    forall g | 0 <= g < |hs| && g != h ensures Token(hs[g]) == 0 {
      SumUpdate(hs[h := Left], g, Left, Token);
      TokensArePositive(hs[h := Left][g := Left]);
    }
  }

  /** When one request moves on, no other has anything at stake in the files. */
  lemma MovedAlone(cfg: Config, s: State, s': State, h: nat, limit: nat)
    requires TokensExact(cfg, s) && cfg.maxInFlight == 1 && AllFitIn(cfg, s, limit)
    requires h < |s.hs| == |s'.hs| && s'.hs == s.hs[h := s'.hs[h]] && Token(s.hs[h]) == 1
    requires Sized(cfg.env, s'.files, limit) && Finals(s'.files) <= cfg.maxBytes
        && HasRoom(cfg, s'.files, s'.hs[h], limit)
    ensures AllFitIn(cfg, s', limit)
  {
    hide Sized, PayloadBytes, Finals, Sum;
    NoneInside(s.hs, h);
  }

  /** When files only go, everything still fits. */
  lemma FewerFiles(cfg: Config, s: State, s': State, k: nat, limit: nat)
    requires AllFitIn(cfg, s, limit) && s'.hs == s.hs && k < |s.files| && s'.files == s.files[k := Gone]
    ensures AllFitIn(cfg, s', limit)
  {
    hide PayloadBytes, Finals;
    FinalsUpdate(s.files, k, Gone);
    forall h | 0 <= h < |s.hs| ensures HasRoom(cfg, s'.files, s.hs[h], limit) {
      assert HasRoom(cfg, s.files, s.hs[h], limit);
    }
  }

  lemma SameFiles(cfg: Config, s: State, s': State, limit: nat)
    requires AllFitIn(cfg, s, limit) && s'.files == s.files
    requires s'.hs == s.hs || s'.hs == [] || s'.hs == s.hs + [Arrived]
    ensures AllFitIn(cfg, s', limit)
  {
    hide Sized, PayloadBytes, Finals;
  }

  lemma AdmitFits(cfg: Config, s: State, logs: Logs, h: nat, walk: seq<SpoolUsage.Sight>, limit: nat)
    requires AllFitIn(cfg, s, limit) && cfg.maxBytes > 0 && Enabled(cfg, s, logs, Admit(h, walk))
    ensures HasRoom(cfg, s.files, ApplyAdmit(cfg, s, h, walk).hs[h], limit)
  {
    hide PayloadBytes, Finals, CanSee, SpoolUsage.Look, UsedBytes;
    var p := s.hs[h];
    assert HasRoom(cfg, s.files, p, limit);
    WalkCounts(cfg.env, p.listed, s.files, walk);
    FinalsWithin(s.files, p.listed);
    if SpoolUsage.Look(walk).Hollow? {
      HollowMeansGone(cfg.env, p.listed, s.files, walk);
    } else {
      UsedOfSized(cfg.env, p.listed, limit);
    }
  }

  lemma ListFits(cfg: Config, s: State, h: nat, live: bool, io: bool, limit: nat)
    requires AllFitIn(cfg, s, limit) && At(s, h).Fallback?
    ensures HasRoom(cfg, s.files, ApplyList(cfg, s, h, live, io).hs[h], limit)
  {
    hide PayloadBytes, Finals, Encodable;
    var recs := s.hs[h].recs;
    assert HasRoom(cfg, s.files, s.hs[h], limit);
    if Encodable(cfg.env, recs) {
      Positive(cfg.env, recs);
    }
  }

  lemma Positive(env: Env, recs: seq<Rec>)
    requires Encodable(env, recs) && recs != []
    ensures PayloadBytes(env, recs) > 0
  {
    hide Encode;
    var text := Lines(env, EventsOf(recs)).value;
    assert text != "";
  }

  lemma JudgeFits(cfg: Config, s: State, logs: Logs, a: Action, limit: nat)
    requires a.Judge? && Enabled(cfg, s, logs, a) && RequestBytes(cfg, a) <= limit
    ensures HasRoom(cfg, s.files, ApplyJudge(cfg, s, a.h, a.source, a.records, a.receivedAt, a.ids).hs[a.h], limit)
  {
    hide Validated, PayloadBytes, FreshIds;
    ValidationIsAllOrNothing(cfg, a.source, a.records, a.receivedAt);
  }

  /** A request that changes no file and is not at its walk. */
  lemma QuietFits(cfg: Config, s: State, logs: Logs, a: Action, limit: nat)
    requires AllFitIn(cfg, s, limit) && Enabled(cfg, s, logs, a) && Actor(a).Some?
    requires !a.Judge? && !a.ListDir? && !a.Admit? && !a.OpenTmp? && !a.AppendTmp? && !a.Rename?
    ensures
      var (s', h) := (Apply(cfg, s, logs, a).0, Actor(a).value);
      s'.files == s.files && h < |s.hs| == |s'.hs| && HasRoom(cfg, s.files, s'.hs[h], limit)
  {
    hide Append, Deliverable, PayloadBytes, Sized, Finals, Within, AllSent, ApplyJudge, ApplyRead, ApplyList;
    assert HasRoom(cfg, s.files, s.hs[Actor(a).value], limit);
  }

  /** The steps of writing a file. */
  lemma WriteFits(cfg: Config, s: State, logs: Logs, a: Action, limit: nat)
    requires FilesMatch(s) && AllFitIn(cfg, s, limit) && Enabled(cfg, s, logs, a)
        && (a.OpenTmp? || a.AppendTmp? || a.Rename?)
    ensures
      var (s', h) := (Apply(cfg, s, logs, a).0, Actor(a).value);
      && Sized(cfg.env, s'.files, limit) && Finals(s'.files) <= cfg.maxBytes
      && h < |s'.hs| && HasRoom(cfg, s'.files, s'.hs[h], limit)
  {
    hide PayloadBytes, Finals;
    var (s', h) := (Apply(cfg, s, logs, a).0, Actor(a).value);
    var p := s.hs[h];
    assert HasRoom(cfg, s.files, p, limit);
    if a.OpenTmp? {
      OneMore(s.files, Tmp([]));
    } else {
      assert s.files[p.slot].Tmp?;
      assert p.recs[..|p.recs|] == p.recs;
      FinalsUpdate(s.files, p.slot, s'.files[p.slot]);
    }
  }

  lemma OneMore(files: seq<Slot>, f: Slot)
    ensures Finals(files + [f]) == Finals(files) + (if f.Final? then 1 else 0)
  {
    assert (files + [f])[..|files|] == files;
  }

  lemma StepKeepsFit(cfg: Config, s: State, logs: Logs, a: Action, limit: nat)
    requires TokensExact(cfg, s) && FilesMatch(s) && cfg.maxInFlight == 1 && cfg.maxBytes > 0 && AllFitIn(cfg, s, limit)
    requires RequestBytes(cfg, a) <= limit
    ensures AllFitIn(cfg, Step(cfg, s, logs, a).0, limit)
  {
    if Enabled(cfg, s, logs, a) {
      OnePhaseMoves(cfg, s, logs, a);
      if Actor(a).Some? {
        ActorFits(cfg, s, logs, a, limit);
      } else {
        OthersFit(cfg, s, logs, a, limit);
      }
    }
  }

  lemma ActorFits(cfg: Config, s: State, logs: Logs, a: Action, limit: nat)
    requires TokensExact(cfg, s) && FilesMatch(s) && cfg.maxInFlight == 1 && cfg.maxBytes > 0 && AllFitIn(cfg, s, limit)
    requires RequestBytes(cfg, a) <= limit && Enabled(cfg, s, logs, a) && Actor(a).Some?
    ensures AllFitIn(cfg, Apply(cfg, s, logs, a).0, limit)
  {
    OnePhaseMoves(cfg, s, logs, a);
    ActorIs(cfg, s, logs, a);
    hide Apply, FilesMatch, TokensExact, RequestBytes, HasRoom;
    var (s', h) := (Apply(cfg, s, logs, a).0, Actor(a).value);
    match a
    case Acquire(_) => AcquireFits(cfg, s, logs, h, limit);
    case Judge(_, _, _, _, _) =>
      JudgeFits(cfg, s, logs, a, limit);
      MovedAlone(cfg, s, s', h, limit);
    case ListDir(_, live, io) =>
      ListFits(cfg, s, h, live, io, limit);
      MovedAlone(cfg, s, s', h, limit);
    case Admit(_, walk) =>
      AdmitFits(cfg, s, logs, h, walk, limit);
      MovedAlone(cfg, s, s', h, limit);
    case OpenTmp(_) =>
      WriteFits(cfg, s, logs, a, limit);
      MovedAlone(cfg, s, s', h, limit);
    case AppendTmp(_) =>
      WriteFits(cfg, s, logs, a, limit);
      MovedAlone(cfg, s, s', h, limit);
    case Rename(_) =>
      WriteFits(cfg, s, logs, a, limit);
      MovedAlone(cfg, s, s', h, limit);
    case _ =>
      QuietFits(cfg, s, logs, a, limit);
      MovedAlone(cfg, s, s', h, limit);
  }

  /** Which request acts, and how the steps that touch the spool begin. */
  lemma ActorIs(cfg: Config, s: State, logs: Logs, a: Action)
    requires Enabled(cfg, s, logs, a) && Actor(a).Some?
    ensures
      var (s', h) := (Apply(cfg, s, logs, a).0, Actor(a).value);
      && h < |s.hs| && (!a.Acquire? ==> Token(s.hs[h]) == 1)
      && (a.Judge? ==> s' == ApplyJudge(cfg, s, h, a.source, a.records, a.receivedAt, a.ids) && s'.files == s.files)
      && (a.ListDir? ==> s' == ApplyList(cfg, s, h, a.live, a.io) && s'.files == s.files)
      && (a.Admit? ==> s' == ApplyAdmit(cfg, s, h, a.walk) && s'.files == s.files)
  {
    hide Validated, CanSee, Encodable, SpoolUsage.Refuses, FreshIds, Deliverable;
  }

  lemma AcquireFits(cfg: Config, s: State, logs: Logs, h: nat, limit: nat)
    requires AllFitIn(cfg, s, limit) && Enabled(cfg, s, logs, Acquire(h))
    ensures AllFitIn(cfg, Apply(cfg, s, logs, Acquire(h)).0, limit)
  {
    hide Sized, PayloadBytes, Finals;
  }

  lemma OthersFit(cfg: Config, s: State, logs: Logs, a: Action, limit: nat)
    requires AllFitIn(cfg, s, limit) && Enabled(cfg, s, logs, a) && Actor(a).None?
    ensures AllFitIn(cfg, Apply(cfg, s, logs, a).0, limit)
  {
    OnePhaseMoves(cfg, s, logs, a);
    FilesOfOthers(cfg, s, logs, a);
    hide Apply, AllFitIn;
    var s' := Apply(cfg, s, logs, a).0;
    if s'.files == s.files {
      SameFiles(cfg, s, s', limit);
    } else {
      var k :| OneGoes(s, s', k);
      FewerFiles(cfg, s, s', k, limit);
    }
  }

  lemma FilesOfOthers(cfg: Config, s: State, logs: Logs, a: Action)
    requires Enabled(cfg, s, logs, a) && Actor(a).None?
    ensures
      var s' := Apply(cfg, s, logs, a).0;
      s'.files == s.files || exists k :: OneGoes(s, s', k)
  {
    hide ReadSlot, Append, Deliverable;
    var s' := Apply(cfg, s, logs, a).0;
    if a.ReadNext? && s'.files != s.files {
      assert OneGoes(s, s', s.replay.todo[0]);
    } else if a.Remove? && s'.files != s.files {
      assert OneGoes(s, s', s.replay.slot);
    }
  }

  predicate OneGoes(s: State, s': State, k: nat) {
    k < |s.files| && s'.files == s.files[k := Gone] && s'.hs == s.hs
  }

  lemma {:induction false} RunKeepsFit(cfg: Config, s: State, logs: Logs, actions: seq<Action>, limit: nat)
    requires Lawful(cfg.env) && Tallied(cfg, s) && FilesMatch(s) && cfg.maxInFlight == 1 && cfg.maxBytes > 0
    requires AllFitIn(cfg, s, limit) && SmallRequests(cfg, actions, limit)
    ensures AllFitIn(cfg, Run(cfg, s, logs, actions).0, limit)
    decreases |actions|
  {
    hide Step, Lawful, RequestBytes, FilesMatch, AllFitIn;
    if actions != [] {
      var a := actions[0];
      var (s', more) := Step(cfg, s, logs, a);
      assert a in actions;
      StepKeepsTally(cfg, s, logs, a);
      StepKeepsFiles(cfg, s, logs, a);
      StepKeepsFit(cfg, s, logs, a, limit);
      RunKeepsFit(cfg, s', more, actions[1..], limit);
    }
  }

  /** One request at a time, files vanishing or not: at most one payload for each byte of the capacity. */
  lemma OneAtATimeIsBounded(cfg: Config, s0: State, logs: Logs, actions: seq<Action>, limit: nat)
    requires Lawful(cfg.env) && Init(s0) && cfg.maxInFlight == 1 && cfg.maxBytes > 0
        && SmallRequests(cfg, actions, limit)
    ensures UsedBytes(cfg.env, Run(cfg, s0, logs, actions).0.files) <= cfg.maxBytes * limit
  {
    hide Run, Lawful, SmallRequests, UsedBytes;
    InitHolds(cfg, s0, logs);
    RunKeepsFit(cfg, s0, logs, actions, limit);
    var files := Run(cfg, s0, logs, actions).0.files;
    UsedOfSized(cfg.env, files, limit);
    Product(Finals(files), cfg.maxBytes, limit);
  }

  lemma Product(a: nat, b: nat, c: nat)
    requires a <= b
    ensures a * c <= b * c
  {
    assert b * c == a * c + (b - a) * c;
  }

  /** The spool stays below this in every run with requests of this size, whatever vanishes. */
  ghost predicate StaysBelow(cfg: Config, limit: nat, bound: nat) {
    forall s0, logs, actions | Init(s0) && SmallRequests(cfg, actions, limit) ::
      UsedBytes(cfg.env, Run(cfg, s0, logs, actions).0.files) <= bound
  }

  /** When files can vanish during walks, some bound holds exactly when the semaphore admits one request
      at a time. */
  lemma BoundedExactly(cfg: Config, q: Reach.Request, bytes: nat)
    requires Lawful(cfg.env) && cfg.hasPublisher && cfg.hasSpool && Vanishing.Suitable(cfg, q, bytes)
    ensures (exists bound :: StaysBelow(cfg, bytes, bound)) <==> cfg.maxInFlight == 1
  {
    hide Run, UsedBytes, SmallRequests, Lawful, Vanishing.Suitable;
    assert cfg.maxBytes > 0 by {
      Roomy(cfg, q, bytes);
    }
    if cfg.maxInFlight == 1 {
      forall s0, logs, actions | Init(s0) && SmallRequests(cfg, actions, bytes)
        ensures UsedBytes(cfg.env, Run(cfg, s0, logs, actions).0.files) <= cfg.maxBytes * bytes
      {
        OneAtATimeIsBounded(cfg, s0, logs, actions, bytes);
      }
      assert StaysBelow(cfg, bytes, cfg.maxBytes * bytes);
    } else if bound: nat :| StaysBelow(cfg, bytes, bound) {
      var s0, logs: Logs := State([], 0, [], [], Idle, ZERO, {}, {}), [[]];
      Vanishing.NoBoundWhenFilesVanish(cfg, s0, logs, q, bytes, bound);
      assert false;
    }
  }

  lemma Roomy(cfg: Config, q: Reach.Request, bytes: nat)
    requires Vanishing.Suitable(cfg, q, bytes)
    ensures cfg.maxBytes > 0
  {
  }
}
