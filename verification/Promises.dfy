/** The promises of the log API over whole runs: any requests, any interleaving of handlers and
    replayer, any failures, any crashes. */
module Promises {
  import opened Text
  import opened Logline
  import opened Codec
  import opened Records
  import opened Api
  import opened Intake
  import opened Durability
  import SpoolUsage

  predicate Tallied(cfg: Config, s: State) {
    TokensExact(cfg, s) && RequestsExact(s) && ErrorsExact(s)
  }

  ghost predicate Inv(cfg: Config, s: State, logs: Logs) {
    Tallied(cfg, s) && FilesMatch(s) && Placed(cfg.env, s, logs)
  }

  function Run(cfg: Config, s: State, logs: Logs, actions: seq<Action>): (State, Logs)
    decreases |actions|
  {
    if actions == [] then (s, logs)
    else
      var (s', more) := Step(cfg, s, logs, actions[0]);
      Run(cfg, s', more, actions[1..])
  }

  lemma StepKeepsTally(cfg: Config, s: State, logs: Logs, a: Action)
    requires Tallied(cfg, s)
    ensures Tallied(cfg, Step(cfg, s, logs, a).0)
  {
    hide Step, TokensExact, RequestsExact, ErrorsExact;
    StepKeepsTokens(cfg, s, logs, a);
    StepKeepsRequests(cfg, s, logs, a);
    StepKeepsErrors(cfg, s, logs, a);
  }

  lemma StepKeeps(cfg: Config, s: State, logs: Logs, a: Action)
    requires Lawful(cfg.env) && Inv(cfg, s, logs)
    ensures
      var (s', more) := Step(cfg, s, logs, a);
      Inv(cfg, s', more) && Extends(logs, more) && (Readable(cfg.env, logs) ==> Readable(cfg.env, more))
  {
    hide Step, Tallied, FilesMatch, Placed, Lawful, Readable;
    StepKeepsTally(cfg, s, logs, a);
    StepKeepsFiles(cfg, s, logs, a);
    StepKeepsPlaced(cfg, s, logs, a);
  }

  lemma {:induction false} RunKeeps(cfg: Config, s: State, logs: Logs, actions: seq<Action>)
    requires Lawful(cfg.env) && Inv(cfg, s, logs)
    ensures
      var (s', more) := Run(cfg, s, logs, actions);
      Inv(cfg, s', more) && Extends(logs, more) && (Readable(cfg.env, logs) ==> Readable(cfg.env, more))
    decreases |actions|
  {
    hide Step, Inv, Lawful, Readable;
    if actions != [] {
      StepKeeps(cfg, s, logs, actions[0]);
      var (s', more) := Step(cfg, s, logs, actions[0]);
      RunKeeps(cfg, s', more, actions[1..]);
    }
  }

  lemma {:induction false} RunKeepsTally(cfg: Config, s: State, logs: Logs, actions: seq<Action>)
    requires Tallied(cfg, s)
    ensures Tallied(cfg, Run(cfg, s, logs, actions).0)
    decreases |actions|
  {
    hide Step, Tallied;
    if actions != [] {
      StepKeepsTally(cfg, s, logs, actions[0]);
      var (s', more) := Step(cfg, s, logs, actions[0]);
      RunKeepsTally(cfg, s', more, actions[1..]);
    }
  }

  /** A process that starts, on whatever is in the spool directory: each file is a part of a batch under
      its temporary name, a whole batch, or gone. */
  predicate Started(s: State) {
    && s.hs == [] && s.tokens == 0 && s.replay.Idle? && s.tally == ZERO
    && |s.origin| == |s.files| && forall k | 0 <= k < |s.files| && s.files[k].Final? :: s.files[k].recs == s.origin[k]
  }

  lemma StartHolds(cfg: Config, s: State)
    requires Started(s)
    ensures Tallied(cfg, s) && FilesMatch(s)
  {
  }

  lemma InitHolds(cfg: Config, s: State, logs: Logs)
    requires Init(s)
    ensures Inv(cfg, s, logs) && Started(s)
  {
  }

  // ---- The promises ----

  /** Accepted input is not dropped: in every run, each record of a request answered with 202 is in a
      finished spool file or in the topic; and a topic whose messages decode keeps to that. */
  lemma AcceptedIsDurable(cfg: Config, s0: State, logs: Logs, actions: seq<Action>)
    requires Lawful(cfg.env) && Init(s0)
    ensures
      var (s, more) := Run(cfg, s0, logs, actions);
      && (forall r | r in s.accepted :: FromApi(cfg.env, r.event) && Durable(cfg.env, s, more, r))
      && Extends(logs, more) && (Readable(cfg.env, logs) ==> Readable(cfg.env, more))
  {
    hide Run, Readable, FromApi, Durable, Lawful;
    InitHolds(cfg, s0, logs);
    RunKeeps(cfg, s0, logs, actions);
  }

  /** At most `maxInFlight` requests are inside the handler, and the semaphore counts exactly those. */
  lemma SemaphoreIsExact(cfg: Config, s0: State, logs: Logs, actions: seq<Action>)
    requires Started(s0) && cfg.maxInFlight > 0
    ensures
      var s := Run(cfg, s0, logs, actions).0;
      s.tokens == Sum(s.hs, Token) <= cfg.maxInFlight
  {
    hide Run, Sum;
    StartHolds(cfg, s0);
    RunKeepsTally(cfg, s0, logs, actions);
  }

  lemma {:induction false} NoneUndecided(hs: seq<Phase>, w: Phase -> int)
    requires forall h | 0 <= h < |hs| :: w(hs[h]) == 0
    ensures Sum(hs, w) == 0
  {
    if hs != [] {
      NoneUndecided(hs[..|hs| - 1], w);
    }
  }

  /** In every run each request is accepted, rejected or undecided; and once all are decided, requests
      are batches plus rejections, and publish errors are spooled batches, spool errors and rejections
      for want of a spool. */
  lemma RequestsAreAccountedFor(cfg: Config, s0: State, logs: Logs, actions: seq<Action>)
    requires Started(s0)
    ensures
      var s, t := Run(cfg, s0, logs, actions).0, Run(cfg, s0, logs, actions).0.tally;
      && t.requests == t.batches + t.rejectedRequests + Sum(s.hs, Undecided)
      && t.kafkaErrors == t.spoolBatches + t.spoolErrors + t.unspooled + Sum(s.hs, OpenError)
      && ((forall h | 0 <= h < |s.hs| :: s.hs[h].Left?) ==>
            t.requests == t.batches + t.rejectedRequests
                && t.kafkaErrors == t.spoolBatches + t.spoolErrors + t.unspooled)
  {
    hide Run, Sum;
    StartHolds(cfg, s0);
    RunKeepsTally(cfg, s0, logs, actions);
    var s := Run(cfg, s0, logs, actions).0;
    if forall h | 0 <= h < |s.hs| :: s.hs[h].Left? {
      NoneUndecided(s.hs, Undecided);
      NoneUndecided(s.hs, OpenError);
    }
  }

  /** Spool files are published whole. In every run a file holds a part of its batch under its
      temporary name, or all of it, or is gone and all of it is in the topic; and what the replayer
      publishes is always the whole batch of its file. */
  lemma PublicationIsAtomic(cfg: Config, s0: State, logs: Logs, actions: seq<Action>)
    requires Lawful(cfg.env) && Init(s0)
    ensures
      var (s, more) := Run(cfg, s0, logs, actions);
      && |s.origin| == |s.files|
      && (forall k | 0 <= k < |s.files| :: s.files[k].Final? ==> s.files[k].recs == s.origin[k] != [])
      && (forall k | 0 <= k < |s.files| :: s.files[k].Gone? ==> AllLogged(cfg.env, more, s.origin[k]))
      && (s.replay.Sending? || s.replay.Clearing? ==>
            s.replay.slot < |s.files| && s.files[s.replay.slot].Final? && s.replay.recs == s.origin[s.replay.slot])
      && (s.replay.Clearing? ==> AllLogged(cfg.env, more, s.replay.recs))
  {
    hide Run, Readable, Lawful, AllLogged;
    InitHolds(cfg, s0, logs);
    RunKeeps(cfg, s0, logs, actions);
    var (s, more) := Run(cfg, s0, logs, actions);
    ReplayedFileIsFinal(s);
    assert FinalsAreValid(cfg.env, s);
  }

  // ---- The size of the spool ----

  /** What a request would write to the spool, from its validation on. */
  function Payload(env: Env, p: Phase): nat {
    if p.Publishing? || p.Fallback? || p.Walking? || p.Admitted? || p.Writing? then PayloadBytes(env, p.recs) else 0
  }

  ghost predicate AllSmall(env: Env, s: State, limit: nat) {
    forall h | 0 <= h < |s.hs| :: Payload(env, s.hs[h]) <= limit
  }

  /** The bytes that the batch of a request takes in the spool. */
  function RequestBytes(cfg: Config, a: Action): nat {
    if a.Judge? then
      var events := Validated(cfg, a.source, a.records, a.receivedAt);
      if events.Ok? && |events.value| == |a.ids| then PayloadBytes(cfg.env, Label(a.ids, events.value)) else 0
    else 0
  }

  predicate SmallRequests(cfg: Config, actions: seq<Action>, limit: nat) {
    forall a | a in actions :: RequestBytes(cfg, a) <= limit
  }

  /** No file vanishes during a walk. */
  predicate WholeWalks(actions: seq<Action>) {
    forall a | a in actions :: WholeWalk(a)
  }

  lemma StepKeepsSmall(cfg: Config, s: State, logs: Logs, a: Action, limit: nat)
    requires AllSmall(cfg.env, s, limit) && RequestBytes(cfg, a) <= limit
    ensures AllSmall(cfg.env, Step(cfg, s, logs, a).0, limit)
  {
    hide Apply, Enabled, PayloadBytes, RequestBytes;
    if Enabled(cfg, s, logs, a) {
      OnePhaseMoves(cfg, s, logs, a);
      if Actor(a).Some? {
        PayloadMoves(cfg, s, logs, a);
      }
    }
  }

  lemma PayloadMoves(cfg: Config, s: State, logs: Logs, a: Action)
    requires Enabled(cfg, s, logs, a) && Actor(a).Some?
    ensures
      var s', h := Apply(cfg, s, logs, a).0, Actor(a).value;
      && h < |s.hs| == |s'.hs|
      && (Payload(cfg.env, s'.hs[h]) <= Payload(cfg.env, s.hs[h]) || Payload(cfg.env, s'.hs[h]) <= RequestBytes(cfg, a))
  {
    hide CanSee, Validated, Append, PayloadBytes, Deliverable, Encodable, FreshIds, AllSent, SpoolUsage.Refuses;
  }

  lemma {:induction false} RunKeepsBound(cfg: Config, s: State, logs: Logs, actions: seq<Action>, limit: nat)
    requires Lawful(cfg.env) && Tallied(cfg, s) && FilesMatch(s) && AllSmall(cfg.env, s, limit)
        && WithinBound(cfg, s, limit)
    requires SmallRequests(cfg, actions, limit) && WholeWalks(actions)
    ensures WithinBound(cfg, Run(cfg, s, logs, actions).0, limit)
    decreases |actions|
  {
    hide Step, Lawful, WithinBound, RequestBytes, PayloadBytes, FilesMatch, WholeWalk;
    if actions != [] {
      var a := actions[0];
      var (s', more) := Step(cfg, s, logs, a);
      assert a in actions;
      StepKeepsTally(cfg, s, logs, a);
      StepKeepsFiles(cfg, s, logs, a);
      StepKeepsSmall(cfg, s, logs, a, limit);
      StepKeepsBound(cfg, s, logs, a, limit);
      RunKeepsBound(cfg, s', more, actions[1..], limit);
    }
  }

  /** From any directory within the capacity, every interleaving of handlers and replayer in which no
      file vanishes during a walk keeps the spool within its capacity and one payload for each
      concurrent request but one; so a single request at a time keeps it within capacity. */
  lemma SpoolIsBounded(cfg: Config, s0: State, logs: Logs, actions: seq<Action>, limit: nat)
    requires Lawful(cfg.env) && Started(s0) && UsedBytes(cfg.env, s0.files) <= cfg.maxBytes
    requires cfg.maxBytes > 0 && cfg.maxInFlight > 0
    requires SmallRequests(cfg, actions, limit) && WholeWalks(actions)
    ensures
      var s := Run(cfg, s0, logs, actions).0;
      && UsedBytes(cfg.env, s.files) + Sum(s.hs, Weight(cfg)) <= cfg.maxBytes + (cfg.maxInFlight - 1) * limit
      && UsedBytes(cfg.env, s.files) <= cfg.maxBytes + (cfg.maxInFlight - 1) * limit
      && (cfg.maxInFlight == 1 ==> UsedBytes(cfg.env, s.files) <= cfg.maxBytes)
  {
    hide Run, Lawful, SmallRequests, WholeWalks, UsedBytes;
    StartHolds(cfg, s0);
    assert 0 <= (cfg.maxInFlight - 1) * limit;
    RunKeepsBound(cfg, s0, logs, actions, limit);
    SumIsPositive(cfg, Run(cfg, s0, logs, actions).0.hs);
  }

  // ---- Runs in parts ----

  lemma {:induction false} RunTwice(cfg: Config, s: State, logs: Logs, xs: seq<Action>, ys: seq<Action>)
    ensures Run(cfg, s, logs, xs + ys) == (var (s', more) := Run(cfg, s, logs, xs); Run(cfg, s', more, ys))
    decreases |xs|
  {
    hide Step;
    if xs == [] {
      assert xs + ys == ys;
    } else {
      var (s', more) := Step(cfg, s, logs, xs[0]);
      assert (xs + ys)[1..] == xs[1..] + ys;
      RunTwice(cfg, s', more, xs[1..], ys);
    }
  }

  lemma RunOne(cfg: Config, s: State, logs: Logs, a: Action)
    ensures Run(cfg, s, logs, [a]) == Step(cfg, s, logs, a)
  {
    hide Step;
    assert [a][1..] == [];
    var (s', more) := Step(cfg, s, logs, a);
    assert Run(cfg, s', more, []) == (s', more);
  }

  /** None of these actions is enabled now, so none of them ever is. */
  lemma {:induction false} RunOfDisabled(cfg: Config, s: State, logs: Logs, actions: seq<Action>)
    requires forall a | a in actions :: !Enabled(cfg, s, logs, a)
    ensures Run(cfg, s, logs, actions) == (s, logs)
    decreases |actions|
  {
    hide Enabled, Apply;
    if actions != [] {
      assert actions[0] in actions;
      assert Step(cfg, s, logs, actions[0]) == (s, logs);
      RunOfDisabled(cfg, s, logs, actions[1..]);
    }
  }
}
