/** The whole pipeline: the log API in front of `logs.raw` and the worker behind it, each taking steps
    at any time, each crashing at any time. */
module Pipeline {
  import opened Text
  import opened Logline
  import opened Codec
  import opened Records
  import Api
  import Intake
  import Durability
  import Promises
  import Consumer
  import Guarantees

  datatype System = System(api: Api.State, logs: Logs, worker: Consumer.Worker)

  datatype Action = ApiStep(a: Api.Action) | WorkerStep(w: Consumer.Action)

  datatype Config = Config(api: Api.Config, retryMax: nat)

  /** The worker decodes messages with the same parser the API used. */
  function WorkerConfig(cfg: Config): Consumer.Config {
    Consumer.Config(m => RecordOf(cfg.api.env, m), cfg.retryMax)
  }

  function Step(cfg: Config, s: System, a: Action): System {
    match a
    case ApiStep(b) =>
      var (api, logs) := Api.Step(cfg.api, s.api, s.logs, b);
      s.(api := api, logs := logs)
    case WorkerStep(w) => s.(worker := Consumer.Step(WorkerConfig(cfg), s.logs, s.worker, w))
  }

  function Run(cfg: Config, s: System, actions: seq<Action>): System
    decreases |actions|
  {
    if actions == [] then s else Run(cfg, Step(cfg, s, actions[0]), actions[1..])
  }

  /** Nothing received yet: an empty topic of any number of partitions, fed by the API alone. */
  predicate Init(s: System) {
    && Api.Init(s.api) && (forall p | 0 <= p < |s.logs| :: s.logs[p] == []) && Consumer.Init(s.logs, s.worker)
  }

  ghost predicate Inv(cfg: Config, s: System) {
    && Promises.Inv(cfg.api, s.api, s.logs) && Durability.Readable(cfg.api.env, s.logs)
        && Consumer.Inv(WorkerConfig(cfg), s.logs, s.worker)
    && s.worker.skipped == {} && s.worker.overtaken == {}
  }

  lemma StepKeeps(cfg: Config, s: System, a: Action)
    requires Lawful(cfg.api.env) && Inv(cfg, s)
    ensures Inv(cfg, Step(cfg, s, a))
  {
    hide Api.Step, Consumer.Step, Consumer.Inv, Promises.Inv, Durability.Readable, Lawful;
    match a
    case ApiStep(b) =>
      Promises.StepKeeps(cfg.api, s.api, s.logs, b);
      Guarantees.LogsMayGrow(WorkerConfig(cfg), s.logs, Api.Step(cfg.api, s.api, s.logs, b).1, s.worker);
    case WorkerStep(w) =>
      Consumer.StepKeeps(WorkerConfig(cfg), s.logs, s.worker, w);
      EveryMessageDecodes(cfg, s);
      ShapeHolds(cfg, s);
      Guarantees.NoPoisonNoException(WorkerConfig(cfg), s.logs, s.worker, w);
  }

  lemma EveryMessageDecodes(cfg: Config, s: System)
    requires Durability.Readable(cfg.api.env, s.logs)
    ensures Guarantees.AllDecode(WorkerConfig(cfg), s.logs)
  {
    hide RecordOf;
  }

  lemma ShapeHolds(cfg: Config, s: System)
    requires Consumer.Inv(WorkerConfig(cfg), s.logs, s.worker)
    ensures Consumer.Shape(WorkerConfig(cfg), s.logs, s.worker)
  {
    hide Consumer.Shape, Consumer.Sound;
  }

  lemma {:induction false} RunKeeps(cfg: Config, s: System, actions: seq<Action>)
    requires Lawful(cfg.api.env) && Inv(cfg, s)
    ensures Inv(cfg, Run(cfg, s, actions))
    decreases |actions|
  {
    hide Step, Inv, Lawful;
    if actions != [] {
      StepKeeps(cfg, s, actions[0]);
      RunKeeps(cfg, Step(cfg, s, actions[0]), actions[1..]);
    }
  }

  lemma InitHolds(cfg: Config, s: System)
    requires Init(s)
    ensures Inv(cfg, s)
  {
    hide RecordOf;
    Promises.InitHolds(cfg.api, s.api, s.logs);
    Consumer.InitIsSound(WorkerConfig(cfg), s.logs, s.worker);
  }

  // ---- No loss ----

  /** The record waits in the topic where the worker will still read it: at or above the committed
      offset of its partition. */
  ghost predicate Uncommitted(env: Env, s: System, r: Rec) {
    exists p, o ::
      && 0 <= p < |s.logs| && p < |s.worker.committed| && s.worker.committed[p] <= o < |s.logs[p]|
      && Carries(env, s.logs[p][o], r)
  }

  ghost predicate Kept(env: Env, s: System, r: Rec) {
    Durability.InSpool(s.api, r) || Uncommitted(env, s, r) || Consumer.Stored(s.worker.world, r)
  }

  lemma KeptHolds(cfg: Config, s: System, r: Rec)
    requires Lawful(cfg.api.env) && Inv(cfg, s) && !s.worker.misled && r in s.api.accepted
    ensures Kept(cfg.api.env, s, r)
  {
    hide Carries, Consumer.Shape, FromApi, RecordOf, Lawful, Intake.FilesMatch;
    var env := cfg.api.env;
    assert Durability.AcceptedAreDurable(env, s.api, s.logs);
    ShapeHolds(cfg, s);
    if !Durability.InSpool(s.api, r) {
      var p, o :| 0 <= p < |s.logs| && 0 <= o < |s.logs[p]| && Carries(env, s.logs[p][o], r);
      CarriedIsDecoded(env, s.logs[p][o], r);
      OffsetsMatch(cfg, s);
      if o < s.worker.committed[p] {
        assert Consumer.Safe(WorkerConfig(cfg), s.logs, s.worker, Consumer.Pos(p, o));
      }
    }
  }

  lemma OffsetsMatch(cfg: Config, s: System)
    requires Consumer.Shape(WorkerConfig(cfg), s.logs, s.worker)
    ensures |s.worker.committed| == |s.logs|
  {
  }

  /** No loss: in every run of API, topic and worker, through every failure and every crash, each
      record of a request answered with 202 is in an API spool file, in the topic at or above the
      committed offset, or stored: in Elasticsearch, among the dead letters, or in a replay file. The
      one condition is that Elasticsearch never reported an item list that was too short or an item as
      stored that was not. */
  lemma NoLoss(cfg: Config, s0: System, actions: seq<Action>)
    requires Lawful(cfg.api.env) && Init(s0)
    ensures
      var s := Run(cfg, s0, actions);
      !s.worker.misled ==> forall r | r in s.api.accepted :: Kept(cfg.api.env, s, r)
  {
    hide Run, Inv, Kept, Lawful;
    InitHolds(cfg, s0);
    RunKeeps(cfg, s0, actions);
    var s := Run(cfg, s0, actions);
    if !s.worker.misled {
      forall r | r in s.api.accepted ensures Kept(cfg.api.env, s, r) {
        KeptHolds(cfg, s, r);
      }
    }
  }

  /** Nothing the API accepts is poison: whatever the run, the worker never has a message in hand that
      it cannot decode, and passes none over. */
  lemma PoisonIsUnreachable(cfg: Config, s0: System, actions: seq<Action>)
    requires Lawful(cfg.api.env) && Init(s0)
    ensures
      var s := Run(cfg, s0, actions);
      && !s.worker.stage.Poisoned? && !s.worker.stage.Parked?
      && s.worker.skipped == {} && s.worker.overtaken == {}
  {
    hide Run, Lawful;
    InitHolds(cfg, s0);
    RunKeeps(cfg, s0, actions);
    var s := Run(cfg, s0, actions);
    EveryMessageDecodes(cfg, s);
    hide Promises.Inv;
    var at := if s.worker.stage.Poisoned? || s.worker.stage.Parked? then s.worker.stage.at else Consumer.Pos(0, 0);
    assert at.part < |s.logs| && at.off < |s.logs[at.part]| ==> WorkerConfig(cfg).decode(s.logs[at.part][at.off]).Some?;
  }
}
