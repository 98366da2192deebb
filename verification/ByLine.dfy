/** The pipeline with replay files written as the code writes them: opened under their final name, then
    line by line, beside the replay loop and crashes. As long as no pass reads the file being written,
    this does what the pipeline with replay files written in one step does. */
module ByLine {
  import opened Text
  import opened Bulk
  import opened Retry
  import opened Records
  import Logline
  import Consumer
  import Pipeline

  /** `draft` are the lines of the file being written, `torn` whether a pass has read one. */
  datatype System = System(coarse: Pipeline.System, draft: Option<seq<Rec>>, torn: bool)

  datatype Action =
    | Whole(a: Pipeline.Action)
    | OpenFile(ok: bool)
    | WriteLine(ok: bool)
    | CloseFile

  function WithWorker(s: System, w: Consumer.Worker): System {
    s.(coarse := s.coarse.(worker := w))
  }

  /** The file with the lines written so far, as it is left behind. */
  function Left(w: Consumer.Worker, lines: seq<Rec>): Consumer.Worker {
    w.(world := w.world.(files := w.world.files + [File(lines)]))
  }

  /** The next file of the pass is the one being written; its name stands for the next index. */
  predicate ReadsDraft(s: System, a: Consumer.Action) {
    var w := s.coarse.worker;
    s.draft.Some? && a.ReadFile? && a.ok && w.replay.Pass? && w.replay.todo != [] && w.replay.todo[0] == |w.world.files|
  }

  function WorkerStep(cfg: Pipeline.Config, s: System, a: Consumer.Action): System {
    if a.WriteSpill? then s
    else if ReadsDraft(s, a) then s.(torn := true)
    else if a.Crash? && s.draft.Some? then
      var left := WithWorker(s, Left(s.coarse.worker, s.draft.value));
      System(Pipeline.Step(cfg, left.coarse, Pipeline.WorkerStep(a)), None, s.torn)
    else s.(coarse := Pipeline.Step(cfg, s.coarse, Pipeline.WorkerStep(a)))
  }

  function Step(cfg: Pipeline.Config, s: System, a: Action): System {
    var w := s.coarse.worker;
    match a
    case Whole(WorkerStep(b)) => WorkerStep(cfg, s, b)
    case Whole(b) => s.(coarse := Pipeline.Step(cfg, s.coarse, b))
    case OpenFile(ok) =>
      if !w.stage.Spilling? || s.draft.Some? || w.stage.pending == [] then s
      else if ok then s.(draft := Some([]))
      else WithWorker(s, w.(stage := Consumer.Fetching))
    case WriteLine(ok) =>
      if !w.stage.Spilling? || s.draft.None? || |s.draft.value| >= |w.stage.pending| then s
      else
        var lines := s.draft.value;
        if ok then s.(draft := Some(lines + [w.stage.pending[|lines|]]))
        else WithWorker(s, Left(w, lines).(stage := Consumer.Fetching, excess := w.excess + |lines|)).(draft := None)
    case CloseFile =>
      if !w.stage.Spilling? || (s.draft.None? && w.stage.pending != [])
          || (s.draft.Some? && |s.draft.value| < |w.stage.pending|) then s
      else
        var t := w.world.tally;
        var left := if s.draft.Some? then Left(w, s.draft.value) else w;
        var counted := left.(stage := Consumer.Committing,
                             world := left.world.(tally := t.(failed := t.failed + |w.stage.pending|)));
        WithWorker(s, counted).(draft := None)
  }

  function Run(cfg: Pipeline.Config, s: System, actions: seq<Action>): System
    decreases |actions|
  {
    if actions == [] then s else Run(cfg, Step(cfg, s, actions[0]), actions[1..])
  }

  /** The file being written holds the first of the pending records. */
  predicate Inv(s: System) {
    s.draft.Some? ==>
      var stage := s.coarse.worker.stage;
      stage.Spilling? && stage.pending != [] && s.draft.value <= stage.pending
  }

  // ---- Refinement ----

  /** The steps of the coarser pipeline that a step stands for. */
  function Coarsely(s: System, a: Action): seq<Pipeline.Action> {
    var n := if s.draft.Some? then |s.draft.value| else 0;
    var w := s.coarse.worker;
    match a
    case Whole(WorkerStep(b)) =>
      if b.WriteSpill? then []
      else if b.Crash? && s.draft.Some? then
        [Pipeline.WorkerStep(Consumer.WriteSpill(WriteFailed(Some(n)))), Pipeline.WorkerStep(b)]
      else [Pipeline.WorkerStep(b)]
    case Whole(b) => [b]
    case OpenFile(ok) =>
      if ok || s.draft.Some? || !w.stage.Spilling? || w.stage.pending == [] then []
      else [Pipeline.WorkerStep(Consumer.WriteSpill(WriteFailed(None)))]
    case WriteLine(ok) =>
      if ok || s.draft.None? || !w.stage.Spilling? || n >= |w.stage.pending| then []
      else [Pipeline.WorkerStep(Consumer.WriteSpill(WriteFailed(Some(n))))]
    case CloseFile =>
      if !w.stage.Spilling? || (s.draft.None? && w.stage.pending != [])
          || (s.draft.Some? && n < |w.stage.pending|) then []
      else [Pipeline.WorkerStep(Consumer.WriteSpill(Written))]
  }

  /** What writing in one step does to the worker. */
  lemma SpillIs(cfg: Consumer.Config, logs: Logs, w: Consumer.Worker, o: WriteOutcome)
    requires w.stage.Spilling?
    ensures
      var w', pending, t := Consumer.Step(cfg, logs, w, Consumer.WriteSpill(o)), w.stage.pending, w.world.tally;
      && (o.Written? && pending != [] ==>
            w' == Left(w, pending).(stage := Consumer.Committing,
                                    world := Left(w, pending).world.(tally := t.(failed := t.failed + |pending|))))
      && (o.Written? && pending == [] ==> w' == w.(stage := Consumer.Committing))
      && (o == WriteFailed(None) && pending != [] ==> w' == w.(stage := Consumer.Fetching))
      && (o.WriteFailed? && o.left.Some? && pending != [] && o.left.value <= |pending| ==>
            w' == Left(w, pending[..o.left.value]).(stage := Consumer.Fetching, excess := w.excess + o.left.value))
  {
    hide Spooled, Consumer.Step;
    SpillStep(cfg, logs, w, o);
    if o.WriteFailed? && o.left.Some? && o.left.value <= |w.stage.pending| {
      SpooledPush(w.world.files, w.stage.pending[..o.left.value]);
    }
  }

  lemma SpillStep(cfg: Consumer.Config, logs: Logs, w: Consumer.Worker, o: WriteOutcome)
    requires w.stage.Spilling?
    ensures Consumer.Step(cfg, logs, w, Consumer.WriteSpill(o)) == Consumer.ApplySpill(w, o)
  {
    hide Consumer.ApplySpill;
  }

  lemma SpooledPush(files: seq<ReplayFile<Rec>>, lines: seq<Rec>)
    ensures |Spooled(files + [File(lines)])| == |Spooled(files)| + |lines|
  {
    assert (files + [File(lines)])[..|files|] == files;
  }

  lemma StepRefines(cfg: Pipeline.Config, s: System, a: Action)
    requires Inv(s) && !Step(cfg, s, a).torn
    ensures Inv(Step(cfg, s, a)) && Pipeline.Run(cfg, s.coarse, Coarsely(s, a)) == Step(cfg, s, a).coarse
  {
    hide Consumer.Step, Pipeline.Run;
    RunNothing(cfg, s.coarse);
    match a
    case Whole(b) => WholeRefines(cfg, s, b);
    case _ =>
      if Coarsely(s, a) != [] {
        var b := Coarsely(s, a)[0];
        assert Coarsely(s, a) == [b];
        RunOne(cfg, s.coarse, b);
        SpillIs(Pipeline.WorkerConfig(cfg), s.coarse.logs, s.coarse.worker, b.w.write);
        FileRefines(cfg, s, a);
      }
  }

  /** The step of writing that the coarser pipeline sees. */
  lemma FileRefines(cfg: Pipeline.Config, s: System, a: Action)
    requires Inv(s) && !a.Whole? && Coarsely(s, a) != []
    ensures Pipeline.Step(cfg, s.coarse, Coarsely(s, a)[0]) == Step(cfg, s, a).coarse
  {
    hide Consumer.Step;
    var w, b := s.coarse.worker, Coarsely(s, a)[0];
    SpillIs(Pipeline.WorkerConfig(cfg), s.coarse.logs, w, b.w.write);
    if s.draft.Some? {
      assert w.stage.pending[..|s.draft.value|] == s.draft.value;
      if a.CloseFile? {
        assert s.draft.value == w.stage.pending;
      }
    }
  }

  lemma WholeRefines(cfg: Pipeline.Config, s: System, b: Pipeline.Action)
    requires Inv(s) && !Step(cfg, s, Whole(b)).torn
    ensures Inv(Step(cfg, s, Whole(b)))
        && Pipeline.Run(cfg, s.coarse, Coarsely(s, Whole(b))) == Step(cfg, s, Whole(b)).coarse
  {
    hide Consumer.Step, Pipeline.Run;
    var config := Pipeline.WorkerConfig(cfg);
    RunNothing(cfg, s.coarse);
    RunOne(cfg, s.coarse, b);
    if b.WorkerStep? {
      if !b.w.WriteSpill? && !b.w.Crash? {
        StaysSpilling(config, s.coarse.logs, s.coarse.worker, b.w);
      }
      if b.w.Crash? && s.draft.Some? {
        var spill := Consumer.WriteSpill(WriteFailed(Some(|s.draft.value|)));
        SpillIs(config, s.coarse.logs, s.coarse.worker, spill.write);
        assert s.coarse.worker.stage.pending[..|s.draft.value|] == s.draft.value;
        var mid := Pipeline.Step(cfg, s.coarse, Pipeline.WorkerStep(spill));
        RunOne(cfg, s.coarse, Pipeline.WorkerStep(spill));
        RunOne(cfg, mid, b);
        RunTwice(cfg, s.coarse, [Pipeline.WorkerStep(spill)], [b]);
        assert [Pipeline.WorkerStep(spill)] + [b] == Coarsely(s, Whole(b));
        CrashForgets(config, s.coarse.logs, mid.worker, Left(s.coarse.worker, s.draft.value));
      }
    }
  }

  /** While a replay file is written the consuming loop does nothing else. */
  lemma StaysSpilling(cfg: Consumer.Config, logs: Logs, w: Consumer.Worker, a: Consumer.Action)
    requires !a.WriteSpill? && !a.Crash?
    ensures w.stage.Spilling? ==> Consumer.Step(cfg, logs, w, a).stage == w.stage
  {
    hide BulkIndex, SendFailures;
  }

  /** A crash leaves nothing of the stage, nor of what the counters did not show. */
  lemma CrashForgets(cfg: Consumer.Config, logs: Logs, v: Consumer.Worker, w: Consumer.Worker)
    requires v == w.(stage := v.stage, excess := v.excess)
    ensures Consumer.Step(cfg, logs, v, Consumer.Crash) == Consumer.Step(cfg, logs, w, Consumer.Crash)
  {
  }

  lemma RunNothing(cfg: Pipeline.Config, s: Pipeline.System)
    ensures Pipeline.Run(cfg, s, []) == s
  {
  }

  lemma RunOne(cfg: Pipeline.Config, s: Pipeline.System, a: Pipeline.Action)
    ensures Pipeline.Run(cfg, s, [a]) == Pipeline.Step(cfg, s, a)
  {
    hide Pipeline.Step;
    RunNothing(cfg, Pipeline.Step(cfg, s, a));
    assert [a][1..] == [];
  }

  lemma {:induction false} RunTwice(cfg: Pipeline.Config, s: Pipeline.System, xs: seq<Pipeline.Action>,
      ys: seq<Pipeline.Action>)
    ensures Pipeline.Run(cfg, s, xs + ys) == Pipeline.Run(cfg, Pipeline.Run(cfg, s, xs), ys)
    decreases |xs|
  {
    hide Pipeline.Step;
    if xs == [] {
      assert xs + ys == ys;
    } else {
      assert (xs + ys)[1..] == xs[1..] + ys;
      RunTwice(cfg, Pipeline.Step(cfg, s, xs[0]), xs[1..], ys);
    }
  }

  lemma TornStays(cfg: Pipeline.Config, s: System, a: Action)
    ensures s.torn ==> Step(cfg, s, a).torn
  {
    hide Pipeline.Step;
  }

  lemma {:induction false} TornRemains(cfg: Pipeline.Config, s: System, actions: seq<Action>)
    ensures s.torn ==> Run(cfg, s, actions).torn
    decreases |actions|
  {
    hide Step;
    if actions != [] {
      TornStays(cfg, s, actions[0]);
      TornRemains(cfg, Step(cfg, s, actions[0]), actions[1..]);
    }
  }

  /** Every run by lines in which no pass reads the file being written ends where some run of the coarser
      pipeline ends. */
  lemma {:induction false} RunRefines(cfg: Pipeline.Config, s: System, actions: seq<Action>)
      returns (coarse: seq<Pipeline.Action>)
    requires Inv(s)
    ensures !Run(cfg, s, actions).torn ==> Run(cfg, s, actions).coarse == Pipeline.Run(cfg, s.coarse, coarse)
    decreases |actions|
  {
    hide Step, Pipeline.Run, Coarsely, Inv;
    RunNothing(cfg, s.coarse);
    coarse := [];
    if actions != [] && !Run(cfg, s, actions).torn {
      var s' := Step(cfg, s, actions[0]);
      TornRemains(cfg, s', actions[1..]);
      StepRefines(cfg, s, actions[0]);
      var rest := RunRefines(cfg, s', actions[1..]);
      RunTwice(cfg, s.coarse, Coarsely(s, actions[0]), rest);
      coarse := Coarsely(s, actions[0]) + rest;
    }
  }

  /** No loss, with replay files written line by line: in every run in which Elasticsearch was truthful
      and no pass read a file still being written, each record answered with 202 is in a spool file, in
      the topic at or above the committed offset, or stored. */
  lemma NoLossByLine(cfg: Pipeline.Config, s0: System, actions: seq<Action>)
    requires Logline.Lawful(cfg.api.env) && Pipeline.Init(s0.coarse) && s0.draft.None?
    ensures
      var s := Run(cfg, s0, actions);
      !s.torn && !s.coarse.worker.misled ==> forall r | r in s.coarse.api.accepted ::
          Pipeline.Kept(cfg.api.env, s.coarse, r)
  {
    hide Run, Pipeline.Run, Pipeline.Kept, Logline.Lawful;
    var coarse := RunRefines(cfg, s0, actions);
    Pipeline.NoLoss(cfg, s0.coarse, coarse);
  }
}
