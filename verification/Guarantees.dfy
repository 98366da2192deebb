/** What the worker guarantees over whole runs, however its two loops, the outside world and crashes
    interleave; and, step by step, exactly where the guarantee ends. */
module Guarantees {
  import opened Text
  import opened Bulk
  import opened Retry
  import opened Records
  import opened Consumer

  // ---- Over all runs ----

  /** The full ledger: in every run in which Elasticsearch answered faithfully, each message fetched
      in the session is safe, waiting in the batch, being handled, or was passed over as poison. */
  lemma EveryFetchedMessageIsAccountedFor(cfg: Config, logs: Logs, s0: Worker, actions: seq<Action>)
    requires Init(logs, s0)
    ensures
      var s := Run(cfg, logs, s0, actions);
      && Shape(cfg, logs, s)
      && (!s.misled ==> forall p, o | 0 <= p < |logs| && s.start[p] <= o < s.position[p] ::
          Ledger(cfg, logs, s, Pos(p, o)))
  {
    InitIsSound(cfg, logs, s0);
    RunKeeps(cfg, logs, s0, actions);
  }

  /** The offset watermark, position by position: in every run in which Elasticsearch answered
      faithfully, through failed flushes, ambiguous commits and crashes, everything below the read
      position is safe, waiting, being handled, passed over as poison or overtaken by a poison commit;
      and everything below a committed offset is safe, passed over or overtaken. */
  lemma CommittedOffsetsAreSafe(cfg: Config, logs: Logs, s0: Worker, actions: seq<Action>)
    requires Init(logs, s0)
    ensures
      var s := Run(cfg, logs, s0, actions);
      && Shape(cfg, logs, s)
      && (!s.misled ==>
            && (forall p, o | 0 <= p < |logs| && 0 <= o < s.committed[p] ::
                  Safe(cfg, logs, s, Pos(p, o)) || Pos(p, o) in s.skipped || Pos(p, o) in s.overtaken)
            && (forall p, o | 0 <= p < |logs| && 0 <= o < s.position[p] ::
                  Safe(cfg, logs, s, Pos(p, o)) || Waiting(s, Pos(p, o)) || InHand(s, Pos(p, o))
                  || Pos(p, o) in s.skipped || Pos(p, o) in s.overtaken))
  {
    hide Run;
    InitIsSound(cfg, logs, s0);
    RunKeeps(cfg, logs, s0, actions);
    var s := Run(cfg, logs, s0, actions);
    if !s.misled {
      assert Watermark(cfg, logs, s);
      forall p, o | 0 <= p < |logs| && 0 <= o < s.position[p]
        ensures Safe(cfg, logs, s, Pos(p, o)) || Waiting(s, Pos(p, o)) || InHand(s, Pos(p, o)) || Excepted(s, Pos(p, o))
      {
        assert Ledger(cfg, logs, s, Pos(p, o)) || Pos(p, o) in s.overtaken;
      }
    }
  }

  /** The exceptions of a partition come from poison of that partition: while all its messages decode
      no position of it is ever passed over or overtaken. */
  ghost predicate NoException(s: Worker, p: nat) {
    forall o: nat :: Pos(p, o) !in s.skipped && Pos(p, o) !in s.overtaken
  }

  ghost predicate Decodes(cfg: Config, logs: Logs, p: nat) {
    p < |logs| && forall o | 0 <= o < |logs[p]| :: cfg.decode(logs[p][o]).Some?
  }

  lemma StepKeepsNoException(cfg: Config, logs: Logs, s: Worker, a: Action, p: nat)
    requires Shape(cfg, logs, s) && Decodes(cfg, logs, p) && NoException(s, p)
    ensures NoException(Step(cfg, logs, s, a), p)
  {
    hide OneAttempt, SpillAll, BulkIndex, SendFailures;
  }

  lemma {:induction false} DecodablePartitionsHaveNoException(cfg: Config, logs: Logs, s: Worker,
      actions: seq<Action>, p: nat)
    requires Inv(cfg, logs, s) && Decodes(cfg, logs, p) && NoException(s, p)
    ensures NoException(Run(cfg, logs, s, actions), p)
    decreases |actions|
  {
    hide Step, NoException, Decodes;
    if actions != [] {
      ShapeOf(cfg, logs, s);
      StepKeepsNoException(cfg, logs, s, actions[0], p);
      StepKeeps(cfg, logs, s, actions[0]);
      DecodablePartitionsHaveNoException(cfg, logs, Step(cfg, logs, s, actions[0]), actions[1..], p);
    }
  }

  lemma ShapeOf(cfg: Config, logs: Logs, s: Worker)
    requires Inv(cfg, logs, s)
    ensures Shape(cfg, logs, s)
  {
    hide Shape, Sound;
  }

  ghost predicate AllDecode(cfg: Config, logs: Logs) {
    forall p, o | 0 <= p < |logs| && 0 <= o < |logs[p]| :: cfg.decode(logs[p][o]).Some?
  }

  /** When every message decodes there are no exceptions at all. */
  lemma NoPoisonNoException(cfg: Config, logs: Logs, s: Worker, a: Action)
    requires Shape(cfg, logs, s) && AllDecode(cfg, logs) && s.skipped == {} && s.overtaken == {}
    ensures Step(cfg, logs, s, a).skipped == {} && Step(cfg, logs, s, a).overtaken == {}
  {
    hide OneAttempt, SpillAll, BulkIndex, SendFailures;
  }

  /** So for each partition whose messages all decode, whatever poison the others hold, in every run:
      what was fetched is stored or waiting, and what lies below its committed offset is stored. */
  lemma WatermarkSafety(cfg: Config, logs: Logs, s0: Worker, actions: seq<Action>, p: nat)
    requires Init(logs, s0) && Decodes(cfg, logs, p)
    ensures
      var s := Run(cfg, logs, s0, actions);
      && Shape(cfg, logs, s)
      && (!s.misled ==>
            && (forall o | 0 <= o < s.committed[p] :: Stored(s.world, cfg.decode(logs[p][o]).value))
            && (forall o | 0 <= o < s.position[p] ::
                Stored(s.world, cfg.decode(logs[p][o]).value) || Waiting(s, Pos(p, o))))
  {
    hide Run;
    InitIsSound(cfg, logs, s0);
    DecodablePartitionsHaveNoException(cfg, logs, s0, actions, p);
    CommittedOffsetsAreSafe(cfg, logs, s0, actions);
    var s := Run(cfg, logs, s0, actions);
    if !s.misled {
      forall o | 0 <= o < s.committed[p] ensures Stored(s.world, cfg.decode(logs[p][o]).value) {
        assert Safe(cfg, logs, s, Pos(p, o));
      }
      forall o | 0 <= o < s.position[p]
        ensures Stored(s.world, cfg.decode(logs[p][o]).value) || Waiting(s, Pos(p, o))
      {
        assert Safe(cfg, logs, s, Pos(p, o)) || Waiting(s, Pos(p, o)) || InHand(s, Pos(p, o));
      }
    }
  }

  // ---- Single steps ----

  /** In every run, whatever is passed to CommitMessages next is already safe. */
  lemma OnlySafeMessagesAreCommitted(cfg: Config, logs: Logs, s0: Worker, actions: seq<Action>, a: Action)
    requires Init(logs, s0)
    ensures
      var s := Run(cfg, logs, s0, actions);
      && Shape(cfg, logs, s)
      && (!s.misled && Enabled(cfg, logs, s, a) ==>
            && (a.Commit? ==> forall q | q in s.batch :: Safe(cfg, logs, s, q.at))
            && (a.CommitPoison? ==> Safe(cfg, logs, s, s.stage.at)))
  {
    hide Run;
    InitIsSound(cfg, logs, s0);
    RunKeeps(cfg, logs, s0, actions);
  }

  /** In every run, a message leaves the batch only when it is safe, or in a crash. */
  lemma BatchIsLeftSafely(cfg: Config, logs: Logs, s0: Worker, actions: seq<Action>, a: Action, q: Queued)
    requires Init(logs, s0) && a != Crash
    ensures
      var s := Run(cfg, logs, s0, actions);
      && Shape(cfg, logs, s)
      && (!s.misled && q in s.batch && q !in Step(cfg, logs, s, a).batch ==> Safe(cfg, logs, s, q.at))
  {
    hide Run, OneAttempt, SpillAll, BulkIndex, SendFailures;
    InitIsSound(cfg, logs, s0);
    RunKeeps(cfg, logs, s0, actions);
    var s := Run(cfg, logs, s0, actions);
    if q in s.batch && q !in Step(cfg, logs, s, a).batch {
      assert Enabled(cfg, logs, s, a) && a.Commit?;
    }
  }

  /** In every run, a replay file with events in it is removed only when each of them is indexed or a
      dead letter. */
  lemma FilesAreRemovedWhenPlaced(cfg: Config, logs: Logs, s0: Worker, actions: seq<Action>, a: Action, k: nat)
    requires Init(logs, s0)
    ensures
      var s := Run(cfg, logs, s0, actions);
      var s' := Step(cfg, logs, s, a);
      !s.misled && k < |s.world.files| && k < |s'.world.files| && s.world.files[k].File? && s'.world.files[k].Gone? ==>
        forall r | r in s.world.files[k].events :: r in s.world.es || r in s.world.dlq
  {
    hide Run, Step;
    InitIsSound(cfg, logs, s0);
    RunKeeps(cfg, logs, s0, actions);
    FileGoesWhenPlaced(cfg, logs, Run(cfg, logs, s0, actions), a, k);
  }

  lemma FileGoesWhenPlaced(cfg: Config, logs: Logs, s: Worker, a: Action, k: nat)
    requires Inv(cfg, logs, s)
    ensures
      var s' := Step(cfg, logs, s, a);
      !s.misled && k < |s.world.files| && k < |s'.world.files| && s.world.files[k].File? && s'.world.files[k].Gone? ==>
        forall r | r in s.world.files[k].events :: r in s.world.es || r in s.world.dlq
  {
    hide OneAttempt, SpillAll, ApplyReindex;
    if Enabled(cfg, logs, s, a) {
      match a
      case TryOnce(o) => OneAttemptShape(s.world, s.stage.pending, s.stage.attempt, cfg.retryMax, o);
      case WriteSpill(o) => SpillOnlyAdds(s.world, s.stage.pending, o);
      case Reindex(o) => ReindexOnlyAdds(s, o);
      case _ =>
    }
  }

  /** What the bulk call and the dead letters of one file place, as multisets. */
  lemma ReindexPlacesAll(s: Worker, o: Attempt)
    requires s.replay.Sending? && Faithful(o, s.replay.events) && ApplyReindex(s, o).replay.Clearing?
    ensures
      var w, w' := s.world, ApplyReindex(s, o).world;
      w.es <= w'.es && w.dlq <= w'.dlq && multiset(s.replay.events) <= (w'.es - w.es) + (w'.dlq - w.dlq)
  {
    hide ApplyReindex, BulkIndex, Pick, Events;
    var events := s.replay.events;
    BulkCases(events, o.reply);
    ClearingMeansAccepted(s, o);
    if events == [] {
      return;
    }
    var items := o.reply.body.items;
    PermanentEvents(events, items);
    ClassesPartition(events, items);
    PickGrows(events, Mask(items, Indexed), o.stored);
    assert multiset(Pick(events, Mask(items, Retryable))) == multiset{};
  }

  /** The last action of the run is the bulk call for a file, and with it and its dead letters
      Elasticsearch and the dead-letter topic together took each event of the file. */
  ghost predicate Placing(cfg: Config, logs: Logs, s0: Worker, actions: seq<Action>, file: nat, events: seq<Rec>) {
    actions != [] && actions[|actions| - 1].Reindex? &&
    var s, s' := Run(cfg, logs, s0, actions[..|actions| - 1]), Run(cfg, logs, s0, actions);
    && s.replay.Sending? && s.replay.file == file && s.replay.events == events
    && s'.replay == Clearing(file, events, s.replay.todo)
    && multiset(events) <= (s'.world.es - s.world.es) + (s'.world.dlq - s.world.dlq)
  }

  ghost predicate ReplayAt(cfg: Config, logs: Logs, s0: Worker, actions: seq<Action>, i: nat, r: Replay) {
    i <= |actions| && Run(cfg, logs, s0, actions[..i]).replay == r
  }

  /** The pass about to remove a file has placed its events: at an earlier action of the run, since when
      the replay loop has not moved. */
  ghost predicate PlacedAt(cfg: Config, logs: Logs, s0: Worker, actions: seq<Action>, j: nat, r: Replay) {
    && r.Clearing? && j <= |actions| && Placing(cfg, logs, s0, actions[..j], r.file, r.events)
    && forall i | j <= i <= |actions| :: ReplayAt(cfg, logs, s0, actions, i, r)
  }

  lemma ClearingComesFromReindex(cfg: Config, logs: Logs, s: Worker, a: Action)
    requires Step(cfg, logs, s, a).replay.Clearing? && s.replay != Step(cfg, logs, s, a).replay
    ensures Enabled(cfg, logs, s, a) && a.Reindex? && s.replay.Sending?
    ensures Step(cfg, logs, s, a).replay == Clearing(s.replay.file, s.replay.events, s.replay.todo)
    ensures !Step(cfg, logs, s, a).misled ==> Faithful(a.o, s.replay.events)
  {
    hide OneAttempt, SpillAll, BulkIndex, SendFailures, Faithful;
  }

  /** A file is removed by the pass that placed its events, in every run. */
  lemma {:induction false} RemovedInItsPass(cfg: Config, logs: Logs, s0: Worker, actions: seq<Action>)
    requires Init(logs, s0)
    ensures
      var s := Run(cfg, logs, s0, actions);
      !s.misled && s.replay.Clearing? ==> exists j :: PlacedAt(cfg, logs, s0, actions, j, s.replay)
    decreases |actions|
  {
    hide Run, Step, PlacedAt;
    var s := Run(cfg, logs, s0, actions);
    if actions == [] {
      RunNothing(cfg, logs, s0);
    } else if !s.misled && s.replay.Clearing? {
      var n := |actions| - 1;
      var before, a := Run(cfg, logs, s0, actions[..n]), actions[n];
      assert actions == actions[..n] + [a];
      RunOneMore(cfg, logs, s0, actions[..n], a);
      MisledStays(cfg, logs, before, a);
      if before.replay == s.replay {
        RemovedInItsPass(cfg, logs, s0, actions[..n]);
        var j :| PlacedAt(cfg, logs, s0, actions[..n], j, s.replay);
        StillPlaced(cfg, logs, s0, actions, j, s.replay);
      } else {
        ClearingComesFromReindex(cfg, logs, before, a);
        ReindexIs(cfg, logs, before, a.o);
        ReindexPlacesAll(before, a.o);
        JustPlaced(cfg, logs, s0, actions, s.replay);
      }
    }
  }

  lemma ReindexIs(cfg: Config, logs: Logs, s: Worker, o: Attempt)
    requires Enabled(cfg, logs, s, Reindex(o))
    ensures Step(cfg, logs, s, Reindex(o)) == ApplyReindex(s, o)
  {
    hide ApplyReindex;
  }

  lemma JustPlaced(cfg: Config, logs: Logs, s0: Worker, actions: seq<Action>, r: Replay)
    requires r.Clearing? && Run(cfg, logs, s0, actions).replay == r && Placing(cfg, logs, s0, actions, r.file, r.events)
    ensures PlacedAt(cfg, logs, s0, actions, |actions|, r)
  {
    hide Run, Placing;
    assert actions[..|actions|] == actions;
  }

  lemma StillPlaced(cfg: Config, logs: Logs, s0: Worker, actions: seq<Action>, j: nat, r: Replay)
    requires actions != [] && PlacedAt(cfg, logs, s0, actions[..|actions| - 1], j, r)
        && Run(cfg, logs, s0, actions).replay == r
    ensures PlacedAt(cfg, logs, s0, actions, j, r)
  {
    hide Run, Placing, ReplayAt;
    var n := |actions| - 1;
    assert actions[..n][..j] == actions[..j];
    forall i | j <= i <= |actions| ensures ReplayAt(cfg, logs, s0, actions, i, r) {
      StillAt(cfg, logs, s0, actions, i, r);
    }
  }

  lemma StillAt(cfg: Config, logs: Logs, s0: Worker, actions: seq<Action>, i: nat, r: Replay)
    requires actions != [] && i <= |actions|
    requires if i < |actions| then ReplayAt(cfg, logs, s0, actions[..|actions| - 1], i, r)
        else Run(cfg, logs, s0, actions).replay == r
    ensures ReplayAt(cfg, logs, s0, actions, i, r)
  {
    hide Run;
    if i < |actions| {
      assert actions[..|actions| - 1][..i] == actions[..i];
    } else {
      assert actions[..i] == actions;
    }
  }

  // ---- The replay counters ----

  lemma {:induction false} SpooledUpdate(files: seq<ReplayFile<Rec>>, k: nat)
    requires k < |files|
    ensures Spooled(files) == Spooled(files[k := Gone]) + multiset(FileEvents(files[k]))
  {
    var n := |files| - 1;
    if k < n {
      assert files[k := Gone][..n] == files[..n][k := Gone];
      SpooledUpdate(files[..n], k);
    } else {
      assert files[k := Gone][..n] == files[..n];
    }
  }

  /** Replayed records plus records in replay files equal failed records minus dead letters, up to
      what was in the directory when the process started (`carried`) and what failed file operations
      left behind (`excess`). A file whose events are all placed counts as replayed already. */
  predicate ReplayLaw(s: Worker) {
    s.world.tally.replayed + |Spooled(s.world.files)| ==
    s.world.tally.failed - s.world.tally.dlq + s.carried + s.excess
    + (if s.replay.Clearing? then |s.replay.events| else 0)
  }

  lemma TryKeepsFailedMinusDlq(w: World<Rec>, pending: seq<Rec>, attempt: nat, retryMax: nat, o: Attempt)
    ensures
      var w' := OneAttempt(w, pending, attempt, retryMax, o).0;
      && w'.files == w.files && w'.tally.replayed == w.tally.replayed
      && w'.tally.failed - w'.tally.dlq == w.tally.failed - w.tally.dlq
  {
    hide BulkIndex;
  }

  lemma StepKeepsReplayLaw(cfg: Config, logs: Logs, s: Worker, a: Action)
    requires Shape(cfg, logs, s) && ReplayLaw(s)
    ensures ReplayLaw(Step(cfg, logs, s, a))
  {
    hide OneAttempt, SpillAll, ApplyReindex, ApplyRead, Shape, Spooled;
    if Enabled(cfg, logs, s, a) {
      match a
      case TryOnce(o) => TryKeepsFailedMinusDlq(s.world, s.stage.pending, s.stage.attempt, cfg.retryMax, o);
      case WriteSpill(o) => SpillLaw(s.world, s.stage.pending, o);
      case Reindex(o) => ReindexLaw(s, o);
      case ReadFile(ok, removed) => ReadLaw(s, ok, removed);
      case RemoveFile(ok) => RemoveLaw(cfg, logs, s, ok);
      case _ =>
    }
  }

  lemma SpillLaw(w: World<Rec>, rest: seq<Rec>, o: WriteOutcome)
    ensures
      var (w', ok) := SpillAll(w, rest, o);
      && w'.tally.replayed == w.tally.replayed && w'.tally.dlq == w.tally.dlq
      && (ok ==> w'.tally.failed == w.tally.failed + |rest| && |Spooled(w'.files)| == |Spooled(w.files)| + |rest|)
      && (!ok ==> w'.tally == w.tally)
  {
    var (w', ok) := SpillAll(w, rest, o);
    if ok && rest != [] {
      assert w'.files[..|w'.files| - 1] == w.files;
    }
  }

  lemma ReindexLaw(s: Worker, o: Attempt)
    requires s.replay.Sending? && ReplayLaw(s)
    ensures ReplayLaw(ApplyReindex(s, o))
  {
    hide BulkIndex;
  }

  lemma ReadLaw(s: Worker, ok: bool, removed: bool)
    requires s.replay.Pass? && s.replay.todo != [] && ReplayLaw(s)
    ensures ReplayLaw(ApplyRead(s, ok, removed))
  {
    var k := s.replay.todo[0];
    if k < |s.world.files| {
      SpooledUpdate(s.world.files, k);
    }
  }

  lemma RemoveLaw(cfg: Config, logs: Logs, s: Worker, ok: bool)
    requires Shape(cfg, logs, s) && ReplayLaw(s) && s.replay.Clearing?
    ensures ReplayLaw(ApplyRemove(s, ok))
  {
    SpooledUpdate(s.world.files, s.replay.file);
  }

  lemma {:induction false} ReplayLawHolds(cfg: Config, logs: Logs, s: Worker, actions: seq<Action>)
    requires Inv(cfg, logs, s) && ReplayLaw(s)
    ensures ReplayLaw(Run(cfg, logs, s, actions))
    decreases |actions|
  {
    hide Step, ReplayLaw;
    if actions != [] {
      StepKeepsReplayLaw(cfg, logs, s, actions[0]);
      StepKeeps(cfg, logs, s, actions[0]);
      ReplayLawHolds(cfg, logs, Step(cfg, logs, s, actions[0]), actions[1..]);
    }
  }

  /** A step that fails a file operation after the fact: a replay file half written, or a file that
      could not be removed. */
  predicate FileFault(a: Action) {
    (a.WriteSpill? && a.write.WriteFailed? && a.write.left.Some?) || a == RemoveFile(false)
  }

  lemma NoFaultNoExcess(cfg: Config, logs: Logs, s: Worker, a: Action)
    requires s.excess == 0 && s.carried == 0 && !FileFault(a) && a != Crash
    ensures Step(cfg, logs, s, a).excess == 0 && Step(cfg, logs, s, a).carried == 0
  {
    hide OneAttempt, BulkIndex, SendFailures;
  }

  lemma {:induction false} FaultlessRuns(cfg: Config, logs: Logs, s: Worker, actions: seq<Action>)
    requires s.excess == 0 && s.carried == 0
    requires forall a | a in actions :: !FileFault(a) && a != Crash
    ensures Run(cfg, logs, s, actions).excess == 0 && Run(cfg, logs, s, actions).carried == 0
    decreases |actions|
  {
    hide Step;
    if actions != [] {
      assert actions[0] in actions;
      NoFaultNoExcess(cfg, logs, s, actions[0]);
      FaultlessRuns(cfg, logs, Step(cfg, logs, s, actions[0]), actions[1..]);
    }
  }

  /** From an empty replay directory, with all-or-nothing file operations: at every step outside the
      moment of removal, replayed records and records in replay files add up to failed records that
      are not dead letters. */
  lemma ReplayConservation(cfg: Config, logs: Logs, s0: Worker, actions: seq<Action>)
    requires Init(logs, s0) && forall a | a in actions :: !FileFault(a) && a != Crash
    ensures
      var s := Run(cfg, logs, s0, actions);
      !s.replay.Clearing? ==>
        s.world.tally.replayed + |Spooled(s.world.files)| == s.world.tally.failed - s.world.tally.dlq
  {
    hide Run;
    InitIsSound(cfg, logs, s0);
    ReplayLawHolds(cfg, logs, s0, actions);
    FaultlessRuns(cfg, logs, s0, actions);
  }

  // ---- Logs that grow ----

  /** Appending to the topic disturbs nothing: the same worker state is sound for the longer logs. */
  lemma LogsMayGrow(cfg: Config, logs: Logs, more: Logs, s: Worker)
    requires Inv(cfg, logs, s) && Extends(logs, more)
    ensures Inv(cfg, more, s)
  {
    assert forall p, o | 0 <= p < |logs| && 0 <= o < |logs[p]| :: more[p][o] == logs[p][o];
    if !s.misled {
      assert forall p, o | 0 <= p < |logs| && 0 <= o < |logs[p]| ::
          Safe(cfg, more, s, Pos(p, o)) == Safe(cfg, logs, s, Pos(p, o));
      forall p, o | 0 <= p < |logs| && 0 <= o < s.position[p]
        ensures Ledger(cfg, more, s, Pos(p, o)) == Ledger(cfg, logs, s, Pos(p, o))
      {
      }
    }
  }
}
