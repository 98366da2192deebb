/** internal/worker as it is written: counters and a batch updated in place, a retry loop, a replay
    pass, the consuming loop. What its calls leave outside the process is kept in fields too: the
    documents in Elasticsearch, the dead letters, the group's offsets. Each method is proved to do to
    the state exactly what a run of the worker's state machine does, so what holds of all runs of the
    machine holds of this code. */
module Service {
  import opened Bulk
  import opened Retry
  import opened Json
  import opened Records
  import opened Consumer
  import opened Endings
  import opened Scripts
  import opened Turns

  // ---- internal/worker/stats.go ----

  class Stats {
    var consumedRecords: int
    var indexedRecords: int
    var failedRecords: int
    var retriedRecords: int
    var dlqRecords: int
    var replayedRecords: int
    var currentBatch: int
    var esFailures: int

    constructor ()
      ensures View() == Tally(0, 0, 0, 0, 0, 0, 0, 0)
    {
      consumedRecords, indexedRecords, failedRecords, retriedRecords := 0, 0, 0, 0;
      dlqRecords, replayedRecords, currentBatch, esFailures := 0, 0, 0, 0;
    }

    ghost function View(): Tally
      reads this
    {
      Tally(consumedRecords, indexedRecords, failedRecords, retriedRecords, dlqRecords, replayedRecords,
          currentBatch, esFailures)
    }

    method ObserveConsumed(count: nat)
      modifies this
      ensures View() == old(View()).(consumed := old(View()).consumed + count)
    {
      if count > 0 { consumedRecords := consumedRecords + count; }
    }

    method ObserveIndexed(count: nat)
      modifies this
      ensures View() == old(View()).(indexed := old(View()).indexed + count)
    {
      if count > 0 { indexedRecords := indexedRecords + count; }
    }

    method ObserveFailed(count: nat)
      modifies this
      ensures View() == old(View()).(failed := old(View()).failed + count)
    {
      if count > 0 { failedRecords := failedRecords + count; }
    }

    method ObserveRetried(count: nat)
      modifies this
      ensures View() == old(View()).(retried := old(View()).retried + count)
    {
      if count > 0 { retriedRecords := retriedRecords + count; }
    }

    method ObserveDLQ(count: nat)
      modifies this
      ensures View() == old(View()).(dlq := old(View()).dlq + count)
    {
      if count > 0 { dlqRecords := dlqRecords + count; }
    }

    method ObserveReplayed(count: nat)
      modifies this
      ensures View() == old(View()).(replayed := old(View()).replayed + count)
    {
      if count > 0 { replayedRecords := replayedRecords + count; }
    }

    method ObserveElasticsearchFailure()
      modifies this
      ensures View() == old(View()).(esFailures := old(View()).esFailures + 1)
    {
      esFailures := esFailures + 1;
    }

    method SetCurrentBatch(count: nat)
      modifies this
      ensures View() == old(View()).(currentBatch := count)
    {
      currentBatch := count;
    }
  }

  // ---- internal/worker/service.go ----

  class Service {
    const cfg: Config
    const bulkSize: nat
    const logs: Logs
    const stats: Stats

    var batch: seq<Queued>
    var position: seq<nat>
    var files: seq<ReplayFile<Rec>>

    var outside: Outside

    ghost var model: Worker

    constructor (cfg: Config, bulkSize: nat, logs: Logs, position: seq<nat>)
      requires |position| == |logs|
      ensures Valid() && fresh(stats)
      ensures this.cfg == cfg && this.bulkSize == bulkSize && this.logs == logs
      ensures model == Worker(position, position, position, [], Fetching, Idle, Retry.Blank(), {}, {}, {}, false, 0, 0)
    {
      this.cfg, this.bulkSize, this.logs := cfg, bulkSize, logs;
      this.batch, this.position, this.files := [], position, [];
      this.outside := Outside(multiset{}, multiset{}, {}, position);
      this.stats := new Stats();
      this.model := Worker(position, position, position, [], Fetching, Idle, Retry.Blank(), {}, {}, {}, false, 0, 0);
    }

    /** What the process can see of its state, and what it left outside, agrees with the machine. */
    ghost predicate Valid()
      reads this, stats
    {
      && outside == OutsideOf(model) && batch == model.batch && position == model.position && files == model.world.files
      && stats.View() == model.world.tally
      && |position| == |logs| && |model.committed| == |logs|
      && InOrder(position, batch)
    }

    /** The fields, one by one. */
    lemma Agree()
      requires Valid()
      ensures outside == OutsideOf(model) && batch == model.batch && position == model.position
      ensures files == model.world.files && stats.View() == model.world.tally
      ensures |model.position| == |logs| == |model.committed| && InOrder(model.position, model.batch)
    {
    }

    /** The call of BulkIndex: Elasticsearch may store any of the documents, whatever it replies. */
    method CallBulk(events: seq<Rec>, o: Attempt) returns (result: BulkResult<Rec>, ok: bool)
      modifies this`outside
      ensures outside == old(outside).(es := old(outside).es + multiset(Pick(events, o.stored)))
          && (result, ok) == BulkIndex(events, o.reply)
    {
      outside := outside.(es := outside.es + multiset(Pick(events, o.stored)));
      result, ok := Index(events, o.reply);
    }

    /** sendPermanentFailures: one dead letter after the other, and the counters when all went well. */
    method SendPermanentFailures(failures: seq<Failure<Rec>>, o: DlqOutcome) returns (ok: bool)
      modifies stats, this`outside
      ensures ok == Sent(|failures|, o)
      ensures outside == old(outside).(letters := old(outside).letters + LettersOf(failures, o))
      ensures
        var t, n := old(stats.View()), |failures|;
        stats.View() == if ok then t.(dlq := t.dlq + n, failed := t.failed + n) else t
    {
      assert failures[..0] == [];
      for i := 0 to |failures|
        invariant outside == old(outside).(letters := old(outside).letters + multiset(Events(failures[..i])))
        invariant o.StopsAt? ==> o.k >= i
        invariant stats.View() == old(stats.View())
      {
        assert Events(failures[..i + 1]) == Events(failures[..i]) + [failures[i].event];
        if o.StopsAt? && o.k == i {
          if o.kept {
            outside := outside.(letters := outside.letters + multiset{failures[i].event});
          }
          return false;
        }
        outside := outside.(letters := outside.letters + multiset{failures[i].event});
      }
      assert failures[..|failures|] == failures;
      stats.ObserveDLQ(|failures|);
      stats.ObserveFailed(|failures|);
      ok := true;
    }

    /** writeReplay. */
    method WriteReplayFile(events: seq<Rec>, o: WriteOutcome) returns (ok: bool)
      modifies this`files
      ensures (files, ok) == WriteReplay(old(files), events, o)
      ensures ok <==> events == [] || o.Written?
      ensures files ==
          if events == [] then old(files)
          else if o.Written? then old(files) + [File(events)]
          else if o.left.Some? && o.left.value <= |events| then old(files) + [File(events[..o.left.value])]
          else old(files)
    {
      if events == [] {
        return true;
      }
      match o
      case Written =>
        files := files + [File(events)];
        ok := true;
      case WriteFailed(left) =>
        ok := false;
        if left.Some? && left.value <= |events| {
          var i := 0;
          var lines := [];
          while i < left.value
            invariant i <= left.value && lines == events[..i]
          {
            assert events[..i + 1] == events[..i] + [events[i]];
            lines := lines + [events[i]];
            i := i + 1;
          }
          assert lines == events[..left.value];
          files := files + [File(lines)];
        }
    }

    /** One iteration of the loop in indexSafely, up to the end of its wait. */
    method TryIndexing(pending: seq<Rec>, attempt: nat, o: Attempt) returns (next: Next<Rec>)
      requires Valid() && model.stage == Indexing(pending, attempt) && attempt <= cfg.retryMax
      modifies this`model, this`outside, stats
      ensures Valid() && model == Step(cfg, logs, old(model), TryOnce(o))
      ensures next == OneAttempt(old(model).world, pending, attempt, cfg.retryMax, o).1
    {
      hide Step, OneAttempt, BulkIndex, LettersOf, Pick, CountedAttempt;
      var result, sent := CallBulk(pending, o);
      TryIsCounted(cfg, logs, model, o, result, sent);
      model := Step(cfg, logs, model, TryOnce(o));
      next := CountResult(pending, attempt, o, result, sent);
    }

    /** What an iteration does with the result of its bulk call. */
    method CountResult(pending: seq<Rec>, attempt: nat, o: Attempt, result: BulkResult<Rec>, sent: bool)
        returns (next: Next<Rec>)
      modifies stats, this`outside
      ensures (stats.View(), next) == CountedAttempt(old(stats.View()), pending, attempt, cfg.retryMax, o, result, sent)
      ensures outside == old(outside).(letters := old(outside).letters + LettersOf(result.permanent, o.dlq))
    {
      hide LettersOf, Events, Sent;
      NoLetters(o.dlq);
      NothingToSend(o.dlq);
      if !sent {
        stats.ObserveElasticsearchFailure();
      }
      if result.indexed > 0 {
        stats.ObserveIndexed(result.indexed);
      }
      if |result.permanent| > 0 {
        var ok := SendPermanentFailures(result.permanent, o.dlq);
        if !ok {
          return Failed;
        }
      }
      if |result.retryable| == 0 && sent {
        return Finished;
      }
      var rest := if |result.retryable| > 0 then result.retryable else pending;
      if |rest| == 0 {
        return Finished;
      }
      if attempt == cfg.retryMax {
        return Spill(rest);
      }
      stats.ObserveRetried(|rest|);
      next := if o.cancelled then Failed else Again(rest);
    }

    /** indexSafely. */
    method IndexSafely(events: seq<Rec>, f: FlushScript) returns (ok: bool)
      requires Valid() && model.stage == Indexing(events, 0) && |f.attempts| == cfg.retryMax + 1
      modifies this`files, this`model, this`outside, stats
      ensures Valid() && model == Run(cfg, logs, old(model), IndexActions(f))
      ensures if ok then model.stage.Committing? else model.stage.Fetching?
      ensures model.batch == old(model.batch) && model.committed == old(model.committed)
          && model.position == old(model.position)
      ensures (model.world, ok) == Retry.IndexSafely(old(model.world), events, cfg.retryMax, f.attempts, f.write)
      ensures ok <==> !Fails(events, 0, cfg.retryMax, f.attempts, f.write)
      ensures Accepts(f.attempts[0], |events|) ==>
          && ok && outside == old(outside).(es := old(outside).es + multiset(events)) && files == old(files)
      ensures
        var t, n := old(stats.View()), |events|;
        n > 0 && Unanswered(f.attempts, cfg.retryMax) && f.write.Written? ==>
          && ok && files == old(files) + [File(events)] && outside.letters == old(outside).letters
          && model.world.calls == old(model.world.calls) + cfg.retryMax + 1
          && stats.View() == t.(esFailures := t.esFailures + cfg.retryMax + 1, retried := t.retried + cfg.retryMax * n,
                                failed := t.failed + n)
    {
      hide Step, OneAttempt, Valid, Run, Fails, Accepts, Unanswered, Retry.IndexSafely, IndexActions;
      IndexOutcome(cfg, logs, model, events, f);
      RunNothing(cfg, logs, model);
      SpillActionsAreLast(f);
      Agree();
      ghost var start := model;
      var pending := events;
      var attempt: nat := 0;
      assert f.attempts[..0] == [] && Tries([]) == [];
      while true
        invariant attempt <= cfg.retryMax && Valid()
        invariant model.batch == start.batch && model.committed == start.committed && model.position == start.position
        invariant model.stage == Indexing(pending, attempt)
        invariant model == Run(cfg, logs, start, Tries(f.attempts[..attempt]))
        decreases cfg.retryMax - attempt
      {
        ghost var before := model;
        var next := TryIndexing(pending, attempt, f.attempts[attempt]);
        TryStage(cfg, logs, before, f.attempts[attempt]);
        RunOneMore(cfg, logs, start, Tries(f.attempts[..attempt]), TryOnce(f.attempts[attempt]));
        TriesSplit(f.attempts, attempt);
        match next
        case Finished =>
          FinishEarly(cfg, logs, start, f, attempt, model);
          Agree();
          return true;
        case Failed =>
          FinishEarly(cfg, logs, start, f, attempt, model);
          Agree();
          return false;
        case Again(rest) =>
          pending := rest;
          attempt := attempt + 1;
        case Spill(rest) =>
          assert f.attempts[..attempt + 1] == f.attempts;
          RunOneMore(cfg, logs, start, Tries(f.attempts), WriteSpill(f.write));
          ok := SpillPending(rest, f.write);
          Agree();
          return;
      }
    }

    /** The end of indexSafely: the replay file. */
    method SpillPending(pending: seq<Rec>, o: WriteOutcome) returns (ok: bool)
      requires Valid() && model.stage == Spilling(pending)
      modifies this`files, this`model, stats
      ensures Valid() && model == Step(cfg, logs, old(model), WriteSpill(o))
      ensures model.stage == if ok then Committing else Fetching
      ensures model.batch == old(model.batch) && model.committed == old(model.committed)
          && model.position == old(model.position)
    {
      model := Step(cfg, logs, model, WriteSpill(o));
      ok := WriteReplayFile(pending, o);
      if ok {
        stats.ObserveFailed(|pending|);
      }
    }

    /** processBatch. The batch itself is emptied by the caller. */
    method ProcessBatch(f: FlushScript) returns (ok: bool)
      requires Valid() && model.stage == Indexing(Recs(batch), 0)
      requires |f.attempts| == cfg.retryMax + 1
      modifies this`files, this`model, this`outside, stats
      ensures model == Run(cfg, logs, old(model),
          IndexActions(f) + [Commit(f.committed, Reachable(old(model).committed, old(model).batch, f.offsets))])
      ensures outside == OutsideOf(model)
      ensures model.stage.Fetching? && |model.committed| == |logs|
      ensures position == model.position && files == model.world.files && model.position == old(model.position)
      ensures model.batch == if ok then [] else batch
      ensures model.world.tally == if ok then stats.View().(currentBatch := 0) else stats.View()
    {
      hide Step, Run, IndexActions, Reachable, Fails, Accepts, Unanswered, Retry.IndexSafely, InOrder;
      ghost var start := model;
      var events: seq<Rec> := [];
      for i := 0 to |batch|
        invariant events == Recs(batch)[..i]
      {
        events := events + [batch[i].rec];
      }
      ok := IndexSafely(events, f);
      var offsets := Reachable(outside.committed, batch, f.offsets);
      ReachableIsCommit(model, batch, f.offsets);
      CommitIs(cfg, logs, model, f.committed, offsets);
      model := Step(cfg, logs, model, Commit(f.committed, offsets));
      RunOneMore(cfg, logs, start, IndexActions(f), Commit(f.committed, offsets));
      if ok {
        outside := outside.(committed := offsets);
        ok := f.committed;
      }
    }

    /** The flush closure of consumeLoop. */
    method Flush(f: FlushScript)
      requires Valid() && model.stage.Fetching?
      requires |f.attempts| == cfg.retryMax + 1
      modifies this`files, this`model, this`batch, this`outside, stats
      ensures Valid() && model == Run(cfg, logs, old(model), FlushActions(old(model), f))
      ensures model.stage.Fetching? && position == old(position)
      ensures old(batch) == [] ==> model == old(model)
      ensures old(batch) != [] ==>
          && batch == (if FlushFails(cfg, old(batch), f) then old(batch) else [])
          && outside.committed ==
             if Fails(Recs(old(batch)), 0, cfg.retryMax, f.attempts, f.write) then old(outside).committed
             else Reachable(old(outside).committed, old(batch), f.offsets)
      ensures Succeeds(f, |old(batch)|) ==>
          && batch == [] && outside.es == old(outside).es + multiset(Recs(old(batch)))
          && outside.letters == old(outside).letters && files == old(files)
      ensures old(batch) != [] && Unanswered(f.attempts, cfg.retryMax) && f.write.Written? && f.committed ==>
          batch == [] && outside.letters == old(outside).letters && files == old(files) + [File(Recs(old(batch)))]
    {
      FlushOutcome(cfg, logs, model, f);
      hide Fails, FlushFails, Succeeds, Unanswered, Reachable, Run, Step, FlushActions;
      if |batch| == 0 {
        FlushOfNothing(cfg, logs, model, f);
        return;
      }
      FlushBatch(f);
    }

    method FlushBatch(f: FlushScript)
      requires Valid() && model.stage.Fetching? && batch != []
      requires |f.attempts| == cfg.retryMax + 1
      modifies this`files, this`model, this`batch, this`outside, stats
      ensures Valid() && model == Run(cfg, logs, old(model), FlushActions(old(model), f))
    {
      hide IndexActions, Reachable, Run, Step, FlushActions;
      Started(cfg, logs, model, f);
      stats.SetCurrentBatch(|batch|);
      model := Step(cfg, logs, model, StartFlush);
      var ok := ProcessBatch(f);
      if !ok {
        return;
      }
      batch := [];
      stats.SetCurrentBatch(0);
    }

    /** What the loop does with a message that does not decode. */
    method HandlePoison(p: nat, value: string, t: Turn)
      requires Valid() && p < |logs| && position[p] > 0 && position[p] <= |logs[p]|
      requires model.stage == Poisoned(Pos(p, position[p] - 1)) && value == logs[p][position[p] - 1].value
      modifies this`model, this`outside, stats
      ensures Valid() && model == Run(cfg, logs, old(model), PoisonActions(cfg, value, t))
      ensures model.stage.Fetching? && batch == old(batch) && position == old(position) && files == old(files)
      ensures
        var fits, at := value == "" || IsJson(value), Pos(p, position[p] - 1);
        var parked, committed := old(outside).parked, old(outside).committed;
        && outside.es == old(outside).es && outside.letters == old(outside).letters
        && outside.parked == (if fits && (t.sent || t.kept) then parked + {at} else parked)
        && outside.committed == (if fits && t.sent && t.poisonMoved then committed[p := at.off + 1] else committed)
      ensures
        var s, fits := old(stats.View()), value == "" || IsJson(value);
        var counted := if fits && t.sent && t.poisonCommitted then 1 else 0;
        stats.View() == s.(dlq := s.dlq + counted, failed := s.failed + counted)
    {
      Agree();
      PoisonRun(cfg, logs, model, value, t);
      hide Valid, IsJson, Run, PoisonActions, InOrder;
      ParkPoison(p, value, t);
      Agree();
    }

    /** The dead letter, the commit and the counters. */
    method ParkPoison(p: nat, value: string, t: Turn)
      requires Valid() && p < |logs| && position[p] > 0 && position[p] <= |logs[p]|
      requires model.stage == Poisoned(Pos(p, position[p] - 1)) && value == logs[p][position[p] - 1].value
      modifies this`model, this`outside, stats
      ensures Valid() && model == Run(cfg, logs, old(model), PoisonActions(cfg, value, t))
    {
      PoisonRun(cfg, logs, model, value, t);
      assert FitsDeadLetter(value) == (value == "" || IsJson(value));
      hide IsJson, FitsDeadLetter, Run, PoisonActions, InOrder;
      model := Run(cfg, logs, model, PoisonActions(cfg, value, t));
      var encodable := FitsDeadLetter(value);
      var at := Pos(p, position[p] - 1);
      if encodable && (t.sent || t.kept) {
        outside := outside.(parked := outside.parked + {at});
      }
      if !(encodable && t.sent) {
        return;
      }
      if t.poisonMoved {
        outside := outside.(committed := outside.committed[p := at.off + 1]);
      }
      if !t.poisonCommitted {
        return;
      }
      stats.ObserveDLQ(1);
      stats.ObserveFailed(1);
    }

    /** The second half of a turn: fetch, decode, queue, and flush a full batch. */
    method FetchAndQueue(t: Turn) returns (stop: bool)
      requires Valid() && model.stage.Fetching? && Answers(cfg, t)
      modifies this, stats
      ensures Valid() && model.stage.Fetching?
      ensures (stop <==> FetchActions(cfg, logs, bulkSize, old(model), t).1)
      ensures model == Run(cfg, logs, old(model), FetchActions(cfg, logs, bulkSize, old(model), t).0)
    {
      if t.fetched.FetchFailed? {
        if t.fetched.cancelled {
          Flush(t.full);
        }
        return t.fetched.cancelled;
      }
      var p := t.fetched.part;
      if p >= |logs| || position[p] >= |logs[p]| {
        return false;
      }
      Receive(p, t);
      return false;
    }

    /** A message that was fetched. */
    method Receive(p: nat, t: Turn)
      requires Valid() && Enabled(cfg, logs, model, Fetch(p)) && t.fetched == Message(p) && Answers(cfg, t)
      modifies this, stats
      ensures Valid() && model.stage.Fetching?
      ensures model == Run(cfg, logs, old(model), FetchActions(cfg, logs, bulkSize, old(model), t).0)
    {
      hide Step, FlushActions, PoisonActions;
      ghost var start := model;
      var message := logs[p][position[p]];
      FetchIs(cfg, logs, start, p);
      model := Step(cfg, logs, model, Fetch(p));
      RunOne(cfg, logs, start, Fetch(p));
      stats.ObserveConsumed(1);
      position := position[p := position[p] + 1];
      var decoded := cfg.decode(message);
      if decoded.None? {
        RunAppend(cfg, logs, start, [Fetch(p)], PoisonActions(cfg, message.value, t));
        HandlePoison(p, message.value, t);
        return;
      }
      batch := batch + [Queued(Pos(p, position[p] - 1), decoded.value)];
      if |batch| >= bulkSize {
        RunAppend(cfg, logs, start, [Fetch(p)], FlushActions(model, t.full));
        Flush(t.full);
      }
    }

    /** consumeLoop, for any sequence of events of the outside world. */
    method ConsumeLoop(turns: seq<Turn>)
      requires Valid() && model.stage.Fetching? && forall t | t in turns :: Answers(cfg, t)
      modifies this, stats
      ensures Valid() && model == Run(cfg, logs, old(model), LoopActions(cfg, logs, bulkSize, old(model), turns))
      ensures forall p | 0 <= p < |logs| :: position[p] == Advanced(old(position[p]), Offered(turns, p), |logs[p]|)
    {
      hide Step, TurnActions, Run, FlushFails, Succeeds;
      ghost var start := model;
      ghost var done: seq<Action> := [];
      RunNothing(cfg, logs, start);
      ghost var all := LoopActions(cfg, logs, bulkSize, start, turns);
      var i := 0;
      assert turns[0..] == turns;
      while i < |turns|
        invariant 0 <= i <= |turns| && Valid() && model.stage.Fetching?
        invariant model == Run(cfg, logs, start, done)
        invariant all == done + LoopActions(cfg, logs, bulkSize, model, turns[i..])
        invariant forall p | 0 <= p < |logs| ::
            Advanced(position[p], Offered(turns[i..], p), |logs[p]|) ==
                Advanced(old(position[p]), Offered(turns, p), |logs[p]|)
      {
        var t := turns[i];
        ghost var before := model;
        ghost var (actions, ends) := TurnActions(cfg, logs, bulkSize, before, t);
        assert turns[i..][0] == t && turns[i..][1..] == turns[i + 1..];
        RunAppend(cfg, logs, start, done, actions);
        var stop := TakeTurn(t);
        if stop {
          return;
        }
        assert done + (actions + LoopActions(cfg, logs, bulkSize, model, turns[i + 1..]))
               == done + actions + LoopActions(cfg, logs, bulkSize, model, turns[i + 1..]);
        done := done + actions;
        i := i + 1;
      }
      assert done + [] == done;
    }

    method TakeTurn(t: Turn) returns (stop: bool)
      requires Valid() && model.stage.Fetching? && Answers(cfg, t)
      modifies this, stats
      ensures Valid() && model.stage.Fetching?
      ensures (stop <==> TurnActions(cfg, logs, bulkSize, old(model), t).1)
      ensures model == Run(cfg, logs, old(model), TurnActions(cfg, logs, bulkSize, old(model), t).0)
      ensures (stop <==> t.wake.Done? || t.fetched == FetchFailed(true)) && old(outside).es <= outside.es
      ensures forall p | 0 <= p < |logs| ::
          position[p] == old(position[p]) + if Offers(t, p) && old(position[p]) < |logs[p]| then 1 else 0
      ensures !t.wake.Neither? && Succeeds(t.flushed, |old(batch)|) ==>
          (forall q | q in old(batch) :: q !in batch) && forall r | r in Recs(old(batch)) :: r in outside.es
      ensures FlushedOnCancel(cfg, old(batch), t) && Succeeds(t.full, |old(batch)|) ==>
          batch == [] && forall r | r in Recs(old(batch)) :: r in outside.es
      ensures |old(batch)| < bulkSize ==> |batch| < bulkSize || FlushFails(cfg, batch, t.full)
    {
      Agree();
      TurnRun(cfg, logs, bulkSize, model, t);
      TurnSplits(cfg, logs, bulkSize, model, t);
      hide Valid, TurnActions, FetchActions, FlushActions, FlushFails, Fails, Succeeds, Unanswered, Reachable,
          FlushedOnCancel, Run, Offers, InOrder, Recs;
      if !t.wake.Neither? {
        Flush(t.flushed);
      }
      if t.wake.Done? {
        Agree();
        return true;
      }
      stop := FetchAndQueue(t);
      Agree();
    }

    /** One file of a replay pass. */
    method ReplayFile(f: FileScript, ghost rest: seq<nat>) returns (stop: bool)
      requires Valid() && model.replay == Pass([f.file] + rest)
      modifies this`files, this`model, this`outside, stats
      ensures Valid() && model == Run(cfg, logs, old(model), FileActions(f))
      ensures model.replay == if stop then Idle else Pass(rest)
      ensures (stop <==> Blocks(old(files), f)) && (Goes(old(files), f) ==> f.file < |old(files)|)
      ensures files == if Goes(old(files), f) then old(files)[f.file := Gone] else old(files)
      ensures old(outside).es <= outside.es && old(outside).letters <= outside.letters
      ensures !Readable(old(files), f) ==> outside.es == old(outside).es && outside.letters == old(outside).letters
      ensures stats.View() == FileTally(old(stats.View()), old(files), f)
      ensures PlacedIfTrue(old(files), f, outside.es, outside.letters)
    {
      Agree();
      FileRun(cfg, logs, model, f, rest);
      GoesIsAFile(files, f);
      hide Valid, Run, FileActions, Readable, Blocks, Goes, Accepted, FileTally, PlacedIfTrue, InOrder;
      stop := LoadFile(f, rest);
      Agree();
    }

    method LoadFile(f: FileScript, ghost rest: seq<nat>) returns (stop: bool)
      requires Valid() && model.replay == Pass([f.file] + rest)
      modifies this`files, this`model, this`outside, stats
      ensures Valid() && model == Run(cfg, logs, old(model), FileActions(f))
      ensures model.replay == if stop then Idle else Pass(rest)
    {
      ReadIs(cfg, logs, model, f, rest);
      ghost var start := model;
      ghost var read, reindex, remove := ReadFile(f.read, f.emptied), Reindex(f.attempt), RemoveFile(f.removed);
      RunThree(cfg, logs, start, read, reindex, remove);
      model := Step(cfg, logs, model, read);
      if !Readable(files, f) {
        NoFileInHand(cfg, logs, model, reindex);
        NoFileInHand(cfg, logs, model, remove);
      }
      hide Step, Run, InOrder;
      if !f.read || f.file >= |files| || files[f.file].Gone? {
        return false;
      }
      var events := files[f.file].events;
      if |events| == 0 {
        if f.emptied {
          files := files[f.file := Gone];
        }
        return false;
      }
      stop := ReindexFile(f, events, rest);
    }

    /** The bulk call for a file's events, the dead letters, and the removal. */
    method ReindexFile(f: FileScript, events: seq<Rec>, ghost rest: seq<nat>) returns (stop: bool)
      requires Valid() && model.replay == Sending(f.file, events, rest) && f.file < |files|
      modifies this`files, this`model, this`outside, stats
      ensures Valid()
      ensures model == Step(cfg, logs, Step(cfg, logs, old(model), Reindex(f.attempt)), RemoveFile(f.removed))
      ensures model.replay == if stop then Idle else Pass(rest)
    {
      hide BulkIndex, Step, LettersOf, Pick, Events, Sent;
      NoLetters(f.attempt.dlq);
      NothingToSend(f.attempt.dlq);
      var result, sent := CallBulk(events, f.attempt);
      model := Step(cfg, logs, model, Reindex(f.attempt));
      ReindexIsCounted(cfg, logs, old(model), f.attempt, result, sent, f.removed);
      if !sent || |result.retryable| > 0 {
        stats.ObserveElasticsearchFailure();
        return false;
      }
      if |result.permanent| > 0 {
        var ok := SendPermanentFailures(result.permanent, f.attempt.dlq);
        if !ok {
          return true;
        }
      }
      stats.ObserveIndexed(result.indexed);
      stats.ObserveReplayed(|events|);
      RemovePlaced(f.file, f.removed);
      stop := !f.removed;
    }

    /** The removal of a file whose events are all placed. */
    method RemovePlaced(file: nat, removed: bool)
      requires Valid() && model.replay.Clearing? && model.replay.file == file < |files|
      modifies this`files, this`model
      ensures Valid() && model == Step(cfg, logs, old(model), RemoveFile(removed))
      ensures model.replay == if removed then Pass(old(model).replay.todo) else Idle
    {
      hide Step;
      RemoveIs(cfg, logs, model, removed);
      model := Step(cfg, logs, model, RemoveFile(removed));
      if removed {
        files := files[file := Gone];
      }
    }

    /** A new pass over these names. */
    ghost method ListFiles(todo: seq<nat>)
      requires Valid() && (model.replay.Idle? || model.replay == Pass([]))
      modifies this`model
      ensures Valid() && model == Step(cfg, logs, old(model), Glob(todo)) && model.replay == Pass(todo)
    {
      model := Step(cfg, logs, model, Glob(todo));
    }

    /** replayOnce, for any directory listing. */
    method ReplayOnce(pass: seq<FileScript>) returns (ok: bool, ghost stopped: nat)
      requires Valid() && (model.replay.Idle? || model.replay == Pass([]))
      modifies this`files, this`model, this`outside, stats
      ensures Valid() && model == Run(cfg, logs, old(model), [Glob(Names(pass))] + PassActions(pass))
      ensures model.replay == if ok then Pass([]) else Idle
      ensures stopped <= |pass| && (ok <==> stopped == |pass|) && (!ok ==> Blocks(old(files), pass[stopped]))
      ensures Distinct(pass) ==> (ok <==> forall f | f in pass :: !Blocks(old(files), f))
      ensures OnlyTheseGo(old(files), files, pass[..stopped]) && TheseAreGone(old(files), files, pass[..stopped])
      ensures GoneArePlaced(old(files), files, outside.es, outside.letters, pass[..stopped])
    {
      hide Valid, Step, Run, PassActions, FileActions, Blocks, Goes, PlacedIfTrue, OnlyTheseGo, TheseAreGone,
          GoneArePlaced, FileTally;
      ghost var start := model;
      ghost var glob := Glob(Names(pass));
      ListFiles(Names(pass));
      RunOne(cfg, logs, start, glob);
      ghost var listed := model;
      assert pass[..0] == [] && Names(pass)[0..] == Names(pass);
      NoActionsYet();
      RunNothing(cfg, logs, listed);
      NoFilesYet(files, outside);
      for i := 0 to |pass|
        invariant Valid() && model.replay == Pass(Names(pass)[i..])
        invariant model == Run(cfg, logs, listed, PassActions(pass[..i]))
        invariant OnlyTheseGo(old(files), files, pass[..i]) && TheseAreGone(old(files), files, pass[..i])
        invariant GoneArePlaced(old(files), files, outside.es, outside.letters, pass[..i])
        invariant Distinct(pass) ==> forall f | f in pass[..i] :: !Blocks(old(files), f)
      {
        assert Names(pass)[i..] == [pass[i].file] + Names(pass)[i + 1..];
        ghost var now, held := files, outside;
        PassEndsHere(cfg, logs, start, glob, pass, i);
        var stop := ReplayFile(pass[i], Names(pass)[i + 1..]);
        NextOfPass(old(files), now, files, pass, i, held, outside);
        PassStep(pass, i);
        RunAppend(cfg, logs, listed, PassActions(pass[..i]), FileActions(pass[i]));
        if stop {
          return false, i;
        }
      }
      assert pass[..|pass|] == pass;
      RunAppend(cfg, logs, start, [glob], PassActions(pass));
      ok, stopped := true, |pass|;
    }
  }
}
