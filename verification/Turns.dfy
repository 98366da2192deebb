/** What a flush, a turn of the consuming loop and a replay pass leave behind, told by what was waiting,
    what Elasticsearch answered and which files could be read. */
module Turns {
  import opened Bulk
  import opened Retry
  import opened Json
  import opened Endings
  import opened Records
  import opened Consumer
  import opened Scripts

  // ---- A flush ----

  /** The run of indexSafely inside the machine is the function of that name. */
  lemma IndexRun(cfg: Config, logs: Logs, s: Worker, pending: seq<Rec>, f: FlushScript)
    requires s.stage == Indexing(pending, 0) && |f.attempts| == cfg.retryMax + 1
    ensures
      var s' := Run(cfg, logs, s, IndexActions(f));
      var (w, ok) := IndexSafely(s.world, pending, cfg.retryMax, f.attempts, f.write);
      s' == s.(world := w, stage := if ok then Committing else Fetching, misled := s'.misled, excess := s'.excess)
  {
    hide Run, Attempts, SpillAll;
    assert f.attempts[0..] == f.attempts;
    AttemptsRun(cfg, logs, s, pending, 0, f);
  }

  lemma {:induction false} AttemptsRun(cfg: Config, logs: Logs, s: Worker, pending: seq<Rec>, attempt: nat,
      f: FlushScript)
    requires s.stage == Indexing(pending, attempt) && attempt <= cfg.retryMax && |f.attempts| == cfg.retryMax + 1
    ensures
      var s' := Run(cfg, logs, s, Tries(f.attempts[attempt..]) + [WriteSpill(f.write)]);
      var (w, next) := Attempts(s.world, pending, attempt, cfg.retryMax, f.attempts);
      var (spilled, written) := if next.Spill? then SpillAll(w, next.rest, f.write) else (w, next.Finished?);
      s' == s.(world := spilled, stage := if written then Committing else Fetching, misled := s'.misled,
          excess := s'.excess)
    decreases cfg.retryMax - attempt
  {
    hide Run, Step, OneAttempt, SpillAll;
    var o, rest := f.attempts[attempt], Tries(f.attempts[attempt + 1..]) + [WriteSpill(f.write)];
    assert Tries(f.attempts[attempt..]) + [WriteSpill(f.write)] == [TryOnce(o)] + rest;
    RunAppend(cfg, logs, s, [TryOnce(o)], rest);
    RunOne(cfg, logs, s, TryOnce(o));
    TryIs(cfg, logs, s, o);
    var s1 := Step(cfg, logs, s, TryOnce(o));
    var next := OneAttempt(s.world, pending, attempt, cfg.retryMax, o).1;
    match next
    case Again(left) => AttemptsRun(cfg, logs, s1, left, attempt + 1, f);
    case Spill(left) =>
      assert Tries(f.attempts[attempt + 1..]) == [];
      assert rest == [WriteSpill(f.write)];
      RunOne(cfg, logs, s1, WriteSpill(f.write));
      SpillIs(cfg, logs, s1, f.write);
    case _ => NoMoreTries(cfg, logs, s1, rest);
  }

  lemma TryIs(cfg: Config, logs: Logs, s: Worker, o: Attempt)
    requires s.stage.Indexing? && s.stage.attempt <= cfg.retryMax
    ensures
      var s' := Step(cfg, logs, s, TryOnce(o));
      var (w, next) := OneAttempt(s.world, s.stage.pending, s.stage.attempt, cfg.retryMax, o);
      && s' == s.(world := w, stage := s'.stage, misled := s'.misled)
      && s'.stage == match next
                     case Finished => Committing
                     case Failed => Fetching
                     case Again(rest) => Indexing(rest, s.stage.attempt + 1)
                     case Spill(rest) => Spilling(rest)
  {
    hide OneAttempt, Faithful;
  }

  lemma SpillIs(cfg: Config, logs: Logs, s: Worker, o: WriteOutcome)
    requires s.stage.Spilling?
    ensures
      var s' := Step(cfg, logs, s, WriteSpill(o));
      var (w, ok) := SpillAll(s.world, s.stage.pending, o);
      s' == s.(world := w, stage := if ok then Committing else Fetching, excess := s'.excess)
  {
    hide SpillAll;
  }

  lemma NoMoreTries(cfg: Config, logs: Logs, s: Worker, rest: seq<Action>)
    requires !s.stage.Indexing? && !s.stage.Spilling? && forall a | a in rest :: a.TryOnce? || a.WriteSpill?
    ensures Run(cfg, logs, s, rest) == s
  {
    RunOfDisabled(cfg, logs, s, rest);
  }

  /** How indexSafely ends: what Elasticsearch takes at once is stored and nothing else changes, and with
      Elasticsearch out of reach all events end in a new replay file. */
  lemma IndexOutcome(cfg: Config, logs: Logs, s: Worker, pending: seq<Rec>, f: FlushScript)
    requires s.stage == Indexing(pending, 0) && |f.attempts| == cfg.retryMax + 1
    ensures
      var s' := Run(cfg, logs, s, IndexActions(f));
      var t, n := s.world.tally, |pending|;
      && (s'.world, s'.stage.Committing?) == IndexSafely(s.world, pending, cfg.retryMax, f.attempts, f.write)
      && (s'.stage.Committing? || s'.stage.Fetching?) && s'.parked == s.parked && s'.replay == s.replay
      && (s'.stage.Committing? <==> !Fails(pending, 0, cfg.retryMax, f.attempts, f.write))
      && (Accepts(f.attempts[0], n) ==>
            && s'.stage.Committing? && s'.world.es == s.world.es + multiset(pending)
            && s'.world.dlq == s.world.dlq && s'.world.files == s.world.files)
      && (pending != [] && Unanswered(f.attempts, cfg.retryMax) && f.write.Written? ==>
            && s'.stage.Committing? && s'.world.files == s.world.files + [File(pending)] && s'.world.dlq == s.world.dlq
            && s'.world.calls == s.world.calls + cfg.retryMax + 1
            && s'.world.tally == t.(esFailures := t.esFailures + cfg.retryMax + 1,
                                    retried := t.retried + cfg.retryMax * n, failed := t.failed + n))
  {
    IndexRun(cfg, logs, s, pending, f);
    FailsExactly(s.world, pending, cfg.retryMax, f.attempts, f.write);
    if Accepts(f.attempts[0], |pending|) {
      AcceptedAtOnce(s.world, pending, 0, cfg.retryMax, f.attempts[0]);
    }
    hide Run, OneAttempt, Fails, Accepts;
    if pending != [] && Unanswered(f.attempts, cfg.retryMax) {
      UnreachableElasticsearch(s.world, pending, cfg.retryMax, f.attempts);
    }
  }

  /** What makes a flush fail: indexSafely fails, or the commit. */
  predicate FlushFails(cfg: Config, batch: seq<Queued>, f: FlushScript)
    requires |f.attempts| == cfg.retryMax + 1
  {
    Fails(Recs(batch), 0, cfg.retryMax, f.attempts, f.write) || !f.committed
  }

  /** The world of a flush, after its retry loop. */
  function AfterIndexing(cfg: Config, s: Worker, f: FlushScript): (World<Rec>, bool)
    requires |f.attempts| == cfg.retryMax + 1
  {
    IndexSafely(s.world.(tally := s.world.tally.(currentBatch := |s.batch|)), Recs(s.batch), cfg.retryMax,
        f.attempts, f.write)
  }

  /** A flush: the batch is emptied exactly when it does not fail, and the offsets move only after
      indexSafely has succeeded. */
  lemma FlushRun(cfg: Config, logs: Logs, s: Worker, f: FlushScript)
    requires s.stage.Fetching? && |f.attempts| == cfg.retryMax + 1
    ensures
      var s' := Run(cfg, logs, s, FlushActions(s, f));
      && s'.stage.Fetching? && s'.position == s.position && s'.parked == s.parked && s'.replay == s.replay
      && (s.batch == [] ==> s' == s)
      && (s.batch != [] ==>
            var (w, ok) := AfterIndexing(cfg, s, f);
            && s'.batch == (if FlushFails(cfg, s.batch, f) then s.batch else [])
            && s'.committed == (if ok then Reachable(s.committed, s.batch, f.offsets) else s.committed)
            && (ok <==> !Fails(Recs(s.batch), 0, cfg.retryMax, f.attempts, f.write))
            && s'.world == w.(tally := w.tally.(currentBatch := s'.world.tally.currentBatch))
            && s'.world.tally.currentBatch == (if FlushFails(cfg, s.batch, f) then w.tally.currentBatch else 0))
  {
    hide Run, Step, IndexSafely, Fails;
    if s.batch == [] {
      FlushOfNothing(cfg, logs, s, f);
    } else {
      var offsets := Reachable(s.committed, s.batch, f.offsets);
      StartIs(cfg, logs, s);
      var s1 := Step(cfg, logs, s, StartFlush);
      RunAppend(cfg, logs, s, [StartFlush], IndexActions(f) + [Commit(f.committed, offsets)]);
      RunOne(cfg, logs, s, StartFlush);
      IndexRun(cfg, logs, s1, Recs(s.batch), f);
      FailsExactly(s1.world, Recs(s.batch), cfg.retryMax, f.attempts, f.write);
      RunOneMore(cfg, logs, s1, IndexActions(f), Commit(f.committed, offsets));
      CommitIs(cfg, logs, Run(cfg, logs, s1, IndexActions(f)), f.committed, offsets);
    }
  }

  lemma StartIs(cfg: Config, logs: Logs, s: Worker)
    requires s.stage.Fetching? && s.batch != []
    ensures Step(cfg, logs, s, StartFlush) ==
            s.(stage := Indexing(Recs(s.batch), 0),
                world := s.world.(tally := s.world.tally.(currentBatch := |s.batch|)))
  {
  }

  /** Its run from the first attempt on. */
  lemma Started(cfg: Config, logs: Logs, s: Worker, f: FlushScript)
    requires s.stage.Fetching? && s.batch != []
    ensures
      var s1 := s.(stage := Indexing(Recs(s.batch), 0),
          world := s.world.(tally := s.world.tally.(currentBatch := |s.batch|)));
      && Step(cfg, logs, s, StartFlush) == s1
      && Run(cfg, logs, s, FlushActions(s, f)) ==
         Run(cfg, logs, s1, IndexActions(f) + [Commit(f.committed, Reachable(s.committed, s.batch, f.offsets))])
  {
    hide Run, Step, IndexActions, Reachable;
    StartIs(cfg, logs, s);
    RunOne(cfg, logs, s, StartFlush);
    RunAppend(cfg, logs, s, [StartFlush],
        IndexActions(f) + [Commit(f.committed, Reachable(s.committed, s.batch, f.offsets))]);
  }

  /** Elasticsearch stores the whole batch at the first attempt, and the commit succeeds. */
  predicate Succeeds(f: FlushScript, n: nat) {
    f.attempts != [] && Accepts(f.attempts[0], n) && f.committed
  }

  /** Then the batch is empty and every record of it is in Elasticsearch. */
  lemma FlushSucceeds(cfg: Config, logs: Logs, s: Worker, f: FlushScript)
    requires s.stage.Fetching? && |f.attempts| == cfg.retryMax + 1 && Succeeds(f, |s.batch|)
    ensures
      var s' := Run(cfg, logs, s, FlushActions(s, f));
      && s'.batch == [] && s'.world.es == s.world.es + multiset(Recs(s.batch))
      && s'.world.dlq == s.world.dlq && s'.world.files == s.world.files
    ensures s.batch != [] ==> !FlushFails(cfg, s.batch, f)
  {
    hide Run, OneAttempt, Fails;
    FlushRun(cfg, logs, s, f);
    if s.batch != [] {
      var w := s.world.(tally := s.world.tally.(currentBatch := |s.batch|));
      AcceptedAtOnce(w, Recs(s.batch), 0, cfg.retryMax, f.attempts[0]);
    }
  }

  /** Nothing answers, and the replay file and the commit succeed: the batch is in a new replay file. */
  lemma FlushSpills(cfg: Config, logs: Logs, s: Worker, f: FlushScript)
    requires s.stage.Fetching? && |f.attempts| == cfg.retryMax + 1 && s.batch != []
    requires Unanswered(f.attempts, cfg.retryMax) && f.write.Written? && f.committed
    ensures
      var s' := Run(cfg, logs, s, FlushActions(s, f));
      s'.batch == [] && s'.world.files == s.world.files + [File(Recs(s.batch))] && s'.world.dlq == s.world.dlq
  {
    hide Run, Fails, IndexSafely;
    FlushRun(cfg, logs, s, f);
    var w := s.world.(tally := s.world.tally.(currentBatch := |s.batch|));
    UnreachableElasticsearch(w, Recs(s.batch), cfg.retryMax, f.attempts);
  }

  /** All this in one. */
  lemma FlushOutcome(cfg: Config, logs: Logs, s: Worker, f: FlushScript)
    requires s.stage.Fetching? && |f.attempts| == cfg.retryMax + 1
    ensures
      var s' := Run(cfg, logs, s, FlushActions(s, f));
      && s'.stage.Fetching? && s'.position == s.position
      && (s.batch == [] ==> s' == s)
      && (s.batch != [] ==>
            && s'.batch == (if FlushFails(cfg, s.batch, f) then s.batch else [])
            && s'.committed == (if Fails(Recs(s.batch), 0, cfg.retryMax, f.attempts, f.write) then s.committed
                                else Reachable(s.committed, s.batch, f.offsets)))
      && (Succeeds(f, |s.batch|) ==>
            && s'.batch == [] && s'.world.es == s.world.es + multiset(Recs(s.batch))
            && s'.world.dlq == s.world.dlq && s'.world.files == s.world.files)
      && (s.batch != [] && Unanswered(f.attempts, cfg.retryMax) && f.write.Written? && f.committed ==>
            s'.batch == [] && s'.world.files == s.world.files + [File(Recs(s.batch))] && s'.world.dlq == s.world.dlq)
  {
    hide Run, Fails, IndexSafely;
    FlushRun(cfg, logs, s, f);
    if Succeeds(f, |s.batch|) {
      FlushSucceeds(cfg, logs, s, f);
    }
    if s.batch != [] && Unanswered(f.attempts, cfg.retryMax) && f.write.Written? && f.committed {
      FlushSpills(cfg, logs, s, f);
    }
  }

  /** Nothing in Elasticsearch is lost by a flush. */
  lemma FlushOnlyAdds(cfg: Config, logs: Logs, s: Worker, f: FlushScript)
    requires s.stage.Fetching? && |f.attempts| == cfg.retryMax + 1
    ensures s.world.es <= Run(cfg, logs, s, FlushActions(s, f)).world.es
  {
    hide Run, Fails, Attempts;
    FlushRun(cfg, logs, s, f);
    if s.batch != [] {
      var w := s.world.(tally := s.world.tally.(currentBatch := |s.batch|));
      AttemptsOnlyAdd(w, Recs(s.batch), 0, cfg.retryMax, f.attempts);
      var (w1, next) := Attempts(w, Recs(s.batch), 0, cfg.retryMax, f.attempts);
      if next.Spill? {
        SpillOnlyAdds(w1, next.rest, f.write);
      }
    }
  }

  lemma {:induction false} AttemptsOnlyAdd(w: World<Rec>, pending: seq<Rec>, attempt: nat, retryMax: nat,
      script: seq<Attempt>)
    requires attempt <= retryMax < |script|
    ensures w.es <= Attempts(w, pending, attempt, retryMax, script).0.es
    decreases retryMax - attempt
  {
    hide OneAttempt;
    var (w1, next) := OneAttempt(w, pending, attempt, retryMax, script[attempt]);
    OneAttemptShape(w, pending, attempt, retryMax, script[attempt]);
    if next.Again? {
      AttemptsOnlyAdd(w1, next.rest, attempt + 1, retryMax, script);
    }
  }

  // ---- A turn of the consuming loop ----

  /** The loop ends with a turn that finds the context done, before or during its fetch. */
  predicate Stops(t: Turn) {
    t.wake.Done? || t.fetched == FetchFailed(true)
  }

  /** Whatever waits was fetched before the next offset to fetch. */
  predicate InOrder(position: seq<nat>, batch: seq<Queued>) {
    forall q | q in batch :: q.at.part < |position| && q.at.off < position[q.at.part]
  }

  predicate Ready(cfg: Config, logs: Logs, s: Worker) {
    s.stage.Fetching? && |s.position| == |logs| == |s.committed| && InOrder(s.position, s.batch)
  }

  /** The fetch is cancelled while the batch still waits: no flush before the fetch has emptied it. */
  predicate FlushedOnCancel(cfg: Config, batch: seq<Queued>, t: Turn)
    requires Answers(cfg, t)
  {
    && !t.wake.Done? && t.fetched == FetchFailed(true)
    && (t.wake.Neither? || (batch != [] && FlushFails(cfg, batch, t.flushed)))
  }

  /** The turn fetches this message. */
  predicate Offers(t: Turn, p: nat) {
    !t.wake.Done? && t.fetched == Message(p)
  }

  /** The offsets of partition `p` that these turns offer, up to the turn that ends the loop. */
  function Offered(turns: seq<Turn>, p: nat): nat {
    if turns == [] then 0
    else (if Offers(turns[0], p) then 1 else 0) + (if Stops(turns[0]) then 0 else Offered(turns[1..], p))
  }

  /** The position of a partition of `length` messages after `n` more were offered. */
  function Advanced(position: nat, n: nat, length: nat): nat {
    if position >= length then position else if position + n < length then position + n else length
  }

  /** After the first half of a turn. */
  lemma WokenRun(cfg: Config, logs: Logs, s: Worker, t: Turn)
    requires Ready(cfg, logs, s) && Answers(cfg, t)
    ensures
      var woken := if t.wake.Neither? then [] else FlushActions(s, t.flushed);
      var s1 := Run(cfg, logs, s, woken);
      && Ready(cfg, logs, s1) && s1.position == s.position && s.world.es <= s1.world.es
      && (s1.batch == s.batch || s1.batch == [])
      && (t.wake.Neither? ==> s1 == s)
      && (!t.wake.Neither? && s.batch != [] ==> s1.batch == if FlushFails(cfg, s.batch, t.flushed) then s.batch else [])
      && (!t.wake.Neither? && Succeeds(t.flushed, |s.batch|) ==>
            s1.batch == [] && s1.world.es == s.world.es + multiset(Recs(s.batch)))
  {
    hide Run, Fails;
    RunNothing(cfg, logs, s);
    if !t.wake.Neither? {
      FlushRun(cfg, logs, s, t.flushed);
      FlushOnlyAdds(cfg, logs, s, t.flushed);
      if Succeeds(t.flushed, |s.batch|) {
        FlushSucceeds(cfg, logs, s, t.flushed);
      }
    }
  }

  /** The second half: the fetch, and a flush when the batch is full or the fetch was cancelled. */
  lemma FetchRun(cfg: Config, logs: Logs, bulkSize: nat, s: Worker, t: Turn)
    requires Ready(cfg, logs, s) && Answers(cfg, t)
    ensures
      var (actions, stop) := FetchActions(cfg, logs, bulkSize, s, t);
      var s' := Run(cfg, logs, s, actions);
      && Ready(cfg, logs, s') && s.world.es <= s'.world.es
      && (stop <==> t.fetched == FetchFailed(true))
      && (forall p | 0 <= p < |logs| ::
            s'.position[p] == s.position[p] + if t.fetched == Message(p) && s.position[p] < |logs[p]| then 1 else 0)
      && (|s.batch| < bulkSize ==> |s'.batch| < bulkSize || FlushFails(cfg, s'.batch, t.full))
      && (t.fetched == FetchFailed(true) && Succeeds(t.full, |s.batch|) ==>
            s'.batch == [] && s'.world.es == s.world.es + multiset(Recs(s.batch)))
      && (t.fetched == FetchFailed(false) ==> s' == s)
      && (s'.batch == [] || s'.batch == s.batch
          || exists q | q in s'.batch :: s'.batch == s.batch + [q] && s.position[q.at.part] == q.at.off)
  {
    hide Run, Fails, FlushFails, Succeeds, FlushActions, PoisonActions, Reachable;
    RunNothing(cfg, logs, s);
    match t.fetched
    case FetchFailed(cancelled) =>
      if cancelled {
        FlushRun(cfg, logs, s, t.full);
        FlushOnlyAdds(cfg, logs, s, t.full);
        if Succeeds(t.full, |s.batch|) {
          FlushSucceeds(cfg, logs, s, t.full);
        }
      }
    case Message(p) =>
      if Enabled(cfg, logs, s, Fetch(p)) {
        MessageRun(cfg, logs, bulkSize, s, t);
      }
  }

  lemma MessageRun(cfg: Config, logs: Logs, bulkSize: nat, s: Worker, t: Turn)
    requires Ready(cfg, logs, s) && Answers(cfg, t) && t.fetched.Message?
        && Enabled(cfg, logs, s, Fetch(t.fetched.part))
    ensures
      var p := t.fetched.part;
      var s' := Run(cfg, logs, s, FetchActions(cfg, logs, bulkSize, s, t).0);
      && Ready(cfg, logs, s') && s.world.es <= s'.world.es && s'.position == s.position[p := s.position[p] + 1]
      && var at, decoded := Pos(p, s.position[p]), cfg.decode(logs[p][s.position[p]]);
         && (decoded.None? ==> s'.batch == s.batch)
         && (decoded.Some? ==>
               var queued := s.batch + [Queued(at, decoded.value)];
               s'.batch == if |queued| >= bulkSize && !FlushFails(cfg, queued, t.full) then [] else queued)
  {
    hide Run, Step, Fails, Enabled, FetchActions, FlushActions, PoisonActions, FlushFails, InOrder;
    var p := t.fetched.part;
    FetchIs(cfg, logs, s, p);
    FetchKeepsEs(cfg, logs, s, p);
    FetchSplits(cfg, logs, bulkSize, s, t);
    var s1 := Step(cfg, logs, s, Fetch(p));
    if s1.stage.Poisoned? {
      StillInOrder(s.position, s.batch, p);
      PoisonedRun(cfg, logs, s1, t);
    } else {
      QueuedInOrder(s.position, s.batch, p, cfg.decode(logs[p][s.position[p]]).value);
      FullRun(cfg, logs, s1, t.full);
    }
  }

  lemma PoisonedRun(cfg: Config, logs: Logs, s: Worker, t: Turn)
    requires s.stage.Poisoned? && s.stage.at.part < |logs| == |s.committed| && s.stage.at.off < |logs[s.stage.at.part]|
    ensures
      var s' := Run(cfg, logs, s, PoisonActions(cfg, logs[s.stage.at.part][s.stage.at.off].value, t));
      && s'.stage.Fetching? && s'.batch == s.batch && s'.position == s.position && |s'.committed| == |s.committed|
      && s'.world.es == s.world.es
  {
    hide Run, PoisonActions, IsJson;
    PoisonRun(cfg, logs, s, logs[s.stage.at.part][s.stage.at.off].value, t);
  }

  lemma FullRun(cfg: Config, logs: Logs, s: Worker, f: FlushScript)
    requires Ready(cfg, logs, s) && |f.attempts| == cfg.retryMax + 1 && s.batch != []
    ensures
      var s' := Run(cfg, logs, s, FlushActions(s, f));
      && Ready(cfg, logs, s') && s.world.es <= s'.world.es && s'.position == s.position
      && s'.batch == if FlushFails(cfg, s.batch, f) then s.batch else []
  {
    hide Run, FlushActions, Fails, FlushFails, InOrder, Recs, IndexSafely;
    FlushRun(cfg, logs, s, f);
    FlushOnlyAdds(cfg, logs, s, f);
    NothingInOrder(s.position);
  }

  lemma StillInOrder(position: seq<nat>, batch: seq<Queued>, p: nat)
    requires InOrder(position, batch) && p < |position|
    ensures InOrder(position[p := position[p] + 1], batch)
  {
  }

  lemma QueuedInOrder(position: seq<nat>, batch: seq<Queued>, p: nat, rec: Rec)
    requires InOrder(position, batch) && p < |position|
    ensures InOrder(position[p := position[p] + 1], batch + [Queued(Pos(p, position[p]), rec)])
  {
  }

  lemma NothingInOrder(position: seq<nat>)
    ensures InOrder(position, [])
  {
  }

  /** A fetch, and then the dead letter, the flush of a full batch, or nothing. */
  lemma FetchSplits(cfg: Config, logs: Logs, bulkSize: nat, s: Worker, t: Turn)
    requires t.fetched.Message? && Enabled(cfg, logs, s, Fetch(t.fetched.part)) && Answers(cfg, t)
    ensures
      var p := t.fetched.part;
      var s1 := Step(cfg, logs, s, Fetch(p));
      && p < |logs| == |s.position| && s.position[p] < |logs[p]|
      && Run(cfg, logs, s, FetchActions(cfg, logs, bulkSize, s, t).0) ==
         if s1.stage.Poisoned? then Run(cfg, logs, s1, PoisonActions(cfg, logs[p][s.position[p]].value, t))
         else if |s1.batch| >= bulkSize then Run(cfg, logs, s1, FlushActions(s1, t.full))
         else s1
  {
    hide Run, Step, FlushActions, PoisonActions;
    var p := t.fetched.part;
    var s1 := Step(cfg, logs, s, Fetch(p));
    RunOne(cfg, logs, s, Fetch(p));
    RunAppend(cfg, logs, s, [Fetch(p)], PoisonActions(cfg, logs[p][s.position[p]].value, t));
    RunAppend(cfg, logs, s, [Fetch(p)], FlushActions(s1, t.full));
    assert [Fetch(p)] + [] == [Fetch(p)];
  }

  lemma FetchKeepsEs(cfg: Config, logs: Logs, s: Worker, p: nat)
    requires Enabled(cfg, logs, s, Fetch(p))
    ensures
      var s' := Step(cfg, logs, s, Fetch(p));
      p < |logs| == |s.position| && s.position[p] < |logs[p]| && s'.world.es == s.world.es
  {
  }

  lemma PoisonRun(cfg: Config, logs: Logs, s: Worker, value: string, t: Turn)
    requires s.stage.Poisoned? && s.stage.at.part < |logs| == |s.committed| && s.stage.at.off < |logs[s.stage.at.part]|
    requires value == logs[s.stage.at.part][s.stage.at.off].value
    ensures
      var s' := Run(cfg, logs, s, PoisonActions(cfg, value, t));
      var fits, at, tally := value == "" || IsJson(value), s.stage.at, s.world.tally;
      var counted := if fits && t.sent && t.poisonCommitted then 1 else 0;
      && s'.stage.Fetching? && s'.batch == s.batch && s'.position == s.position
      && s'.parked == (if fits && (t.sent || t.kept) then s.parked + {at} else s.parked)
      && s'.committed == (if fits && t.sent && t.poisonMoved then s.committed[at.part := at.off + 1] else s.committed)
      && s'.world == s.world.(tally := tally.(dlq := tally.dlq + counted, failed := tally.failed + counted))
  {
    assert FitsDeadLetter(value) == (value == "" || IsJson(value));
    hide Run, Step, FitsDeadLetter, IsJson;
    var fits := value == "" || IsJson(value);
    var send, commit := SendPoison(fits && t.sent, fits && t.kept), CommitPoison(t.poisonCommitted, t.poisonMoved);
    PoisonIs(cfg, logs, s, send.ok, send.kept, t.poisonCommitted, t.poisonMoved);
    RunOne(cfg, logs, s, send);
    RunOneMore(cfg, logs, s, [send], commit);
    assert PoisonActions(cfg, value, t) == [send] + [commit];
  }

  /** The two halves of a turn. */
  lemma TurnSplits(cfg: Config, logs: Logs, bulkSize: nat, s: Worker, t: Turn)
    ensures
      var (actions, stop) := TurnActions(cfg, logs, bulkSize, s, t);
      var s1 := if t.wake.Neither? then s else Run(cfg, logs, s, FlushActions(s, t.flushed));
      var (more, last) := FetchActions(cfg, logs, bulkSize, s1, t);
      && (t.wake.Done? ==> stop && Run(cfg, logs, s, actions) == s1)
      && (!t.wake.Done? ==> stop == last && Run(cfg, logs, s, actions) == Run(cfg, logs, s1, more))
  {
    hide Run, FetchActions, FlushActions;
    RunNothing(cfg, logs, s);
    var woken := if t.wake.Neither? then [] else FlushActions(s, t.flushed);
    RunAppend(cfg, logs, s, woken, FetchActions(cfg, logs, bulkSize, Run(cfg, logs, s, woken), t).0);
  }

  /** A whole turn, told by what it leaves in the batch, in Elasticsearch and of the topic. */
  lemma TurnRun(cfg: Config, logs: Logs, bulkSize: nat, s: Worker, t: Turn)
    requires Ready(cfg, logs, s) && Answers(cfg, t)
    ensures
      var (actions, stop) := TurnActions(cfg, logs, bulkSize, s, t);
      var s' := Run(cfg, logs, s, actions);
      && Ready(cfg, logs, s') && s.world.es <= s'.world.es
      && (stop <==> t.wake.Done? || t.fetched == FetchFailed(true))
      && (forall p | 0 <= p < |logs| ::
            s'.position[p] == s.position[p] + if Offers(t, p) && s.position[p] < |logs[p]| then 1 else 0)
      && (|s.batch| < bulkSize ==> |s'.batch| < bulkSize || FlushFails(cfg, s'.batch, t.full))
      && (!t.wake.Neither? && Succeeds(t.flushed, |s.batch|) ==>
            (forall q | q in s.batch :: q !in s'.batch) && forall r | r in Recs(s.batch) :: r in s'.world.es)
      && (FlushedOnCancel(cfg, s.batch, t) && Succeeds(t.full, |s.batch|) ==>
            s'.batch == [] && forall r | r in Recs(s.batch) :: r in s'.world.es)
  {
    hide Run, FetchActions, FlushActions, Fails, FlushFails, Succeeds;
    var woken := if t.wake.Neither? then [] else FlushActions(s, t.flushed);
    WokenRun(cfg, logs, s, t);
    var s1 := Run(cfg, logs, s, woken);
    if !t.wake.Done? {
      FetchRun(cfg, logs, bulkSize, s1, t);
      RunAppend(cfg, logs, s, woken, FetchActions(cfg, logs, bulkSize, s1, t).0);
    }
  }

  // ---- A replay pass ----

  /** The file can be read and holds events. */
  predicate Readable(files: seq<ReplayFile<Rec>>, f: FileScript) {
    f.read && f.file < |files| && files[f.file].File? && files[f.file].events != []
  }

  /** The file can be read, holds nothing and is removed. */
  predicate Emptied(files: seq<ReplayFile<Rec>>, f: FileScript) {
    f.read && f.emptied && f.file < |files| && files[f.file] == File([])
  }

  /** Elasticsearch answers for the events, and none of them is to be tried again. */
  predicate Takes(events: seq<Rec>, o: Attempt) {
    var (result, ok) := BulkIndex(events, o.reply);
    ok && result.retryable == []
  }

  /** The dead letters are written and the file is removed. */
  predicate Clears(events: seq<Rec>, f: FileScript) {
    !LetterFails(events, f.attempt) && f.removed
  }

  predicate Accepted(files: seq<ReplayFile<Rec>>, f: FileScript) {
    Readable(files, f) && Takes(files[f.file].events, f.attempt)
  }

  /** The one thing that ends a pass: a file whose events are taken, and a dead letter or the removal
      fails. */
  predicate Blocks(files: seq<ReplayFile<Rec>>, f: FileScript) {
    Accepted(files, f) && !Clears(files[f.file].events, f)
  }

  /** The file is removed. */
  predicate Goes(files: seq<ReplayFile<Rec>>, f: FileScript) {
    Emptied(files, f) || (Accepted(files, f) && Clears(files[f.file].events, f))
  }

  predicate Placed(es: multiset<Rec>, letters: multiset<Rec>, events: seq<Rec>) {
    forall r | r in events :: r in es || r in letters
  }

  /** If the file goes and Elasticsearch answered truly, its events are documents or dead letters. */
  predicate PlacedIfTrue(files: seq<ReplayFile<Rec>>, f: FileScript, es: multiset<Rec>, letters: multiset<Rec>) {
    Accepted(files, f) && Clears(files[f.file].events, f) && Faithful(f.attempt, files[f.file].events) ==>
      Placed(es, letters, files[f.file].events)
  }

  /** One file of a pass. */
  lemma FileRun(cfg: Config, logs: Logs, s: Worker, f: FileScript, rest: seq<nat>)
    requires s.replay == Pass([f.file] + rest)
    ensures
      var s' := Run(cfg, logs, s, FileActions(f));
      var files := s.world.files;
      && (s'.replay == if Blocks(files, f) then Idle else Pass(rest))
      && s'.world.files == (if Goes(files, f) then files[f.file := Gone] else files)
      && s.world.es <= s'.world.es && s.world.dlq <= s'.world.dlq
      && (!Readable(files, f) ==> s'.world.es == s.world.es && s'.world.dlq == s.world.dlq)
      && s'.world.tally == FileTally(s.world.tally, files, f)
      && PlacedIfTrue(files, f, s'.world.es, s'.world.dlq)
  {
    hide Run, Step, Takes, LetterFails;
    var read, reindex, remove := ReadFile(f.read, f.emptied), Reindex(f.attempt), RemoveFile(f.removed);
    RunThree(cfg, logs, s, read, reindex, remove);
    ReadIs(cfg, logs, s, f, rest);
    var s1 := Step(cfg, logs, s, read);
    if Readable(s.world.files, f) {
      SendingRun(cfg, logs, s1, f);
    } else {
      NoFileInHand(cfg, logs, s1, reindex);
      NoFileInHand(cfg, logs, s1, remove);
    }
  }

  /** The counters of a file: a failure of Elasticsearch when it does not take the events; what was
      indexed, buried and replayed when it does and the dead letters are written. */
  function FileTally(t: Tally, files: seq<ReplayFile<Rec>>, f: FileScript): Tally {
    if !Readable(files, f) then t
    else
      var events := files[f.file].events;
      var result := BulkIndex(events, f.attempt.reply).0;
      var n := |result.permanent|;
      if !Takes(events, f.attempt) then t.(esFailures := t.esFailures + 1)
      else if LetterFails(events, f.attempt) then t
      else t.(dlq := t.dlq + n, failed := t.failed + n, indexed := t.indexed + result.indexed,
              replayed := t.replayed + |events|)
  }

  lemma ReadIs(cfg: Config, logs: Logs, s: Worker, f: FileScript, rest: seq<nat>)
    requires s.replay == Pass([f.file] + rest)
    ensures
      var s' := Step(cfg, logs, s, ReadFile(f.read, f.emptied));
      var files := s.world.files;
      if Readable(files, f) then s' == s.(replay := Sending(f.file, files[f.file].events, rest))
      else s' == s.(replay := Pass(rest),
                    world := s.world.(files := if Emptied(files, f) then files[f.file := Gone] else files))
  {
    assert ([f.file] + rest)[1..] == rest;
  }

  lemma NoFileInHand(cfg: Config, logs: Logs, s: Worker, a: Action)
    requires s.replay.Pass? && (a.Reindex? || a.RemoveFile?)
    ensures Step(cfg, logs, s, a) == s
  {
  }

  lemma SendingRun(cfg: Config, logs: Logs, s: Worker, f: FileScript)
    requires s.replay.Sending? && s.replay.file == f.file < |s.world.files|
    requires Readable(s.world.files, f) && s.replay.events == s.world.files[f.file].events
    ensures
      var s' := Step(cfg, logs, Step(cfg, logs, s, Reindex(f.attempt)), RemoveFile(f.removed));
      var files, events := s.world.files, s.replay.events;
      && (s'.replay == if Takes(events, f.attempt) && !Clears(events, f) then Idle else Pass(s.replay.todo))
      && s'.world.files == (if Takes(events, f.attempt) && Clears(events, f) then files[f.file := Gone] else files)
      && s.world.es <= s'.world.es && s.world.dlq <= s'.world.dlq
      && s'.world.tally == FileTally(s.world.tally, files, f)
      && (Takes(events, f.attempt) && Clears(events, f) && Faithful(f.attempt, events) ==>
            Placed(s'.world.es, s'.world.dlq, events))
  {
    hide BulkIndex, Faithful, Step, LettersOf, Pick;
    var (result, ok) := BulkIndex(s.replay.events, f.attempt.reply);
    var s1 := Step(cfg, logs, s, Reindex(f.attempt));
    ReindexIsCounted(cfg, logs, s, f.attempt, result, ok, f.removed);
    ReindexStep(cfg, logs, s, f.attempt);
    if s1.replay.Clearing? {
      RemoveIs(cfg, logs, s1, f.removed);
    }
  }

  lemma ReindexStep(cfg: Config, logs: Logs, s: Worker, o: Attempt)
    requires s.replay.Sending?
    ensures
      var s' := Step(cfg, logs, s, Reindex(o));
      s'.replay.Clearing? && Faithful(o, s.replay.events) ==> Placed(s'.world.es, s'.world.dlq, s.replay.events)
  {
    hide ApplyReindex, Faithful;
    if Faithful(o, s.replay.events) {
      ReindexPlaces(s, o);
    }
  }

  /** Only files that were read go: those without events, and those that Elasticsearch took. */
  predicate OnlyTheseGo(before: seq<ReplayFile<Rec>>, after: seq<ReplayFile<Rec>>, pass: seq<FileScript>) {
    && |after| == |before|
    && forall j | 0 <= j < |before| :: after[j] == before[j] ||
         (after[j].Gone? && exists f | f in pass :: f.file == j && Goes(before, f))
  }

  /** Every file that Elasticsearch took, or that held nothing and could be removed, is gone. */
  predicate TheseAreGone(before: seq<ReplayFile<Rec>>, after: seq<ReplayFile<Rec>>, pass: seq<FileScript>) {
    forall f | f in pass && (Accepted(before, f) || Emptied(before, f)) :: f.file < |after| && after[f.file].Gone?
  }

  /** What Elasticsearch answered for this file was true. */
  predicate Truthful(pass: seq<FileScript>, j: nat, events: seq<Rec>) {
    forall f | f in pass && f.file == j :: Faithful(f.attempt, events)
  }

  /** The events of the files that went are documents or dead letters. */
  predicate GoneArePlaced(before: seq<ReplayFile<Rec>>, after: seq<ReplayFile<Rec>>, es: multiset<Rec>,
      letters: multiset<Rec>, pass: seq<FileScript>) {
    forall j | 0 <= j < |before| && j < |after| && after[j] != before[j] && Truthful(pass, j, FileEvents(before[j])) ::
      Placed(es, letters, FileEvents(before[j]))
  }

  /** No name comes twice, as in a directory listing. */
  predicate Distinct(pass: seq<FileScript>) {
    forall i, j | 0 <= i < j < |pass| :: pass[i].file != pass[j].file
  }

  /** What an earlier part of the pass did to the files does not change what happens to this one. */
  lemma BlocksBefore(before: seq<ReplayFile<Rec>>, now: seq<ReplayFile<Rec>>, pass: seq<FileScript>, f: FileScript)
    requires OnlyTheseGo(before, now, pass)
    ensures Blocks(now, f) ==> Blocks(before, f)
    ensures Goes(now, f) ==> f.file < |now| && Goes(before, f) && now[f.file] == before[f.file]
    ensures (Accepted(before, f) || Emptied(before, f)) && !Blocks(now, f) ==>
        f.file < |now| && (Goes(now, f) || now[f.file].Gone?)
    ensures (forall g | g in pass :: g.file != f.file) && Blocks(before, f) ==> Blocks(now, f)
    ensures Goes(before, f) && !Emptied(before, f) ==> FileEvents(before[f.file]) == before[f.file].events
  {
    hide Takes, LetterFails;
  }

  /** One more file of the pass. */
  lemma OneMoreFile(before: seq<ReplayFile<Rec>>, now: seq<ReplayFile<Rec>>, after: seq<ReplayFile<Rec>>,
      pass: seq<FileScript>, f: FileScript)
    requires OnlyTheseGo(before, now, pass) && TheseAreGone(before, now, pass) && !Blocks(now, f)
    requires Goes(now, f) ==> f.file < |now|
    requires after == if Goes(now, f) then now[f.file := Gone] else now
    ensures OnlyTheseGo(before, after, pass + [f]) && TheseAreGone(before, after, pass + [f])
  {
    BlocksBefore(before, now, pass, f);
    hide Blocks, Goes, Accepted, Emptied;
    assert f in pass + [f];
    assert forall g :: g in pass + [f] <==> g in pass || g == f;
  }

  lemma OneMorePlaced(before: seq<ReplayFile<Rec>>, now: seq<ReplayFile<Rec>>, after: seq<ReplayFile<Rec>>,
      pass: seq<FileScript>, f: FileScript, es: multiset<Rec>, letters: multiset<Rec>, es': multiset<Rec>,
      letters': multiset<Rec>)
    requires es <= es' && letters <= letters'
    requires OnlyTheseGo(before, now, pass) && GoneArePlaced(before, now, es, letters, pass)
    requires Goes(now, f) ==> f.file < |now|
    requires after == if Goes(now, f) then now[f.file := Gone] else now
    requires PlacedIfTrue(now, f, es', letters')
    ensures GoneArePlaced(before, after, es', letters', pass + [f])
  {
    BlocksBefore(before, now, pass, f);
    hide Blocks, Faithful, Clears, Takes, LetterFails;
    assert f in pass + [f];
    forall j | 0 <= j < |before| && j < |after| && after[j] != before[j]
        && Truthful(pass + [f], j, FileEvents(before[j]))
      ensures Placed(es', letters', FileEvents(before[j]))
    {
      assert Truthful(pass, j, FileEvents(before[j])) by {
        assert forall g | g in pass :: g in pass + [f];
      }
      if now[j] != before[j] {
        assert Placed(es, letters, FileEvents(before[j]));
      }
    }
  }

  lemma NoActionsYet()
    ensures PassActions([]) == []
  {
  }

  lemma NoFilesYet(files: seq<ReplayFile<Rec>>, o: Outside)
    ensures OnlyTheseGo(files, files, []) && TheseAreGone(files, files, [])
        && GoneArePlaced(files, files, o.es, o.letters, [])
  {
  }

  lemma GoesIsAFile(files: seq<ReplayFile<Rec>>, f: FileScript)
    ensures (Goes(files, f) ==> f.file < |files|) && (Accepted(files, f) ==> f.file < |files| && files[f.file].File?)
    ensures Blocks(files, f) ==> !Goes(files, f)
  {
  }

  /** What a file of the pass leaves of the statement about the files before it. */
  lemma NextOfPass(before: seq<ReplayFile<Rec>>, now: seq<ReplayFile<Rec>>, after: seq<ReplayFile<Rec>>,
      pass: seq<FileScript>, i: nat, held: Outside, holds: Outside)
    requires i < |pass| && held.es <= holds.es && held.letters <= holds.letters
    requires OnlyTheseGo(before, now, pass[..i]) && TheseAreGone(before, now, pass[..i])
    requires GoneArePlaced(before, now, held.es, held.letters, pass[..i])
    requires Goes(now, pass[i]) ==> pass[i].file < |now|
    requires after == if Goes(now, pass[i]) then now[pass[i].file := Gone] else now
    requires PlacedIfTrue(now, pass[i], holds.es, holds.letters)
    ensures Blocks(now, pass[i]) ==>
        && Blocks(before, pass[i]) && OnlyTheseGo(before, after, pass[..i]) && TheseAreGone(before, after, pass[..i])
        && GoneArePlaced(before, after, holds.es, holds.letters, pass[..i])
    ensures !Blocks(now, pass[i]) ==>
        && OnlyTheseGo(before, after, pass[..i + 1]) && TheseAreGone(before, after, pass[..i + 1])
        && GoneArePlaced(before, after, holds.es, holds.letters, pass[..i + 1])
        && (Distinct(pass) ==> !Blocks(before, pass[i]))
  {
    hide Clears, Takes, LetterFails, Faithful, Accepted;
    GoesIsAFile(now, pass[i]);
    BlocksBefore(before, now, pass[..i], pass[i]);
    assert pass[..i + 1] == pass[..i] + [pass[i]];
    if !Blocks(now, pass[i]) {
      OneMoreFile(before, now, after, pass[..i], pass[i]);
      OneMorePlaced(before, now, after, pass[..i], pass[i], held.es, held.letters, holds.es, holds.letters);
      assert Distinct(pass) ==> forall g | g in pass[..i] :: g.file != pass[i].file;
    }
  }

  /** A pass that ends with file `i` does nothing more. */
  lemma PassEndsHere(cfg: Config, logs: Logs, s: Worker, glob: Action, pass: seq<FileScript>, i: nat)
    requires i < |pass|
    ensures
      var s1 := Run(cfg, logs, Run(cfg, logs, Step(cfg, logs, s, glob), PassActions(pass[..i])), FileActions(pass[i]));
      s1.replay.Idle? ==> s1 == Run(cfg, logs, s, [glob] + PassActions(pass))
  {
    hide Run, Step, PassActions, FileActions;
    var listed := Step(cfg, logs, s, glob);
    RunOne(cfg, logs, s, glob);
    PassStep(pass, i);
    RunAppend(cfg, logs, listed, PassActions(pass[..i]), FileActions(pass[i]));
    PassSplits(pass, i + 1);
    RunAppend(cfg, logs, listed, PassActions(pass[..i + 1]), PassActions(pass[i + 1..]));
    var s1 := Run(cfg, logs, listed, PassActions(pass[..i + 1]));
    if s1.replay.Idle? {
      PassNeedsAPass(cfg, logs, s1, pass[i + 1..]);
    }
    RunAppend(cfg, logs, s, [glob], PassActions(pass));
  }
}
