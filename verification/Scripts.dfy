/** What the outside world does to the worker during a flush, a turn of the consuming loop and a replay
    pass, and the actions of the machine that this amounts to. */
module Scripts {
  import opened Bulk
  import opened Retry
  import opened Records
  import opened Consumer

  /** None of these actions is enabled now, so none of them ever is. */
  lemma {:induction false} RunOfDisabled(cfg: Config, logs: Logs, s: Worker, actions: seq<Action>)
    requires forall a | a in actions :: !Enabled(cfg, logs, s, a)
    ensures Run(cfg, logs, s, actions) == s
    decreases |actions|
  {
    if actions != [] {
      assert actions[0] in actions;
      RunOfDisabled(cfg, logs, s, actions[1..]);
    }
  }

  function Tries(script: seq<Attempt>): (r: seq<Action>)
    ensures |r| == |script| && forall i | 0 <= i < |script| :: r[i] == TryOnce(script[i])
  {
    seq(|script|, i requires 0 <= i < |script| => TryOnce(script[i]))
  }

  lemma TriesSplit(script: seq<Attempt>, i: nat)
    requires i < |script|
    ensures Tries(script[..i]) + [TryOnce(script[i])] == Tries(script[..i + 1])
  {
  }

  /** What the outside world does during one flush. */
  datatype FlushScript = FlushScript(attempts: seq<Attempt>, write: WriteOutcome, committed: bool, offsets: seq<nat>)

  function IndexActions(f: FlushScript): seq<Action> {
    Tries(f.attempts) + [WriteSpill(f.write)]
  }

  lemma SpillActionsAreLast(f: FlushScript)
    ensures IndexActions(f) == Tries(f.attempts) + [WriteSpill(f.write)]
  {
  }

  /** The offsets asked for, where a commit of this batch can reach them. */
  function Reachable(committed: seq<nat>, batch: seq<Queued>, offsets: seq<nat>): (r: seq<nat>)
    ensures |r| == |committed|
    ensures forall p | 0 <= p < |r| :: r[p] == committed[p] || exists q | q in batch ::
        q.at.part == p && r[p] == q.at.off + 1
  {
    seq(|committed|, p requires 0 <= p < |committed| =>
      if p < |offsets| && exists q | q in batch :: q.at.part == p && offsets[p] == q.at.off + 1 then offsets[p]
      else committed[p])
  }

  lemma ReachableIsCommit(s: Worker, batch: seq<Queued>, offsets: seq<nat>)
    requires batch == s.batch
    ensures CommitEffect(s, Reachable(s.committed, batch, offsets))
  {
  }

  lemma CommitReaches(committed: seq<nat>, batch: seq<Queued>, offsets: seq<nat>, q: Queued)
    requires q in batch && q.at.part < |committed| && q.at.part < |offsets| && offsets[q.at.part] == q.at.off + 1
    ensures Reachable(committed, batch, offsets)[q.at.part] == q.at.off + 1
  {
  }

  function FlushActions(s: Worker, f: FlushScript): seq<Action> {
    [StartFlush] + (IndexActions(f) + [Commit(f.committed, Reachable(s.committed, s.batch, f.offsets))])
  }

  /** One turn of the consuming loop, as the outside world sees it. `flushed` and `full` are the
      flush on a tick (or on shutdown) and the flush of a full batch. */
  datatype Wake = Done | Tick | Neither
  datatype Fetched = FetchFailed(cancelled: bool) | Message(part: nat)
  datatype Turn = Turn(wake: Wake, flushed: FlushScript, fetched: Fetched, sent: bool, kept: bool,
                       poisonCommitted: bool, poisonMoved: bool, full: FlushScript)

  /** A dead letter that cannot be marshalled fails before it is sent. */
  function PoisonActions(cfg: Config, value: string, t: Turn): seq<Action> {
    [SendPoison(FitsDeadLetter(value) && t.sent, FitsDeadLetter(value) && t.kept),
        CommitPoison(t.poisonCommitted, t.poisonMoved)]
  }

  predicate Answers(cfg: Config, t: Turn) {
    |t.flushed.attempts| == |t.full.attempts| == cfg.retryMax + 1
  }

  /** The actions of one turn, and whether the loop ends with it. */
  function TurnActions(cfg: Config, logs: Logs, bulkSize: nat, s: Worker, t: Turn): (seq<Action>, bool) {
    var woken := if t.wake.Neither? then [] else FlushActions(s, t.flushed);
    if t.wake.Done? then (woken, true)
    else
      var (more, stop) := FetchActions(cfg, logs, bulkSize, Run(cfg, logs, s, woken), t);
      (woken + more, stop)
  }

  function FetchActions(cfg: Config, logs: Logs, bulkSize: nat, s: Worker, t: Turn): (seq<Action>, bool) {
    match t.fetched
    case FetchFailed(cancelled) => if cancelled then (FlushActions(s, t.full), true) else ([], false)
    case Message(p) =>
      if !Enabled(cfg, logs, s, Fetch(p)) then ([], false)
      else
        var fetched := Step(cfg, logs, s, Fetch(p));
        if fetched.stage.Poisoned? then ([Fetch(p)] + PoisonActions(cfg, logs[p][s.position[p]].value, t), false)
        else ([Fetch(p)] + (if |fetched.batch| >= bulkSize then FlushActions(fetched, t.full) else []), false)
  }

  /** The actions of the consuming loop. */
  function LoopActions(cfg: Config, logs: Logs, bulkSize: nat, s: Worker, turns: seq<Turn>): seq<Action>
    decreases |turns|
  {
    if turns == [] then []
    else
      var (actions, stop) := TurnActions(cfg, logs, bulkSize, s, turns[0]);
      if stop then actions else actions + LoopActions(cfg, logs, bulkSize, Run(cfg, logs, s, actions), turns[1..])
  }

  /** A pass over replay files: for each, whether it is read, whether an empty one is removed, how the
      bulk call goes, and whether the file is removed at the end. */
  datatype FileScript = FileScript(file: nat, read: bool, emptied: bool, attempt: Attempt, removed: bool)

  function FileActions(f: FileScript): seq<Action> {
    [ReadFile(f.read, f.emptied), Reindex(f.attempt), RemoveFile(f.removed)]
  }

  function PassActions(files: seq<FileScript>): seq<Action> {
    if files == [] then [] else PassActions(files[..|files| - 1]) + FileActions(files[|files| - 1])
  }

  function Names(files: seq<FileScript>): (r: seq<nat>)
    ensures |r| == |files| && forall i | 0 <= i < |files| :: r[i] == files[i].file
  {
    seq(|files|, i requires 0 <= i < |files| => files[i].file)
  }

  /** What the worker's calls leave outside the process: documents in Elasticsearch, dead letters of
      documents and of messages, and the offsets of the group. */
  datatype Outside = Outside(es: multiset<Rec>, letters: multiset<Rec>, parked: set<Pos>, committed: seq<nat>)

  function OutsideOf(s: Worker): Outside {
    Outside(s.world.es, s.world.dlq, s.parked, s.committed)
  }

  lemma NothingToSend(o: DlqOutcome)
    ensures Sent(0, o)
  {
  }

  lemma NoLetters(o: DlqOutcome)
    ensures LettersOf([], o) == multiset{}
  {
  }

  /** The dead letters written, as far as the first write that fails. */
  function LettersOf(failures: seq<Failure<Rec>>, o: DlqOutcome): multiset<Rec> {
    if Sent(|failures|, o) then multiset(Events(failures))
    else multiset(Events(failures[..o.k])) + (if o.kept then multiset{failures[o.k].event} else multiset{})
  }

  // ---- What the actions do ----

  lemma FetchIs(cfg: Config, logs: Logs, s: Worker, p: nat)
    requires Enabled(cfg, logs, s, Fetch(p))
    ensures
      var s' := Step(cfg, logs, s, Fetch(p));
      var at, m := Pos(p, s.position[p]), logs[p][s.position[p]];
      && s'.position == s.position[p := s.position[p] + 1] && s'.committed == s.committed && s'.parked == s.parked
      && s'.world == s.world.(tally := s.world.tally.(consumed := s.world.tally.consumed + 1))
      && s'.stage == (if cfg.decode(m).None? then Poisoned(at) else Fetching)
      && s'.batch == (if cfg.decode(m).None? then s.batch else s.batch + [Queued(at, cfg.decode(m).value)])
  {
  }

  lemma CommitIs(cfg: Config, logs: Logs, s: Worker, ok: bool, offsets: seq<nat>)
    requires CommitEffect(s, offsets)
    ensures
      var s' := Step(cfg, logs, s, Commit(ok, offsets));
      if s.stage.Committing? then s' == ApplyCommit(s, ok, offsets) else s' == s
  {
  }

  lemma PoisonIs(cfg: Config, logs: Logs, s: Worker, ok: bool, kept: bool, committed: bool, moved: bool)
    requires Enabled(cfg, logs, s, SendPoison(ok, kept)) && s.stage.at.part < |s.committed|
    ensures
      var s' := Step(cfg, logs, Step(cfg, logs, s, SendPoison(ok, kept)), CommitPoison(committed, moved));
      var t := s.world.tally;
      && s'.stage == Fetching && s'.batch == s.batch && s'.position == s.position && |s'.committed| == |s.committed|
      && s'.world == s.world.(tally := if ok && committed then t.(dlq := t.dlq + 1, failed := t.failed + 1) else t)
      && s'.parked == (if ok || kept then s.parked + {s.stage.at} else s.parked)
      && s'.committed == (if ok && moved then s.committed[s.stage.at.part := s.stage.at.off + 1] else s.committed)
  {
  }

  lemma PassStep(pass: seq<FileScript>, i: nat)
    requires i < |pass|
    ensures PassActions(pass[..i + 1]) == PassActions(pass[..i]) + FileActions(pass[i])
  {
    hide FileActions;
    assert pass[..i + 1][..i] == pass[..i];
  }

  lemma {:induction false} PassSplits(pass: seq<FileScript>, i: nat)
    requires i <= |pass|
    ensures PassActions(pass) == PassActions(pass[..i]) + PassActions(pass[i..])
  {
    if i == |pass| {
      assert pass[..i] == pass;
    } else {
      var n := |pass| - 1;
      assert pass[..n][..i] == pass[..i] && pass[..n][i..] == pass[i..][..n - i];
      PassSplits(pass[..n], i);
    }
  }

  lemma {:induction false} PassNeedsAPass(cfg: Config, logs: Logs, s: Worker, pass: seq<FileScript>)
    requires s.replay.Idle?
    ensures Run(cfg, logs, s, PassActions(pass)) == s
    decreases |pass|
  {
    if pass != [] {
      var n := |pass| - 1;
      PassNeedsAPass(cfg, logs, s, pass[..n]);
      RunAppend(cfg, logs, s, PassActions(pass[..n]), FileActions(pass[n]));
      RunOfDisabled(cfg, logs, s, FileActions(pass[n]));
    }
  }

  /** The bulk call of a replay file: what is counted, and whether the file may now be removed. */
  lemma ReindexIsCounted(cfg: Config, logs: Logs, s: Worker, o: Attempt, result: BulkResult<Rec>, ok: bool,
      removed: bool)
    requires s.replay.Sending? && (result, ok) == BulkIndex(s.replay.events, o.reply)
    ensures
      var s' := Step(cfg, logs, s, Reindex(o));
      var t, n := s.world.tally, |result.permanent|;
      && s' == s.(world := s'.world, replay := s'.replay, misled := s'.misled) && s'.world.files == s.world.files
      && s'.world.es == s.world.es + multiset(Pick(s.replay.events, o.stored))
      && s'.world.dlq == (if ok
          && result.retryable == [] then s.world.dlq + LettersOf(result.permanent, o.dlq) else s.world.dlq)
      && (!s'.replay.Clearing? ==> Step(cfg, logs, s', RemoveFile(removed)) == s')
      && (if !ok || result.retryable != [] then
            s'.world.tally == t.(esFailures := t.esFailures + 1) && s'.replay == Pass(s.replay.todo)
          else if !Sent(n, o.dlq) then s'.world.tally == t && s'.replay == Idle
          else
            && s'.world.tally == t.(dlq := t.dlq + n, failed := t.failed + n, indexed := t.indexed + result.indexed,
                                    replayed := t.replayed + |s.replay.events|)
            && s'.replay == Clearing(s.replay.file, s.replay.events, s.replay.todo))
  {
    hide BulkIndex, Faithful, SendFailures, Pick, LettersOf, Sent;
    var stored := s.world.(es := s.world.es + multiset(Pick(s.replay.events, o.stored)), calls := s.world.calls + 1);
    SendIs(stored, result.permanent, o.dlq);
  }

  lemma SendIs(w: World<Rec>, failures: seq<Failure<Rec>>, o: DlqOutcome)
    ensures
      var t, n := w.tally, |failures|;
      SendFailures(w, failures, o) ==
      (w.(dlq := w.dlq + LettersOf(failures, o),
          tally := if Sent(n, o) then t.(dlq := t.dlq + n, failed := t.failed + n) else t), Sent(n, o))
  {
    hide Events;
    if !Sent(|failures|, o) {
      var first := multiset(Events(failures[..o.k]));
      var last := if o.kept then multiset{failures[o.k].event} else multiset{};
      assert w.dlq + (first + last) == w.dlq + first + last;
    }
  }

  lemma RemoveIs(cfg: Config, logs: Logs, s: Worker, removed: bool)
    requires s.replay.Clearing? && s.replay.file < |s.world.files|
    ensures
      var s' := Step(cfg, logs, s, RemoveFile(removed));
      && s' == s.(world := s'.world, replay := s'.replay, excess := s'.excess)
      && s'.world == s.world.(files := s'.world.files)
      && s'.world.files == (if removed then s.world.files[s.replay.file := Gone] else s.world.files)
      && s'.replay == (if removed then Pass(s.replay.todo) else Idle)
  {
  }

  /** The counters and the way on after an attempt, from the result of its bulk call. */
  function CountedAttempt(t: Tally, pending: seq<Rec>, attempt: nat, retryMax: nat, o: Attempt,
      result: BulkResult<Rec>, ok: bool): (Tally, Next<Rec>) {
    var t1 := t.(esFailures := t.esFailures + (if ok then 0 else 1), indexed := t.indexed + result.indexed);
    var n := |result.permanent|;
    if !Sent(n, o.dlq) then (t1, Failed)
    else
      var t2 := t1.(dlq := t1.dlq + n, failed := t1.failed + n);
      if result.retryable == [] && ok then (t2, Finished)
      else
        var rest := if result.retryable != [] then result.retryable else pending;
        if rest == [] then (t2, Finished)
        else if attempt == retryMax then (t2, Spill(rest))
        else (t2.(retried := t2.retried + |rest|), if o.cancelled then Failed else Again(rest))
  }

  lemma SettleIsCounted(w: World<Rec>, pending: seq<Rec>, attempt: nat, retryMax: nat, o: Attempt,
      result: BulkResult<Rec>, ok: bool)
    ensures
      var (w', next) := Settle(w, pending, attempt, retryMax, o, result, ok);
      && w'.files == w.files
      && w'.es == w.es + multiset(Pick(pending, o.stored)) && w'.dlq == w.dlq + LettersOf(result.permanent, o.dlq)
      && (w'.tally, next) == CountedAttempt(w.tally, pending, attempt, retryMax, o, result, ok)
  {
    hide SendFailures, Pick, LettersOf, Sent;
    SendIs(AfterCall(w, pending, o.stored, result, ok), result.permanent, o.dlq);
  }

  lemma TryIsCounted(cfg: Config, logs: Logs, s: Worker, o: Attempt, result: BulkResult<Rec>, ok: bool)
    requires s.stage.Indexing? && s.stage.attempt <= cfg.retryMax
    requires (result, ok) == BulkIndex(s.stage.pending, o.reply)
    ensures
      var s' := Step(cfg, logs, s, TryOnce(o));
      var next := OneAttempt(s.world, s.stage.pending, s.stage.attempt, cfg.retryMax, o).1;
      && s' == s.(world := s'.world, misled := s'.misled, stage := s'.stage)
      && s'.world.files == s.world.files
      && s'.world.es == s.world.es + multiset(Pick(s.stage.pending, o.stored))
      && s'.world.dlq == s.world.dlq + LettersOf(result.permanent, o.dlq)
      && (s'.world.tally, next) ==
          CountedAttempt(s.world.tally, s.stage.pending, s.stage.attempt, cfg.retryMax, o, result, ok)
  {
    hide BulkIndex, Settle, CountedAttempt, Faithful;
    SettleIsCounted(s.world, s.stage.pending, s.stage.attempt, cfg.retryMax, o, result, ok);
  }

  lemma TryStage(cfg: Config, logs: Logs, s: Worker, o: Attempt)
    requires s.stage.Indexing? && s.stage.attempt <= cfg.retryMax
    ensures
      var s' := Step(cfg, logs, s, TryOnce(o));
      && s'.batch == s.batch && s'.committed == s.committed && s'.position == s.position
      && s'.stage == match OneAttempt(s.world, s.stage.pending, s.stage.attempt, cfg.retryMax, o).1
                     case Finished => Committing
                     case Failed => Fetching
                     case Again(rest) => Indexing(rest, s.stage.attempt + 1)
                     case Spill(rest) => Spilling(rest)
  {
    hide OneAttempt;
  }

  /** Once the loop has ended, the rest of its script does nothing. */
  lemma FinishEarly(cfg: Config, logs: Logs, start: Worker, f: FlushScript, attempt: nat, s: Worker)
    requires attempt < |f.attempts| && s == Run(cfg, logs, start, Tries(f.attempts[..attempt + 1]))
    requires s.stage.Committing? || s.stage.Fetching?
    ensures s == Run(cfg, logs, start, IndexActions(f))
  {
    var done, rest := Tries(f.attempts[..attempt + 1]), Tries(f.attempts[attempt + 1..]) + [WriteSpill(f.write)];
    assert IndexActions(f) == done + rest;
    RunAppend(cfg, logs, start, done, rest);
    RunOfDisabled(cfg, logs, s, rest);
  }

  lemma FlushOfNothing(cfg: Config, logs: Logs, s: Worker, f: FlushScript)
    requires s.batch == [] && s.stage.Fetching?
    ensures Run(cfg, logs, s, FlushActions(s, f)) == s
  {
    RunOfDisabled(cfg, logs, s, FlushActions(s, f));
  }
}
