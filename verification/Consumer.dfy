/** The worker as a state machine. The consuming loop and the replay loop interleave freely, one
    external effect at a time; the outside world answers as it likes; and the process may crash
    between any two steps. */
module Consumer {
  import opened Text
  import opened Bulk
  import opened Retry
  import opened Records

  /** `decode` is the worker's decoding of a message. */
  datatype Config = Config(decode: Entry -> Option<Rec>, retryMax: nat)

  datatype Pos = Pos(part: nat, off: nat)

  datatype Queued = Queued(at: Pos, rec: Rec)

  /** Where the consuming goroutine is: fetching, handling a message that did not decode (before
      and after its dead letter), or in one of the stages of a flush. */
  datatype Stage =
    | Fetching
    | Poisoned(at: Pos)
    | Parked(at: Pos)
    | Indexing(pending: seq<Rec>, attempt: nat)
    | Spilling(pending: seq<Rec>)
    | Committing

  /** Where the replay goroutine is. File names are indices into `World.files`. */
  datatype Replay =
    | Idle
    | Pass(todo: seq<nat>)
    | Sending(file: nat, events: seq<Rec>, todo: seq<nat>)
    | Clearing(file: nat, events: seq<Rec>, todo: seq<nat>)

  /** `position` and `start` are the next offset to fetch and the first offset of this session, by
      partition; `committed` is the group's offset, which survives crashes. The rest after `replay`
      is history: poison messages in the dead-letter topic, poison messages passed over, messages that
      waited in the batch when the commit of a poison message of their partition overtook them,
      whether Elasticsearch ever answered unfaithfully, and what the replay counters do not show. */
  datatype Worker = Worker(
    position: seq<nat>, start: seq<nat>, committed: seq<nat>, batch: seq<Queued>, stage: Stage, replay: Replay,
    world: World<Rec>, parked: set<Pos>, skipped: set<Pos>, overtaken: set<Pos>, misled: bool, carried: int,
        excess: int)

  datatype Action =
    | Fetch(part: nat)
    | SendPoison(ok: bool, kept: bool)
    | CommitPoison(ok: bool, moved: bool)
    | StartFlush
    | TryOnce(o: Attempt)
    | WriteSpill(write: WriteOutcome)
    | Commit(ok: bool, offsets: seq<nat>)
    | Crash
    | Glob(todo: seq<nat>)
    | ReadFile(ok: bool, removed: bool)
    | Reindex(o: Attempt)
    | RemoveFile(ok: bool)

  function Recs(batch: seq<Queued>): (r: seq<Rec>)
    ensures |r| == |batch| && forall i | 0 <= i < |batch| :: r[i] == batch[i].rec
  {
    seq(|batch|, i requires 0 <= i < |batch| => batch[i].rec)
  }

  /** The positions of a partition that wait in the batch. */
  function InBatch(batch: seq<Queued>, part: nat): set<Pos> {
    set q | q in batch && q.at.part == part :: q.at
  }

  /** What a commit call may do to the group's offsets: each partition keeps its offset or moves to
      one past some message of the call. This covers success, failure, lost replies and partial
      effects, and a broker that keeps the largest offset as well as one that keeps the latest. */
  predicate CommitEffect(s: Worker, offsets: seq<nat>) {
    |offsets| == |s.committed| &&
    forall p | 0 <= p < |offsets| ::
      offsets[p] == s.committed[p] || exists q | q in s.batch :: q.at.part == p && offsets[p] == q.at.off + 1
  }

  predicate Enabled(cfg: Config, logs: Logs, s: Worker, a: Action) {
    match a
    case Fetch(p) => s.stage.Fetching? && p < |logs| == |s.position| && s.position[p] < |logs[p]|
    case SendPoison(ok, kept) =>
      && s.stage.Poisoned? && s.stage.at.part < |logs| && s.stage.at.off < |logs[s.stage.at.part]|
      && (ok || kept ==> FitsDeadLetter(logs[s.stage.at.part][s.stage.at.off].value))
    case CommitPoison(_, _) => s.stage.Parked? && s.stage.at.part < |s.committed|
    case StartFlush => s.stage.Fetching? && s.batch != []
    case TryOnce(_) => s.stage.Indexing? && s.stage.attempt <= cfg.retryMax
    case WriteSpill(_) => s.stage.Spilling?
    case Commit(_, offsets) => s.stage.Committing? && CommitEffect(s, offsets)
    case Crash => true
    case Glob(todo) => s.replay.Idle? || s.replay == Pass([])
    case ReadFile(_, _) => s.replay.Pass? && s.replay.todo != []
    case Reindex(_) => s.replay.Sending?
    case RemoveFile(_) => s.replay.Clearing? && s.replay.file < |s.world.files|
  }

  function ApplyFetch(cfg: Config, logs: Logs, s: Worker, p: nat): Worker
    requires Enabled(cfg, logs, s, Fetch(p))
  {
    var at := Pos(p, s.position[p]);
    var s' := s.(position := s.position[p := at.off + 1],
                 world := s.world.(tally := s.world.tally.(consumed := s.world.tally.consumed + 1)));
    match cfg.decode(logs[p][at.off])
    case None => s'.(stage := Poisoned(at))
    case Some(rec) => s'.(batch := s.batch + [Queued(at, rec)])
  }

  /** The dead letter of a poison message. When it cannot be written the loop goes on to the next
      message all the same. */
  function ApplySendPoison(s: Worker, ok: bool, kept: bool): Worker
    requires s.stage.Poisoned?
  {
    if ok then s.(parked := s.parked + {s.stage.at}, stage := Parked(s.stage.at))
    else s.(parked := s.parked + (if kept then {s.stage.at} else {}), skipped := s.skipped + {s.stage.at},
            stage := Fetching)
  }

  /** The commit of a poison message, at once, whatever is still waiting in the batch. */
  function ApplyCommitPoison(s: Worker, ok: bool, moved: bool): Worker
    requires s.stage.Parked? && s.stage.at.part < |s.committed|
  {
    var at, t := s.stage.at, s.world.tally;
    s.(committed := if moved then s.committed[at.part := at.off + 1] else s.committed,
       overtaken := if moved then s.overtaken + InBatch(s.batch, at.part) else s.overtaken,
       world := if ok then s.world.(tally := t.(dlq := t.dlq + 1, failed := t.failed + 1)) else s.world,
       stage := Fetching)
  }

  function ApplyTry(cfg: Config, s: Worker, o: Attempt): Worker
    requires s.stage.Indexing?
  {
    var pending, attempt := s.stage.pending, s.stage.attempt;
    var (world, next) := OneAttempt(s.world, pending, attempt, cfg.retryMax, o);
    s.(world := world, misled := s.misled || !Faithful(o, pending),
       stage := match next
                case Finished => Committing
                case Failed => Fetching
                case Again(rest) => Indexing(rest, attempt + 1)
                case Spill(rest) => Spilling(rest))
  }

  function ApplySpill(s: Worker, o: WriteOutcome): Worker
    requires s.stage.Spilling?
  {
    var (world, ok) := SpillAll(s.world, s.stage.pending, o);
    s.(world := world, stage := if ok then Committing else Fetching,
       excess := if ok then s.excess else s.excess + |Spooled(world.files)| - |Spooled(s.world.files)|)
  }

  function ApplyCommit(s: Worker, ok: bool, offsets: seq<nat>): Worker {
    s.(committed := offsets, stage := Fetching, batch := if ok then [] else s.batch,
       world := if ok then s.world.(tally := s.world.tally.(currentBatch := 0)) else s.world)
  }

  /** A crash or a restart: memory is lost, and fetching resumes at the committed offsets. */
  function ApplyCrash(s: Worker): Worker {
    s.(position := s.committed, start := s.committed, batch := [], stage := Fetching, replay := Idle,
       world := s.world.(tally := Tally(0, 0, 0, 0, 0, 0, 0, 0)),
       carried := |Spooled(s.world.files)|, excess := 0)
  }

  /** Reading the next file of a pass. A file that cannot be read stays, an empty one is removed (if
      that works). */
  function ApplyRead(s: Worker, ok: bool, removed: bool): Worker
    requires s.replay.Pass? && s.replay.todo != []
  {
    var k, rest := s.replay.todo[0], s.replay.todo[1..];
    if !ok || k >= |s.world.files| || s.world.files[k].Gone? then s.(replay := Pass(rest))
    else if s.world.files[k].events == [] then
      s.(replay := Pass(rest), world := if removed then s.world.(files := s.world.files[k := Gone]) else s.world)
    else s.(replay := Sending(k, s.world.files[k].events, rest))
  }

  /** Indexing the events of a file again: any error and any retryable document leave the file; a
      dead letter that cannot be written ends the pass. */
  function ApplyReindex(s: Worker, o: Attempt): Worker
    requires s.replay.Sending?
  {
    var k, events, rest := s.replay.file, s.replay.events, s.replay.todo;
    var (result, ok) := BulkIndex(events, o.reply);
    var t := s.world.tally;
    var stored := s.world.(es := s.world.es + multiset(Pick(events, o.stored)), calls := s.world.calls + 1);
    var s' := s.(misled := s.misled || !Faithful(o, events));
    if !ok || result.retryable != [] then
      s'.(world := stored.(tally := t.(esFailures := t.esFailures + 1)), replay := Pass(rest))
    else
      var (world, sent) := SendFailures(stored, result.permanent, o.dlq);
      if !sent then s'.(world := world, replay := Idle)
      else
        var t' := world.tally;
        s'.(world := world.(tally := t'.(indexed := t'.indexed + result.indexed, replayed := t'.replayed + |events|)),
            replay := Clearing(k, events, rest))
  }

  function ApplyRemove(s: Worker, ok: bool): Worker
    requires s.replay.Clearing? && s.replay.file < |s.world.files|
  {
    if ok then s.(world := s.world.(files := s.world.files[s.replay.file := Gone]), replay := Pass(s.replay.todo))
    else s.(replay := Idle, excess := s.excess + |s.replay.events|)
  }

  function Apply(cfg: Config, logs: Logs, s: Worker, a: Action): Worker
    requires Enabled(cfg, logs, s, a)
  {
    match a
    case Fetch(p) => ApplyFetch(cfg, logs, s, p)
    case SendPoison(ok, kept) => ApplySendPoison(s, ok, kept)
    case CommitPoison(ok, moved) => ApplyCommitPoison(s, ok, moved)
    case StartFlush =>
      s.(stage := Indexing(Recs(s.batch), 0), world := s.world.(tally := s.world.tally.(currentBatch := |s.batch|)))
    case TryOnce(o) => ApplyTry(cfg, s, o)
    case WriteSpill(o) => ApplySpill(s, o)
    case Commit(ok, offsets) => ApplyCommit(s, ok, offsets)
    case Crash => ApplyCrash(s)
    case Glob(todo) => s.(replay := Pass(todo))
    case ReadFile(ok, removed) => ApplyRead(s, ok, removed)
    case Reindex(o) => ApplyReindex(s, o)
    case RemoveFile(ok) => ApplyRemove(s, ok)
  }

  /** An action that is not enabled does nothing. */
  function Step(cfg: Config, logs: Logs, s: Worker, a: Action): Worker {
    if Enabled(cfg, logs, s, a) then Apply(cfg, logs, s, a) else s
  }

  function Run(cfg: Config, logs: Logs, s: Worker, actions: seq<Action>): Worker
    decreases |actions|
  {
    if actions == [] then s else Run(cfg, logs, Step(cfg, logs, s, actions[0]), actions[1..])
  }

  /** Before the first fetch: no replay files, every offset 0. */
  predicate Init(logs: Logs, s: Worker) {
    && |s.position| == |s.start| == |s.committed| == |logs|
    && (forall p | 0 <= p < |logs| :: s.position[p] == s.start[p] == s.committed[p] == 0)
    && s == Worker(s.position, s.start, s.committed, [], Fetching, Idle, Retry.Blank(), {}, {}, {}, false, 0, 0)
  }

  // ---- Where a record is safe ----

  ghost predicate InFile(w: World<Rec>, r: Rec) {
    exists k | 0 <= k < |w.files| :: r in FileEvents(w.files[k])
  }

  /** The record has reached Elasticsearch, the dead-letter topic or a replay file. */
  ghost predicate Stored(w: World<Rec>, r: Rec) {
    r in w.es || r in w.dlq || InFile(w, r)
  }

  /** Nothing stored is ever unstored: files only lose events that are stored elsewhere. */
  ghost predicate Grows(w: World<Rec>, w': World<Rec>) {
    && w.es <= w'.es && w.dlq <= w'.dlq && |w.files| <= |w'.files|
    && forall k | 0 <= k < |w.files| ::
         w'.files[k] == w.files[k] || forall r | r in FileEvents(w.files[k]) :: r in w'.es || r in w'.dlq
  }

  lemma StoredStays(w: World<Rec>, w': World<Rec>, r: Rec)
    requires Grows(w, w') && Stored(w, r)
    ensures Stored(w', r)
  {
    if r !in w.es && r !in w.dlq {
      var k :| 0 <= k < |w.files| && r in FileEvents(w.files[k]);
      if w'.files[k] == w.files[k] {
        assert r in FileEvents(w'.files[k]);
      }
    }
  }

  lemma AllStoredStay(w: World<Rec>, w': World<Rec>)
    requires Grows(w, w')
    ensures forall r :: Stored(w, r) ==> Stored(w', r)
  {
    forall r | Stored(w, r) ensures Stored(w', r) {
      StoredStays(w, w', r);
    }
  }

  /** The message at a position is safe: its record is stored, or it is a dead letter itself. */
  ghost predicate Safe(cfg: Config, logs: Logs, s: Worker, at: Pos)
    requires at.part < |logs| && at.off < |logs[at.part]|
  {
    match cfg.decode(logs[at.part][at.off])
    case Some(rec) => Stored(s.world, rec)
    case None => at in s.parked
  }

  ghost predicate Waiting(s: Worker, at: Pos) {
    exists q | q in s.batch :: q.at == at
  }

  predicate InHand(s: Worker, at: Pos) {
    (s.stage.Poisoned? || s.stage.Parked?) && s.stage.at == at
  }

  // ---- The invariant ----

  predicate Shape(cfg: Config, logs: Logs, s: Worker) {
    && |s.position| == |s.start| == |s.committed| == |logs|
    && (forall p | 0 <= p < |logs| :: s.start[p] <= s.position[p] <= |logs[p]| && s.committed[p] <= s.position[p])
    && (forall q | q in s.batch ::
          q.at.part < |logs| && q.at.off < s.position[q.at.part]
          && cfg.decode(logs[q.at.part][q.at.off]) == Some(q.rec))
    && (s.stage.Poisoned? || s.stage.Parked? ==>
          && s.stage.at.part < |logs| && s.position[s.stage.at.part] == s.stage.at.off + 1
          && cfg.decode(logs[s.stage.at.part][s.stage.at.off]) == None)
    && (s.stage.Parked? ==> s.stage.at in s.parked)
    && (s.stage.Indexing? ==> s.stage.attempt <= cfg.retryMax)
    && (s.replay.Sending? || s.replay.Clearing? ==>
          s.replay.file < |s.world.files| && s.world.files[s.replay.file] == File(s.replay.events))
  }

  /** What becomes a dead letter is poison, and can be marshalled. */
  predicate ParkedAreJson(cfg: Config, logs: Logs, s: Worker) {
    forall at | at in s.parked ::
      at.part < |logs| && at.off < |logs[at.part]| && cfg.decode(logs[at.part][at.off]).None?
          && FitsDeadLetter(logs[at.part][at.off].value)
  }

  /** During a flush every waiting record is stored or still pending; before the commit all are stored. */
  ghost predicate FlushSound(s: Worker) {
    && (s.stage.Indexing? || s.stage.Spilling? ==>
          forall q | q in s.batch :: q.rec in s.stage.pending || Stored(s.world, q.rec))
    && (s.stage.Committing? ==> forall q | q in s.batch :: Stored(s.world, q.rec))
  }

  /** The events of a file about to be removed are stored elsewhere. */
  predicate ReplaySound(s: Worker) {
    s.replay.Clearing? ==> forall r | r in s.replay.events :: r in s.world.es || r in s.world.dlq
  }

  /** The ledger of one position: safe, waiting in the batch, being handled, or passed over. */
  ghost predicate Ledger(cfg: Config, logs: Logs, s: Worker, at: Pos)
    requires at.part < |logs| && at.off < |logs[at.part]|
  {
    Safe(cfg, logs, s, at) || Waiting(s, at) || InHand(s, at) || at in s.skipped
  }

  /** Every message fetched in this session is accounted for. */
  ghost predicate SessionLedger(cfg: Config, logs: Logs, s: Worker)
    requires Shape(cfg, logs, s)
  {
    forall p, o | 0 <= p < |logs| && s.start[p] <= o < s.position[p] :: Ledger(cfg, logs, s, Pos(p, o))
  }

  /** The two ways in which the group's offset can pass an unsafe message: poison whose dead letter
      failed, and messages that waited in the batch when poison behind them was committed. */
  predicate Excepted(s: Worker, at: Pos) {
    at in s.skipped || at in s.overtaken
  }

  /** Position by position, through crashes: what was fetched is accounted for or excepted, and what
      lies below the committed offset is safe or excepted. */
  ghost predicate Watermark(cfg: Config, logs: Logs, s: Worker)
    requires Shape(cfg, logs, s)
  {
    && (forall p, o | 0 <= p < |logs| && 0 <= o < s.position[p] ::
        Ledger(cfg, logs, s, Pos(p, o)) || Pos(p, o) in s.overtaken)
    && (forall p, o | 0 <= p < |logs| && 0 <= o < s.committed[p] ::
        Safe(cfg, logs, s, Pos(p, o)) || Excepted(s, Pos(p, o)))
  }

  ghost predicate Sound(cfg: Config, logs: Logs, s: Worker)
    requires Shape(cfg, logs, s)
  {
    && FlushSound(s) && ReplaySound(s) && SessionLedger(cfg, logs, s) && Watermark(cfg, logs, s)
  }

  ghost predicate Inv(cfg: Config, logs: Logs, s: Worker) {
    && Shape(cfg, logs, s) && ParkedAreJson(cfg, logs, s)
    && (!s.misled ==> Sound(cfg, logs, s))
  }

  // ---- Every step keeps the invariant ----

  lemma SafeStays(cfg: Config, logs: Logs, s: Worker, s': Worker)
    requires Grows(s.world, s'.world) && s.parked <= s'.parked
    ensures forall at: Pos | at.part < |logs| && at.off < |logs[at.part]| :: Safe(cfg, logs, s, at) ==>
        Safe(cfg, logs, s', at)
  {
    AllStoredStay(s.world, s'.world);
  }

  /** The ledger of a position carries over when nothing it can rest on is lost. */
  ghost predicate Advances(cfg: Config, logs: Logs, s: Worker, s': Worker) {
    && Grows(s.world, s'.world) && s.parked <= s'.parked && s.skipped <= s'.skipped && s.overtaken <= s'.overtaken
    && (forall q | q in s.batch :: q in s'.batch)
    && (s.stage.Poisoned? || s.stage.Parked? ==>
          var at := s.stage.at;
          InHand(s', at) || at in s'.skipped
          || (at.part < |logs| && at.off < |logs[at.part]| && Safe(cfg, logs, s', at)))
  }

  lemma LedgerCarries(cfg: Config, logs: Logs, s: Worker, s': Worker, p: nat, o: nat)
    requires Advances(cfg, logs, s, s') && p < |logs| && o < |logs[p]|
    requires Ledger(cfg, logs, s, Pos(p, o))
    ensures Ledger(cfg, logs, s', Pos(p, o))
  {
    if Safe(cfg, logs, s, Pos(p, o)) {
      SafeStays(cfg, logs, s, s');
    } else if Waiting(s, Pos(p, o)) {
      var q :| q in s.batch && q.at == Pos(p, o);
      assert q in s'.batch;
    }
  }

  lemma LedgersCarry(cfg: Config, logs: Logs, s: Worker, s': Worker)
    requires Advances(cfg, logs, s, s') && Shape(cfg, logs, s)
    ensures forall p, o | 0 <= p < |logs| && 0 <= o < s.position[p] ::
              Ledger(cfg, logs, s, Pos(p, o)) ==> Ledger(cfg, logs, s', Pos(p, o))
  {
    forall p, o | 0 <= p < |logs| && 0 <= o < s.position[p] && Ledger(cfg, logs, s, Pos(p, o))
      ensures Ledger(cfg, logs, s', Pos(p, o))
    {
      LedgerCarries(cfg, logs, s, s', p, o);
    }
  }

  lemma FetchShape(cfg: Config, logs: Logs, s: Worker, p: nat)
    requires Shape(cfg, logs, s) && ParkedAreJson(cfg, logs, s) && Enabled(cfg, logs, s, Fetch(p))
    ensures Shape(cfg, logs, ApplyFetch(cfg, logs, s, p)) && ParkedAreJson(cfg, logs, ApplyFetch(cfg, logs, s, p))
  {
    var s' := ApplyFetch(cfg, logs, s, p);
    forall q | q in s'.batch
      ensures q.at.part < |logs| && q.at.off < s'.position[q.at.part]
              && cfg.decode(logs[q.at.part][q.at.off]) == Some(q.rec)
    {
      assert q in s.batch || q == Queued(Pos(p, s.position[p]), q.rec);
    }
  }

  lemma FetchSound(cfg: Config, logs: Logs, s: Worker, p: nat)
    requires Shape(cfg, logs, s) && Sound(cfg, logs, s) && Enabled(cfg, logs, s, Fetch(p))
    requires Shape(cfg, logs, ApplyFetch(cfg, logs, s, p))
    ensures Sound(cfg, logs, ApplyFetch(cfg, logs, s, p))
  {
    var s' := ApplyFetch(cfg, logs, s, p);
    var at := Pos(p, s.position[p]);
    FetchMoves(cfg, logs, s, p);
    hide ApplyFetch, Grows, Stored;
    LedgersCarry(cfg, logs, s, s');
    SafeStays(cfg, logs, s, s');
    assert forall k, o | 0 <= k < |logs| && 0 <= o < s'.position[k] :: o < s.position[k] || Pos(k, o) == at;
  }

  lemma FetchMoves(cfg: Config, logs: Logs, s: Worker, p: nat)
    requires Shape(cfg, logs, s) && Enabled(cfg, logs, s, Fetch(p))
    ensures
      var s' := ApplyFetch(cfg, logs, s, p);
      var at := Pos(p, s.position[p]);
      && s' == s.(position := s.position[p := at.off + 1], batch := s'.batch, stage := s'.stage, world := s'.world)
      && (s'.stage.Fetching? || s'.stage == Poisoned(at))
      && Advances(cfg, logs, s, s') && Ledger(cfg, logs, s', at)
  {
    var s' := ApplyFetch(cfg, logs, s, p);
    var at := Pos(p, s.position[p]);
    assert forall q | q in s.batch :: q in s'.batch;
    if cfg.decode(logs[p][at.off]).Some? {
      assert s'.batch[|s.batch|].at == at;
    }
  }

  lemma SendPoisonSound(cfg: Config, logs: Logs, s: Worker, ok: bool, kept: bool)
    requires Shape(cfg, logs, s) && Sound(cfg, logs, s) && Enabled(cfg, logs, s, SendPoison(ok, kept))
    requires Shape(cfg, logs, ApplySendPoison(s, ok, kept))
    ensures Sound(cfg, logs, ApplySendPoison(s, ok, kept))
  {
    var s' := ApplySendPoison(s, ok, kept);
    LedgersCarry(cfg, logs, s, s');
    SafeStays(cfg, logs, s, s');
  }

  lemma CommitPoisonSound(cfg: Config, logs: Logs, s: Worker, ok: bool, moved: bool)
    requires Shape(cfg, logs, s) && Sound(cfg, logs, s) && Enabled(cfg, logs, s, CommitPoison(ok, moved))
    requires Shape(cfg, logs, ApplyCommitPoison(s, ok, moved))
    ensures Sound(cfg, logs, ApplyCommitPoison(s, ok, moved))
  {
    var s' := ApplyCommitPoison(s, ok, moved);
    var at := s.stage.at;
    assert Safe(cfg, logs, s', at);
    LedgersCarry(cfg, logs, s, s');
    SafeStays(cfg, logs, s, s');
    if moved {
      forall o | 0 <= o < at.off + 1 ensures Safe(cfg, logs, s', Pos(at.part, o)) || Excepted(s', Pos(at.part, o)) {
        assert Ledger(cfg, logs, s, Pos(at.part, o)) || Pos(at.part, o) in s.overtaken;
        if Waiting(s, Pos(at.part, o)) {
          assert Pos(at.part, o) in InBatch(s.batch, at.part);
        }
      }
    }
  }

  lemma StartFlushSound(cfg: Config, logs: Logs, s: Worker)
    requires Shape(cfg, logs, s) && Sound(cfg, logs, s) && Enabled(cfg, logs, s, StartFlush)
    requires Shape(cfg, logs, Apply(cfg, logs, s, StartFlush))
    ensures Sound(cfg, logs, Apply(cfg, logs, s, StartFlush))
  {
    var s' := Apply(cfg, logs, s, StartFlush);
    LedgersCarry(cfg, logs, s, s');
    SafeStays(cfg, logs, s, s');
    forall q | q in s.batch ensures q.rec in s'.stage.pending {
      var i :| 0 <= i < |s.batch| && s.batch[i] == q;
      assert Recs(s.batch)[i] == q.rec;
    }
  }

  /** Steps of the flush and of the replay loop that only add to the world keep the ledger. */
  lemma LedgerStays(cfg: Config, logs: Logs, s: Worker, s': Worker)
    requires Shape(cfg, logs, s) && Shape(cfg, logs, s') && Sound(cfg, logs, s)
    requires s' == s.(world := s'.world, stage := s'.stage, replay := s'.replay, excess := s'.excess,
        misled := s'.misled)
    requires Grows(s.world, s'.world)
    requires s.stage.Poisoned? || s.stage.Parked? ==> s'.stage == s.stage
    ensures SessionLedger(cfg, logs, s') && Watermark(cfg, logs, s')
  {
    LedgersCarry(cfg, logs, s, s');
    SafeStays(cfg, logs, s, s');
  }

  /** What one attempt does to the waiting records. */
  lemma TrySound(cfg: Config, logs: Logs, s: Worker, o: Attempt)
    requires Shape(cfg, logs, s) && Sound(cfg, logs, s) && Enabled(cfg, logs, s, TryOnce(o))
    requires Shape(cfg, logs, ApplyTry(cfg, s, o)) && Faithful(o, s.stage.pending)
    ensures Sound(cfg, logs, ApplyTry(cfg, s, o))
  {
    hide OneAttempt;
    var s' := ApplyTry(cfg, s, o);
    AttemptPlaces(s.world, s.stage.pending, s.stage.attempt, cfg.retryMax, o);
    LedgerStays(cfg, logs, s, s');
    AllStoredStay(s.world, s'.world);
  }

  lemma AttemptPlaces(w: World<Rec>, pending: seq<Rec>, attempt: nat, retryMax: nat, o: Attempt)
    requires Faithful(o, pending)
    ensures
      var (w', next) := OneAttempt(w, pending, attempt, retryMax, o);
      && Grows(w, w') && w'.files == w.files
      && (next.Finished? ==> forall r | r in pending :: Stored(w', r))
      && (next.Again? || next.Spill? ==> forall r | r in pending :: r in next.rest || Stored(w', r))
  {
    hide OneAttempt;
    OneAttemptShape(w, pending, attempt, retryMax, o);
    OneAttemptAdds(w, pending, attempt, retryMax, o);
    var (w', next) := OneAttempt(w, pending, attempt, retryMax, o);
    if next != Failed {
      forall r | r in pending ensures r in Left(next) || r in w'.es || r in w'.dlq {
        if Itemised(o.reply) {
          EachIsSomewhere(pending, o.reply.body.items, o.stored, r);
        }
      }
    }
  }

  /** A faithful item list puts each event among the stored, the retryable or the permanent ones. */
  lemma EachIsSomewhere(events: seq<Rec>, items: seq<Item>, stored: seq<bool>, r: Rec)
    requires |events| <= |items| == |stored| && r in events
    requires forall i | 0 <= i < |stored| :: ClassOf(items[i]) == Indexed ==> stored[i]
    ensures r in multiset(Pick(events, stored)) || r in multiset(Pick(events, Mask(items, Retryable)))
            || r in multiset(Pick(events, Mask(items, Permanent)))
  {
    hide Pick, Subsequence;
    ClassesPartition(events, items);
    PickGrows(events, Mask(items, Indexed), stored);
    var a, b := multiset(Pick(events, Mask(items, Indexed))), multiset(Pick(events, Mask(items, Retryable)));
    assert r in a + b + multiset(Pick(events, Mask(items, Permanent)));
  }

  lemma OneAttemptAdds(w: World<Rec>, pending: seq<Rec>, attempt: nat, retryMax: nat, o: Attempt)
    ensures w.dlq <= OneAttempt(w, pending, attempt, retryMax, o).0.dlq
  {
    hide SendFailures;
    var (result, ok) := BulkIndex(pending, o.reply);
    SendOnlyAdds(AfterCall(w, pending, o.stored, result, ok), result.permanent, o.dlq);
  }

  lemma SpillSound(cfg: Config, logs: Logs, s: Worker, o: WriteOutcome)
    requires Shape(cfg, logs, s) && Sound(cfg, logs, s) && Enabled(cfg, logs, s, WriteSpill(o))
    requires Shape(cfg, logs, ApplySpill(s, o))
    ensures Sound(cfg, logs, ApplySpill(s, o))
  {
    hide SpillAll;
    var s' := ApplySpill(s, o);
    SpillOnlyAdds(s.world, s.stage.pending, o);
    assert Grows(s.world, s'.world);
    LedgerStays(cfg, logs, s, s');
    AllStoredStay(s.world, s'.world);
    if s'.stage.Committing? && s.stage.pending != [] {
      var k := |s.world.files|;
      assert s'.world.files[k] == File(s.stage.pending);
      assert forall r | r in s.stage.pending :: r in FileEvents(s'.world.files[k]) && Stored(s'.world, r);
    }
  }

  lemma CommitSound(cfg: Config, logs: Logs, s: Worker, ok: bool, offsets: seq<nat>)
    requires Shape(cfg, logs, s) && Sound(cfg, logs, s) && Enabled(cfg, logs, s, Commit(ok, offsets))
    requires Shape(cfg, logs, ApplyCommit(s, ok, offsets))
    ensures Sound(cfg, logs, ApplyCommit(s, ok, offsets))
  {
    var s' := ApplyCommit(s, ok, offsets);
    SafeStays(cfg, logs, s, s');
    forall p, o | 0 <= p < |logs| && 0 <= o < s.position[p] && Ledger(cfg, logs, s, Pos(p, o))
      ensures Ledger(cfg, logs, s', Pos(p, o)) && (Safe(cfg, logs, s', Pos(p, o)) || Pos(p, o) in s.skipped)
    {
      if Waiting(s, Pos(p, o)) {
        var q :| q in s.batch && q.at == Pos(p, o);
        assert Stored(s.world, q.rec) && Safe(cfg, logs, s, Pos(p, o));
      }
    }
  }

  lemma CrashSound(cfg: Config, logs: Logs, s: Worker)
    requires Shape(cfg, logs, s) && Sound(cfg, logs, s)
    requires Shape(cfg, logs, ApplyCrash(s))
    ensures Sound(cfg, logs, ApplyCrash(s))
  {
    SafeStays(cfg, logs, s, ApplyCrash(s));
  }

  lemma ReadSound(cfg: Config, logs: Logs, s: Worker, ok: bool, removed: bool)
    requires Shape(cfg, logs, s) && Sound(cfg, logs, s) && Enabled(cfg, logs, s, ReadFile(ok, removed))
    requires Shape(cfg, logs, ApplyRead(s, ok, removed))
    ensures Sound(cfg, logs, ApplyRead(s, ok, removed))
  {
    LedgerStays(cfg, logs, s, ApplyRead(s, ok, removed));
    AllStoredStay(s.world, ApplyRead(s, ok, removed).world);
  }

  lemma ReindexSound(cfg: Config, logs: Logs, s: Worker, o: Attempt)
    requires Shape(cfg, logs, s) && Sound(cfg, logs, s) && Enabled(cfg, logs, s, Reindex(o))
    requires Shape(cfg, logs, ApplyReindex(s, o)) && Faithful(o, s.replay.events)
    ensures Sound(cfg, logs, ApplyReindex(s, o))
  {
    var s' := ApplyReindex(s, o);
    ReindexOnlyAdds(s, o);
    ReindexPlaces(s, o);
    hide ApplyReindex;
    LedgerStays(cfg, logs, s, s');
    AllStoredStay(s.world, s'.world);
  }

  /** A file gets as far as removal only when every event of it is indexed or a dead letter. */
  lemma ReindexPlaces(s: Worker, o: Attempt)
    requires s.replay.Sending? && Faithful(o, s.replay.events)
    ensures
      var s' := ApplyReindex(s, o);
      s'.replay.Clearing? ==> forall r | r in s.replay.events :: r in s'.world.es || r in s'.world.dlq
  {
    hide ApplyReindex, BulkIndex;
    var events := s.replay.events;
    var (result, ok) := BulkIndex(events, o.reply);
    BulkCases(events, o.reply);
    ClearingMeansAccepted(s, o);
    if ok && result.retryable == [] && events != [] {
      var items := o.reply.body.items;
      PermanentEvents(events, items);
      forall r | r in events
        ensures r in multiset(Pick(events, o.stored)) || r in multiset(Events(result.permanent))
      {
        EachIsSomewhere(events, items, o.stored, r);
      }
    }
  }

  lemma ClearingMeansAccepted(s: Worker, o: Attempt)
    requires s.replay.Sending?
    ensures
      var s' := ApplyReindex(s, o);
      var (result, ok) := BulkIndex(s.replay.events, o.reply);
      s'.replay.Clearing? ==>
        && ok && result.retryable == []
        && s'.world.es == s.world.es + multiset(Pick(s.replay.events, o.stored))
        && s'.world.dlq == s.world.dlq + multiset(Events(result.permanent))
  {
    hide SendFailures, BulkIndex;
    var (result, ok) := BulkIndex(s.replay.events, o.reply);
    var stored := s.world.(es := s.world.es + multiset(Pick(s.replay.events, o.stored)), calls := s.world.calls + 1);
    SendOnlyAdds(stored, result.permanent, o.dlq);
  }

  lemma RemoveSound(cfg: Config, logs: Logs, s: Worker, ok: bool)
    requires Shape(cfg, logs, s) && Sound(cfg, logs, s) && Enabled(cfg, logs, s, RemoveFile(ok))
    requires Shape(cfg, logs, ApplyRemove(s, ok))
    ensures Sound(cfg, logs, ApplyRemove(s, ok))
  {
    LedgerStays(cfg, logs, s, ApplyRemove(s, ok));
    AllStoredStay(s.world, ApplyRemove(s, ok).world);
  }

  lemma SpillOnlyAdds(w: World<Rec>, rest: seq<Rec>, o: WriteOutcome)
    ensures
      var (w', ok) := SpillAll(w, rest, o);
      && w'.es == w.es && w'.dlq == w.dlq && w.files <= w'.files
      && (ok && rest != [] ==> w'.files == w.files + [File(rest)])
  {
  }

  lemma SendOnlyAdds(w: World<Rec>, failures: seq<Failure<Rec>>, o: DlqOutcome)
    ensures
      var (w', sent) := SendFailures(w, failures, o);
      && w'.es == w.es && w.dlq <= w'.dlq && w'.files == w.files
      && (sent ==> w'.dlq == w.dlq + multiset(Events(failures)))
  {
  }

  lemma ReindexOnlyAdds(s: Worker, o: Attempt)
    requires s.replay.Sending?
    ensures
      var s' := ApplyReindex(s, o);
      && s' == s.(world := s'.world, replay := s'.replay, misled := s.misled || !Faithful(o, s.replay.events))
      && s'.world.files == s.world.files && s.world.es <= s'.world.es && s.world.dlq <= s'.world.dlq
      && (s'.replay.Pass? || s'.replay.Idle? || s'.replay == Clearing(s.replay.file, s.replay.events, s.replay.todo))
  {
    hide SendFailures;
    var (result, ok) := BulkIndex(s.replay.events, o.reply);
    var stored := s.world.(es := s.world.es + multiset(Pick(s.replay.events, o.stored)), calls := s.world.calls + 1);
    SendOnlyAdds(stored, result.permanent, o.dlq);
  }

  lemma StepKeepsShape(cfg: Config, logs: Logs, s: Worker, a: Action)
    requires Shape(cfg, logs, s) && ParkedAreJson(cfg, logs, s)
    ensures Shape(cfg, logs, Step(cfg, logs, s, a)) && ParkedAreJson(cfg, logs, Step(cfg, logs, s, a))
  {
    hide Shape, ParkedAreJson, Step;
    if !Enabled(cfg, logs, s, a) {
      NothingHappens(cfg, logs, s, a);
    } else {
      StepIs(cfg, logs, s, a);
      hide Enabled, Apply;
      match a
      case Fetch(p) => FetchShape(cfg, logs, s, p);
      case TryOnce(o) => TryShape(cfg, logs, s, o);
      case WriteSpill(o) => SpillShape(cfg, logs, s, o);
      case ReadFile(ok, removed) => ReadShape(cfg, logs, s, ok, removed);
      case Commit(ok, offsets) => CommitShape(cfg, logs, s, ok, offsets);
      case SendPoison(_, _) => PoisonShape(cfg, logs, s, a);
      case CommitPoison(_, _) => PoisonShape(cfg, logs, s, a);
      case _ => OtherShape(cfg, logs, s, a);
    }
  }

  lemma NothingHappens(cfg: Config, logs: Logs, s: Worker, a: Action)
    requires !Enabled(cfg, logs, s, a)
    ensures Step(cfg, logs, s, a) == s
  {
    hide Enabled;
  }

  lemma StepIs(cfg: Config, logs: Logs, s: Worker, a: Action)
    requires Enabled(cfg, logs, s, a)
    ensures
      var s' := Step(cfg, logs, s, a);
      && s' == Apply(cfg, logs, s, a)
      && (a.Fetch? ==> s' == ApplyFetch(cfg, logs, s, a.part))
      && (a.TryOnce? ==> s' == ApplyTry(cfg, s, a.o))
      && (a.WriteSpill? ==> s' == ApplySpill(s, a.write))
      && (a.ReadFile? ==> s' == ApplyRead(s, a.ok, a.removed))
      && (a.Commit? ==> s' == ApplyCommit(s, a.ok, a.offsets))
  {
    hide ApplyFetch, ApplyTry, ApplySpill, ApplyRead, ApplyCommit, ApplySendPoison, ApplyCommitPoison, ApplyReindex,
        ApplyRemove;
  }

  lemma PoisonShape(cfg: Config, logs: Logs, s: Worker, a: Action)
    requires Shape(cfg, logs, s) && ParkedAreJson(cfg, logs, s) && Enabled(cfg, logs, s, a)
        && (a.SendPoison? || a.CommitPoison?)
    ensures Shape(cfg, logs, Apply(cfg, logs, s, a)) && ParkedAreJson(cfg, logs, Apply(cfg, logs, s, a))
  {
    hide FitsDeadLetter;
  }

  lemma OtherShape(cfg: Config, logs: Logs, s: Worker, a: Action)
    requires Shape(cfg, logs, s) && ParkedAreJson(cfg, logs, s) && Enabled(cfg, logs, s, a)
    requires a.StartFlush? || a.Crash? || a.Glob? || a.Reindex? || a.RemoveFile?
    ensures Shape(cfg, logs, Apply(cfg, logs, s, a)) && ParkedAreJson(cfg, logs, Apply(cfg, logs, s, a))
  {
    hide ApplyReindex, FitsDeadLetter;
    if a.Reindex? {
      ReindexOnlyAdds(s, a.o);
    }
  }

  lemma TryShape(cfg: Config, logs: Logs, s: Worker, o: Attempt)
    requires Shape(cfg, logs, s) && ParkedAreJson(cfg, logs, s) && Enabled(cfg, logs, s, TryOnce(o))
    ensures Shape(cfg, logs, ApplyTry(cfg, s, o)) && ParkedAreJson(cfg, logs, ApplyTry(cfg, s, o))
  {
    hide OneAttempt, Faithful, Shape, ParkedAreJson;
    AttemptKeepsFiles(s.world, s.stage.pending, s.stage.attempt, cfg.retryMax, o);
    StageShape(cfg, logs, s, ApplyTry(cfg, s, o));
  }

  lemma StageShape(cfg: Config, logs: Logs, s: Worker, s': Worker)
    requires Shape(cfg, logs, s) && ParkedAreJson(cfg, logs, s)
    requires s' == s.(world := s'.world, stage := s'.stage, misled := s'.misled) && s'.world.files == s.world.files
    requires !s'.stage.Poisoned? && !s'.stage.Parked? && (s'.stage.Indexing? ==> s'.stage.attempt <= cfg.retryMax)
    ensures Shape(cfg, logs, s') && ParkedAreJson(cfg, logs, s')
  {
  }

  lemma AttemptKeepsFiles(w: World<Rec>, pending: seq<Rec>, attempt: nat, retryMax: nat, o: Attempt)
    ensures OneAttempt(w, pending, attempt, retryMax, o).0.files == w.files
  {
    OneAttemptShape(w, pending, attempt, retryMax, o);
  }

  lemma SpillShape(cfg: Config, logs: Logs, s: Worker, o: WriteOutcome)
    requires Shape(cfg, logs, s) && ParkedAreJson(cfg, logs, s) && Enabled(cfg, logs, s, WriteSpill(o))
    ensures Shape(cfg, logs, ApplySpill(s, o)) && ParkedAreJson(cfg, logs, ApplySpill(s, o))
  {
    hide SpillAll;
    SpillOnlyAdds(s.world, s.stage.pending, o);
  }

  lemma ReadShape(cfg: Config, logs: Logs, s: Worker, ok: bool, removed: bool)
    requires Shape(cfg, logs, s) && ParkedAreJson(cfg, logs, s) && Enabled(cfg, logs, s, ReadFile(ok, removed))
    ensures Shape(cfg, logs, ApplyRead(s, ok, removed)) && ParkedAreJson(cfg, logs, ApplyRead(s, ok, removed))
  {
  }

  lemma CommitShape(cfg: Config, logs: Logs, s: Worker, ok: bool, offsets: seq<nat>)
    requires Shape(cfg, logs, s) && ParkedAreJson(cfg, logs, s) && Enabled(cfg, logs, s, Commit(ok, offsets))
    ensures Shape(cfg, logs, ApplyCommit(s, ok, offsets)) && ParkedAreJson(cfg, logs, ApplyCommit(s, ok, offsets))
  {
    forall p | 0 <= p < |offsets| ensures offsets[p] <= s.position[p] {
      if offsets[p] != s.committed[p] {
        var q :| q in s.batch && q.at.part == p && offsets[p] == q.at.off + 1;
      }
    }
  }

  lemma StepKeepsSound(cfg: Config, logs: Logs, s: Worker, a: Action)
    requires Shape(cfg, logs, s) && Shape(cfg, logs, Step(cfg, logs, s, a)) && Sound(cfg, logs, s)
    requires !Step(cfg, logs, s, a).misled && !s.misled
    ensures Sound(cfg, logs, Step(cfg, logs, s, a))
  {
    hide Shape, Sound, OneAttempt, SpillAll, ApplyReindex;
    if Enabled(cfg, logs, s, a) {
      match a
      case Fetch(p) => FetchSound(cfg, logs, s, p);
      case SendPoison(ok, kept) => SendPoisonSound(cfg, logs, s, ok, kept);
      case CommitPoison(ok, moved) => CommitPoisonSound(cfg, logs, s, ok, moved);
      case StartFlush => StartFlushSound(cfg, logs, s);
      case TryOnce(o) => TrySound(cfg, logs, s, o);
      case WriteSpill(o) => SpillSound(cfg, logs, s, o);
      case Commit(ok, offsets) => CommitSound(cfg, logs, s, ok, offsets);
      case Crash => CrashSound(cfg, logs, s);
      case Glob(todo) => GlobSound(cfg, logs, s, todo);
      case ReadFile(ok, removed) => ReadSound(cfg, logs, s, ok, removed);
      case Reindex(o) =>
        ReindexOnlyAdds(s, o);
        ReindexSound(cfg, logs, s, o);
      case RemoveFile(ok) => RemoveSound(cfg, logs, s, ok);
    }
  }

  lemma GlobSound(cfg: Config, logs: Logs, s: Worker, todo: seq<nat>)
    requires Shape(cfg, logs, s) && Sound(cfg, logs, s) && Enabled(cfg, logs, s, Glob(todo))
    ensures Shape(cfg, logs, s.(replay := Pass(todo))) && Sound(cfg, logs, s.(replay := Pass(todo)))
  {
    LedgerStays(cfg, logs, s, s.(replay := Pass(todo)));
  }

  lemma StepKeeps(cfg: Config, logs: Logs, s: Worker, a: Action)
    requires Inv(cfg, logs, s)
    ensures Inv(cfg, logs, Step(cfg, logs, s, a))
  {
    StepKeepsShape(cfg, logs, s, a);
    hide Shape, Sound, ParkedAreJson;
    MisledStays(cfg, logs, s, a);
    if !Step(cfg, logs, s, a).misled {
      StepKeepsSound(cfg, logs, s, a);
    }
  }

  lemma MisledStays(cfg: Config, logs: Logs, s: Worker, a: Action)
    ensures s.misled ==> Step(cfg, logs, s, a).misled
  {
    hide OneAttempt, SpillAll, BulkIndex, SendFailures;
  }

  lemma {:induction false} RunKeeps(cfg: Config, logs: Logs, s: Worker, actions: seq<Action>)
    requires Inv(cfg, logs, s)
    ensures Inv(cfg, logs, Run(cfg, logs, s, actions))
    decreases |actions|
  {
    hide Inv, Step;
    if actions != [] {
      StepKeeps(cfg, logs, s, actions[0]);
      RunKeeps(cfg, logs, Step(cfg, logs, s, actions[0]), actions[1..]);
    }
  }

  lemma InitIsSound(cfg: Config, logs: Logs, s: Worker)
    requires Init(logs, s)
    ensures Inv(cfg, logs, s)
  {
  }

  // ---- Runs in parts ----

  lemma {:induction false} RunAppend(cfg: Config, logs: Logs, s: Worker, a: seq<Action>, b: seq<Action>)
    ensures Run(cfg, logs, s, a + b) == Run(cfg, logs, Run(cfg, logs, s, a), b)
    decreases |a|
  {
    hide Step;
    if a == [] {
      assert a + b == b;
    } else {
      assert (a + b)[1..] == a[1..] + b && (a + b)[0] == a[0];
      RunAppend(cfg, logs, Step(cfg, logs, s, a[0]), a[1..], b);
    }
  }

  lemma RunNothing(cfg: Config, logs: Logs, s: Worker)
    ensures Run(cfg, logs, s, []) == s
  {
  }

  lemma RunOne(cfg: Config, logs: Logs, s: Worker, a: Action)
    ensures Run(cfg, logs, s, [a]) == Step(cfg, logs, s, a)
  {
    hide Step;
    assert [a][1..] == [];
  }

  /** Doing one more action at the end. */
  lemma RunOneMore(cfg: Config, logs: Logs, s: Worker, actions: seq<Action>, a: Action)
    ensures Run(cfg, logs, s, actions + [a]) == Step(cfg, logs, Run(cfg, logs, s, actions), a)
  {
    hide Step;
    RunAppend(cfg, logs, s, actions, [a]);
    RunOne(cfg, logs, Run(cfg, logs, s, actions), a);
  }

  lemma RunThree(cfg: Config, logs: Logs, s: Worker, a: Action, b: Action, c: Action)
    ensures Run(cfg, logs, s, [a, b, c]) == Step(cfg, logs, Step(cfg, logs, Step(cfg, logs, s, a), b), c)
  {
    hide Step;
    assert [a, b, c] == [a, b] + [c] && [a, b] == [a] + [b];
    RunOne(cfg, logs, s, a);
    RunOneMore(cfg, logs, s, [a], b);
    RunOneMore(cfg, logs, s, [a, b], c);
  }
}
