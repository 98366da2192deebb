/** Exactly when "offsets are committed only after safe handling" fails: which messages can be passed by
    a committed offset without being safe, in some run, as a caller could tell from the topic alone. */
module Passing {
  import opened Bulk
  import opened Retry
  import opened Json
  import opened Records
  import opened Consumer
  import Endings
  import Guarantees

  predicate InTopic(logs: Logs, at: Pos) {
    at.part < |logs| && at.off < |logs[at.part]|
  }

  // ---- Fetching up to an offset ----

  /** Fetch one partition up to an offset, never writing a dead letter. */
  function Skips(p: nat, o: nat): seq<Action> {
    if o == 0 then [] else Skips(p, o - 1) + [Fetch(p), SendPoison(false, false)]
  }

  /** Nothing has been stored anywhere, and only messages of this partition are waiting. */
  ghost predicate Untouched(logs: Logs, s: Worker, p: nat, o: nat) {
    && s.stage.Fetching? && |s.position| == |s.committed| == |logs| && p < |logs| && s.position[p] == o
    && !s.misled && s.parked == {} && s.world.es == multiset{} && s.world.dlq == multiset{} && s.world.files == []
    && forall q | q in s.batch :: q.at.part == p
  }

  lemma OneMoreSkipped(cfg: Config, logs: Logs, s: Worker, p: nat, o: nat)
    requires Untouched(logs, s, p, o) && o < |logs[p]|
    ensures Untouched(logs, Step(cfg, logs, Step(cfg, logs, s, Fetch(p)), SendPoison(false, false)), p, o + 1)
  {
  }

  lemma {:induction false} SkipsReach(cfg: Config, logs: Logs, s0: Worker, p: nat, o: nat)
    requires Init(logs, s0) && p < |logs| && o <= |logs[p]|
    ensures Untouched(logs, Run(cfg, logs, s0, Skips(p, o)), p, o)
  {
    hide Run, Step;
    if o == 0 {
      RunNothing(cfg, logs, s0);
    } else {
      SkipsReach(cfg, logs, s0, p, o - 1);
      var s := Run(cfg, logs, s0, Skips(p, o - 1));
      OneMoreSkipped(cfg, logs, s, p, o - 1);
      RunTwo(cfg, logs, s, Fetch(p), SendPoison(false, false));
      RunAppend(cfg, logs, s0, Skips(p, o - 1), [Fetch(p), SendPoison(false, false)]);
    }
  }

  lemma RunTwo(cfg: Config, logs: Logs, s: Worker, a: Action, b: Action)
    ensures Run(cfg, logs, s, [a, b]) == Step(cfg, logs, Step(cfg, logs, s, a), b)
  {
    hide Step, Run;
    RunOne(cfg, logs, s, a);
    RunOneMore(cfg, logs, s, [a], b);
    assert [a, b] == [a] + [b];
  }

  // ---- Which poison becomes a dead letter ----

  ghost predicate CanBeParked(cfg: Config, logs: Logs, s0: Worker, at: Pos) {
    exists actions :: at in Run(cfg, logs, s0, actions).parked
  }

  predicate IsParkable(cfg: Config, m: Entry) {
    cfg.decode(m).None? && FitsDeadLetter(m.value)
  }

  /** Exactly the poison that is empty or JSON can become a dead letter: for any other payload no run
      writes one, for these there is a run that does, and that commits it. */
  lemma ParkedExactly(cfg: Config, logs: Logs, s0: Worker, at: Pos)
    requires Init(logs, s0) && InTopic(logs, at)
    ensures
      var m := logs[at.part][at.off];
      && (CanBeParked(cfg, logs, s0, at) <==> cfg.decode(m).None? && (m.value == "" || IsJson(m.value)))
      && (CanBeParked(cfg, logs, s0, at) ==>
            exists actions ::
              var s := Run(cfg, logs, s0, actions);
              at in s.parked && |s.committed| == |logs| && s.committed[at.part] == at.off + 1)
  {
    var m := logs[at.part][at.off];
    assert FitsDeadLetter(m.value) == (m.value == "" || IsJson(m.value));
    hide Run, FitsDeadLetter, IsJson;
    if CanBeParked(cfg, logs, s0, at) {
      var actions :| at in Run(cfg, logs, s0, actions).parked;
      InitIsSound(cfg, logs, s0);
      RunKeeps(cfg, logs, s0, actions);
    }
    if IsParkable(cfg, m) {
      ParkingRun(cfg, logs, s0, at);
    }
  }

  function ParkingActions(at: Pos): seq<Action> {
    Skips(at.part, at.off) + [Fetch(at.part), SendPoison(true, false), CommitPoison(true, true)]
  }

  /** The run that fetches up to a poison message, makes it a dead letter and commits it. Nothing before
      it has been stored. */
  lemma ParkingRun(cfg: Config, logs: Logs, s0: Worker, at: Pos)
    requires Init(logs, s0) && InTopic(logs, at) && IsParkable(cfg, logs[at.part][at.off])
    ensures
      var s := Run(cfg, logs, s0, ParkingActions(at));
      && s.parked == {at} && |s.committed| == |logs| && s.committed[at.part] == at.off + 1 && !s.misled
      && s.world.es == multiset{} && s.world.dlq == multiset{} && s.world.files == []
  {
    hide Run, FitsDeadLetter;
    SkipsReach(cfg, logs, s0, at.part, at.off);
    var s := Run(cfg, logs, s0, Skips(at.part, at.off));
    RunThree(cfg, logs, s, Fetch(at.part), SendPoison(true, false), CommitPoison(true, true));
    RunAppend(cfg, logs, s0, Skips(at.part, at.off),
        [Fetch(at.part), SendPoison(true, false), CommitPoison(true, true)]);
  }

  // ---- Which messages can be passed ----

  /** The committed offset has passed the message, and it is not safe. */
  ghost predicate Passed(cfg: Config, logs: Logs, s: Worker, at: Pos)
    requires InTopic(logs, at)
  {
    at.part < |s.committed| && at.off < s.committed[at.part] && !Safe(cfg, logs, s, at)
  }

  /** In some run with a truthful Elasticsearch. */
  ghost predicate CanBePassed(cfg: Config, logs: Logs, s0: Worker, at: Pos)
    requires InTopic(logs, at)
  {
    exists actions :: !Run(cfg, logs, s0, actions).misled && Passed(cfg, logs, Run(cfg, logs, s0, actions), at)
  }

  /** A later message `n` of the partition lets the offset pass `m`. A message that decodes is passed by
      poison that becomes a dead letter; poison is passed by whatever can be committed at all. */
  predicate LetsPass(cfg: Config, m: Entry, n: Entry) {
    if cfg.decode(m).Some? then IsParkable(cfg, n) else cfg.decode(n).Some? || IsParkable(cfg, n)
  }

  /** What the history of a run says about the topic. */
  ghost predicate Explained(cfg: Config, logs: Logs, s: Worker) {
    && (forall at | at in s.skipped :: InTopic(logs, at) && cfg.decode(logs[at.part][at.off]).None?)
    && (forall at | at in s.overtaken ::
          InTopic(logs, at) && cfg.decode(logs[at.part][at.off]).Some? && ParkableAfter(cfg, logs, at))
    && |s.committed| == |logs|
    && (forall p | 0 <= p < |logs| && s.committed[p] > 0 :: LastIsCommittable(cfg, logs, s, p, s.committed[p] - 1))
  }

  predicate ParkableAfter(cfg: Config, logs: Logs, at: Pos)
    requires at.part < |logs|
  {
    exists o | at.off < o < |logs[at.part]| :: IsParkable(cfg, logs[at.part][o])
  }

  /** The message just below a committed offset was in a batch, or is a dead letter. */
  predicate LastIsCommittable(cfg: Config, logs: Logs, s: Worker, p: nat, o: nat)
    requires p < |logs|
  {
    o < |logs[p]| && (cfg.decode(logs[p][o]).Some? || Pos(p, o) in s.parked)
  }

  lemma StepKeepsExplained(cfg: Config, logs: Logs, s: Worker, a: Action)
    requires Inv(cfg, logs, s) && Explained(cfg, logs, s)
    ensures Explained(cfg, logs, Step(cfg, logs, s, a))
  {
    Guarantees.ShapeOf(cfg, logs, s);
    ParkedFit(cfg, logs, s);
    hide Inv, Step, Explained, ParkedAreJson, Shape;
    HistoryMoves(cfg, logs, s, a);
    if Enabled(cfg, logs, s, a) && a.SendPoison? {
      SendExplained(cfg, logs, s, a.ok, a.kept);
    } else if Enabled(cfg, logs, s, a) && a.CommitPoison? {
      PoisonExplained(cfg, logs, s, a.ok, a.moved);
    } else if Enabled(cfg, logs, s, a) && a.Commit? {
      CommitExplained(cfg, logs, s, a.ok, a.offsets);
    } else {
      StillExplained(cfg, logs, s, Step(cfg, logs, s, a));
    }
  }

  lemma HistoryMoves(cfg: Config, logs: Logs, s: Worker, a: Action)
    ensures
      var s' := Step(cfg, logs, s, a);
      if Enabled(cfg, logs, s, a) && a.SendPoison? then s' == ApplySendPoison(s, a.ok, a.kept)
      else if Enabled(cfg, logs, s, a) && a.CommitPoison? then s' == ApplyCommitPoison(s, a.ok, a.moved)
      else if Enabled(cfg, logs, s, a) && a.Commit? then s' == ApplyCommit(s, a.ok, a.offsets)
      else
        && s'.skipped == s.skipped && s'.overtaken == s.overtaken
        && s'.committed == s.committed && s'.parked == s.parked
  {
    hide OneAttempt, SpillAll, BulkIndex, SendFailures, FitsDeadLetter;
  }

  lemma StillExplained(cfg: Config, logs: Logs, s: Worker, s': Worker)
    requires Explained(cfg, logs, s)
    requires s'.skipped == s.skipped && s'.overtaken == s.overtaken && s'.committed == s.committed
        && s'.parked == s.parked
    ensures Explained(cfg, logs, s')
  {
    hide IsParkable;
  }

  lemma SendExplained(cfg: Config, logs: Logs, s: Worker, ok: bool, kept: bool)
    requires Shape(cfg, logs, s) && Explained(cfg, logs, s) && Enabled(cfg, logs, s, SendPoison(ok, kept))
    ensures Explained(cfg, logs, ApplySendPoison(s, ok, kept))
  {
    hide IsParkable, FitsDeadLetter;
  }

  lemma ParkedFit(cfg: Config, logs: Logs, s: Worker)
    requires Inv(cfg, logs, s)
    ensures ParkedAreJson(cfg, logs, s)
  {
    hide Shape, Sound, ParkedAreJson;
  }

  lemma PoisonExplained(cfg: Config, logs: Logs, s: Worker, ok: bool, moved: bool)
    requires Shape(cfg, logs, s) && ParkedAreJson(cfg, logs, s) && Explained(cfg, logs, s)
        && Enabled(cfg, logs, s, CommitPoison(ok, moved))
    ensures Explained(cfg, logs, ApplyCommitPoison(s, ok, moved))
  {
    hide FitsDeadLetter;
    var s' := ApplyCommitPoison(s, ok, moved);
    forall at | at in s'.overtaken && at !in s.overtaken
      ensures InTopic(logs, at) && cfg.decode(logs[at.part][at.off]).Some? && ParkableAfter(cfg, logs, at)
    {
      var q :| q in s.batch && q.at.part == s.stage.at.part && q.at == at;
      assert IsParkable(cfg, logs[at.part][s.stage.at.off]) && at.off <= s.stage.at.off;
    }
  }

  lemma CommitExplained(cfg: Config, logs: Logs, s: Worker, ok: bool, offsets: seq<nat>)
    requires Shape(cfg, logs, s) && Explained(cfg, logs, s) && Enabled(cfg, logs, s, Commit(ok, offsets))
    ensures Explained(cfg, logs, ApplyCommit(s, ok, offsets))
  {
    forall p | 0 <= p < |logs| && offsets[p] > 0
        ensures LastIsCommittable(cfg, logs, ApplyCommit(s, ok, offsets), p, offsets[p] - 1) {
      if offsets[p] != s.committed[p] {
        var q :| q in s.batch && q.at.part == p && offsets[p] == q.at.off + 1;
      }
    }
  }

  lemma {:induction false} RunKeepsExplained(cfg: Config, logs: Logs, s: Worker, actions: seq<Action>)
    requires Inv(cfg, logs, s) && Explained(cfg, logs, s)
    ensures Explained(cfg, logs, Run(cfg, logs, s, actions))
    decreases |actions|
  {
    hide Step, Inv, Explained;
    if actions != [] {
      StepKeepsExplained(cfg, logs, s, actions[0]);
      StepKeeps(cfg, logs, s, actions[0]);
      RunKeepsExplained(cfg, logs, Step(cfg, logs, s, actions[0]), actions[1..]);
    }
  }

  /** One half: whatever is passed has a later message that lets it pass. */
  lemma PassedHasAReason(cfg: Config, logs: Logs, s0: Worker, actions: seq<Action>, at: Pos)
    requires Init(logs, s0) && InTopic(logs, at)
    requires !Run(cfg, logs, s0, actions).misled && Passed(cfg, logs, Run(cfg, logs, s0, actions), at)
    ensures exists o | at.off < o < |logs[at.part]| :: LetsPass(cfg, logs[at.part][at.off], logs[at.part][o])
  {
    hide Run;
    InitIsSound(cfg, logs, s0);
    RunKeeps(cfg, logs, s0, actions);
    RunKeepsExplained(cfg, logs, s0, actions);
    Guarantees.CommittedOffsetsAreSafe(cfg, logs, s0, actions);
    var s, m := Run(cfg, logs, s0, actions), logs[at.part][at.off];
    ParkedFit(cfg, logs, s);
    hide Inv, Shape, FitsDeadLetter;
    assert Safe(cfg, logs, s, Pos(at.part, at.off)) || at in s.skipped || at in s.overtaken;
    if cfg.decode(m).Some? {
      var o :| at.off < o < |logs[at.part]| && IsParkable(cfg, logs[at.part][o]);
      assert LetsPass(cfg, m, logs[at.part][o]);
    } else {
      var o := s.committed[at.part] - 1;
      assert LastIsCommittable(cfg, logs, s, at.part, o);
      assert LetsPass(cfg, m, logs[at.part][o]);
    }
  }

  // ---- The runs ----

  /** Poison that becomes a dead letter takes every earlier message of its partition with it: those that
      decode wait in the batch, the others were passed over; and a restart forgets them. */
  lemma PoisonCommitLosesAMessage(cfg: Config, logs: Logs, s0: Worker, at: Pos, o: nat)
    requires Init(logs, s0) && InTopic(logs, at) && at.off < o < |logs[at.part]| && IsParkable(cfg, logs[at.part][o])
    ensures
      var s := Run(cfg, logs, s0, ParkingActions(Pos(at.part, o)) + [Crash]);
      && Passed(cfg, logs, s, at) && !s.misled && s.batch == []
      && |s.position| == |logs| && s.position[at.part] == o + 1
  {
    hide Run, IsParkable;
    var last := Pos(at.part, o);
    ParkingRun(cfg, logs, s0, last);
    RunOneMore(cfg, logs, s0, ParkingActions(last), Crash);
  }

  function Successes(n: nat): (o: Attempt)
    ensures o.reply.Reply? && o.reply.body.Items? && |o.reply.body.items| == |o.stored| == n
    ensures forall i | 0 <= i < n :: o.reply.body.items[i] == Item(201, "", "") && o.stored[i]
  {
    Attempt(Reply(200, 0, Items(seq(n, i => Item(201, "", "")))), seq(n, i => true), AllSent, false)
  }

  lemma AllIndexed(w: World<Rec>, pending: seq<Rec>, retryMax: nat)
    ensures
      var o := Successes(|pending|);
      OneAttempt(w, pending, 0, retryMax, o).1.Finished? && Faithful(o, pending)
  {
    hide OneAttempt;
    Endings.AcceptedAtOnce(w, pending, 0, retryMax, Successes(|pending|));
  }

  /** The actions that fetch one more message, and index it with all that wait. */
  function FlushingActions(s: Worker, p: nat): seq<Action> {
    [Fetch(p), StartFlush, TryOnce(Successes(|s.batch| + 1))]
  }

  /** A message that decodes takes every earlier poison message of its partition with it: their dead
      letters failed, they were passed over, and the next commit moves beyond them. */
  lemma SkippedPoisonIsLost(cfg: Config, logs: Logs, s0: Worker, at: Pos, o: nat)
    requires Init(logs, s0) && InTopic(logs, at) && at.off < o < |logs[at.part]|
    requires cfg.decode(logs[at.part][at.off]).None? && cfg.decode(logs[at.part][o]).Some?
    ensures
      var s1 := Run(cfg, logs, s0, Skips(at.part, o));
      |s1.committed| == |logs| &&
      var offsets := s1.committed[at.part := o + 1];
      var s := Run(cfg, logs, s0, Skips(at.part, o) + (FlushingActions(s1, at.part) + [Commit(true, offsets)]));
      Passed(cfg, logs, s, at) && !s.misled && s.batch == []
  {
    hide Run;
    SkipsReach(cfg, logs, s0, at.part, o);
    var s1 := Run(cfg, logs, s0, Skips(at.part, o));
    Flushed(cfg, logs, s1, at.part, o);
    RunAppend(cfg, logs, s0, Skips(at.part, o),
        FlushingActions(s1, at.part) + [Commit(true, s1.committed[at.part := o + 1])]);
  }

  lemma Flushed(cfg: Config, logs: Logs, s: Worker, p: nat, o: nat)
    requires Untouched(logs, s, p, o) && o < |logs[p]| && cfg.decode(logs[p][o]).Some?
    ensures
      var s' := Run(cfg, logs, s, FlushingActions(s, p) + [Commit(true, s.committed[p := o + 1])]);
      s'.committed == s.committed[p := o + 1] && s'.batch == [] && !s'.misled && s'.parked == {}
  {
    hide Run, OneAttempt;
    var rec := cfg.decode(logs[p][o]).value;
    var s1 := Step(cfg, logs, s, Fetch(p));
    var s2 := Step(cfg, logs, s1, StartFlush);
    assert s1.batch == s.batch + [Queued(Pos(p, o), rec)] && s1.stage.Fetching?;
    assert s2.stage == Indexing(Recs(s1.batch), 0) && |Recs(s1.batch)| == |s.batch| + 1;
    AllIndexed(s2.world, Recs(s1.batch), cfg.retryMax);
    var s3 := Step(cfg, logs, s2, TryOnce(Successes(|s.batch| + 1)));
    assert s3.stage.Committing? && s3.batch == s1.batch && s3.committed == s.committed && s3.parked == {} && !s3.misled;
    assert s3.batch[|s.batch|] in s3.batch;
    RunThree(cfg, logs, s, Fetch(p), StartFlush, TryOnce(Successes(|s.batch| + 1)));
    RunOneMore(cfg, logs, s, FlushingActions(s, p), Commit(true, s.committed[p := o + 1]));
  }

  /** For every topic and every message of it: some run with a truthful Elasticsearch commits an offset
      beyond the message without the message being safe, if and only if a later message of its partition
      lets it pass. */
  lemma PassedExactly(cfg: Config, logs: Logs, s0: Worker, at: Pos)
    requires Init(logs, s0) && InTopic(logs, at)
    ensures CanBePassed(cfg, logs, s0, at) <==>
            exists o | at.off < o < |logs[at.part]| :: LetsPass(cfg, logs[at.part][at.off], logs[at.part][o])
  {
    hide Run, IsParkable;
    if CanBePassed(cfg, logs, s0, at) {
      var actions :| !Run(cfg, logs, s0, actions).misled && Passed(cfg, logs, Run(cfg, logs, s0, actions), at);
      PassedHasAReason(cfg, logs, s0, actions, at);
    }
    if o :| at.off < o < |logs[at.part]| && LetsPass(cfg, logs[at.part][at.off], logs[at.part][o]) {
      if IsParkable(cfg, logs[at.part][o]) {
        PoisonCommitLosesAMessage(cfg, logs, s0, at, o);
      } else {
        SkippedPoisonIsLost(cfg, logs, s0, at, o);
      }
    }
  }

  /** So a partition keeps the promise in every run exactly when no message that decodes has poison with
      a dead letter behind it, and no poison has anything behind it that can be committed. */
  lemma PartitionIsKeptExactly(cfg: Config, logs: Logs, s0: Worker, p: nat)
    requires Init(logs, s0) && p < |logs|
    ensures
      (forall o | 0 <= o < |logs[p]| :: !CanBePassed(cfg, logs, s0, Pos(p, o))) <==>
      (forall o, n | 0 <= o < n < |logs[p]| :: !LetsPass(cfg, logs[p][o], logs[p][n]))
  {
    hide LetsPass, CanBePassed;
    forall o | 0 <= o < |logs[p]|
      ensures CanBePassed(cfg, logs, s0, Pos(p, o)) <==> exists n | o < n < |logs[p]| ::
          LetsPass(cfg, logs[p][o], logs[p][n])
    {
      PassedExactly(cfg, logs, s0, Pos(p, o));
    }
  }

  // ---- One step ----

  /** The commit of a dead-lettered poison message takes effect at once. Everything up to it is safe
      afterwards, but for earlier exceptions, exactly when every message of its partition that still
      waits in the batch is stored, but for them. */
  lemma PoisonCommitIsSafeExactly(cfg: Config, logs: Logs, s: Worker, ok: bool)
    requires Inv(cfg, logs, s) && !s.misled && Enabled(cfg, logs, s, CommitPoison(ok, true))
    ensures
      var s', at := Step(cfg, logs, s, CommitPoison(ok, true)), s.stage.at;
      && s'.committed[at.part] == at.off + 1
      && ((forall o | 0 <= o < s'.committed[at.part] ::
          Safe(cfg, logs, s', Pos(at.part, o)) || Excepted(s, Pos(at.part, o))) <==>
          (forall q | q in s.batch && q.at.part == at.part :: Stored(s.world, q.rec) || Excepted(s, q.at)))
  {
    var s', at := ApplyCommitPoison(s, ok, true), s.stage.at;
    SafeStays(cfg, logs, s, s');
    SafeStays(cfg, logs, s', s);
    if forall o | 0 <= o < s'.committed[at.part] ::
        Safe(cfg, logs, s', Pos(at.part, o)) || Excepted(s, Pos(at.part, o)) {
      forall q | q in s.batch && q.at.part == at.part ensures Stored(s.world, q.rec) || Excepted(s, q.at) {
        assert Safe(cfg, logs, s', Pos(at.part, q.at.off)) || Excepted(s, Pos(at.part, q.at.off));
      }
    }
    if forall q | q in s.batch && q.at.part == at.part :: Stored(s.world, q.rec) || Excepted(s, q.at) {
      forall o | 0 <= o < at.off + 1 ensures Safe(cfg, logs, s', Pos(at.part, o)) || Excepted(s, Pos(at.part, o)) {
        assert Ledger(cfg, logs, s, Pos(at.part, o)) || Pos(at.part, o) in s.overtaken;
      }
    }
  }
}
