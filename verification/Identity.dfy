/** Records keep their identities apart: in every run the counter of accepted records is the number of
    distinct records answered with 202, so a statement about each of them is one about all of them. */
module Identity {
  import opened Text
  import opened Logline
  import opened Codec
  import opened Records
  import opened Api
  import opened Intake
  import opened Promises
  import SpoolUsage

  /** The records of a request that is past validation and not yet answered. */
  function Live(p: Phase): seq<Rec> {
    match p
    case Publishing(recs, _) => recs
    case Fallback(recs) => recs
    case Walking(recs, _) => recs
    case Admitted(recs) => recs
    case Writing(recs, _, _) => recs
    case Stored(recs, _) => recs
    case _ => []
  }

  predicate Distinct(recs: seq<Rec>) {
    forall i, j | 0 <= i < j < |recs| :: recs[i].id != recs[j].id
  }

  predicate Apart(a: seq<Rec>, b: seq<Rec>) {
    forall i, j | 0 <= i < |a| && 0 <= j < |b| :: a[i].id != b[j].id
  }

  /** The identities of the records are issued, and not those of accepted records. */
  predicate Pending(s: State, recs: seq<Rec>) {
    Distinct(recs) && (forall i | 0 <= i < |recs| :: recs[i].id in s.issued)
    && forall i, r | 0 <= i < |recs| && r in s.accepted :: r.id != recs[i].id
  }

  predicate IdsApart(s: State) {
    && (forall r | r in s.accepted :: r.id in s.issued)
    && (forall q, r | q in s.accepted && r in s.accepted && q.id == r.id :: q == r)
    && (forall h | 0 <= h < |s.hs| :: Pending(s, Live(s.hs[h])))
    && (forall g, h | 0 <= g < h < |s.hs| :: Apart(Live(s.hs[g]), Live(s.hs[h])))
  }

  predicate Counted(s: State) {
    |s.accepted| == s.tally.acceptedRecords
  }

  lemma {:induction false} SetOfDistinct(recs: seq<Rec>)
    requires Distinct(recs)
    ensures |set r | r in recs| == |recs|
  {
    if recs != [] {
      var n := |recs| - 1;
      SetOfDistinct(recs[..n]);
      assert (set r | r in recs) == (set r | r in recs[..n]) + {recs[n]};
      assert recs[n] !in recs[..n] by {
        assert forall i | 0 <= i < n :: recs[i].id != recs[n].id;
      }
    }
  }

  /** A request that moves on with its records, or drops them. */
  lemma MoveKeeps(s: State, s': State, h: nat)
    requires IdsApart(s) && s'.accepted == s.accepted && s'.issued == s.issued
    requires h < |s.hs| == |s'.hs| && s'.hs == s.hs[h := s'.hs[h]]
    requires Live(s'.hs[h]) == Live(s.hs[h]) || Live(s'.hs[h]) == []
    ensures IdsApart(s')
  {
    hide Live;
    forall k | 0 <= k < |s'.hs| ensures Pending(s', Live(s'.hs[k])) {
      assert Pending(s, Live(s.hs[k]));
    }
  }

  /** A request that is validated gets identities of its own. */
  lemma JudgeKeeps(cfg: Config, s: State, h: nat, source: string, records: seq<string>, receivedAt: Time, ids: seq<nat>)
    requires IdsApart(s) && At(s, h).Inside? && FreshIds(s, ids)
    requires var events := Validated(cfg, source, records, receivedAt); events.Ok? ==> |ids| == |events.value|
    ensures
      var s' := ApplyJudge(cfg, s, h, source, records, receivedAt, ids);
      IdsApart(s') && s'.accepted == s.accepted && s'.tally.acceptedRecords == s.tally.acceptedRecords
  {
    hide Validated;
    var s' := ApplyJudge(cfg, s, h, source, records, receivedAt, ids);
    if s'.hs[h].Publishing? {
      var recs := s'.hs[h].recs;
      assert forall i | 0 <= i < |recs| :: recs[i].id == ids[i];
      LabelIsPending(s, s', recs, ids);
      forall k | 0 <= k < |s'.hs| ensures Pending(s', Live(s'.hs[k])) {
        if k != h {
          assert Pending(s, Live(s.hs[k]));
        }
      }
      forall g, k | 0 <= g < k < |s'.hs| ensures Apart(Live(s'.hs[g]), Live(s'.hs[k])) {
        assert Pending(s, Live(s.hs[g])) && Pending(s, Live(s.hs[k]));
      }
    } else {
      MoveKeeps(s, s', h);
    }
  }

  lemma LabelIsPending(s: State, s': State, recs: seq<Rec>, ids: seq<nat>)
    requires IdsApart(s) && FreshIds(s, ids) && s'.accepted == s.accepted
        && s'.issued == s.issued + (set i | 0 <= i < |ids| :: ids[i])
    requires |recs| == |ids| && forall i | 0 <= i < |recs| :: recs[i].id == ids[i]
    ensures Pending(s', recs)
  {
  }

  /** An answered request hands its records over to the accepted ones. */
  lemma AnswerKeeps(s: State, h: nat)
    requires IdsApart(s) && At(s, h).Stored?
    ensures IdsApart(ApplyAnswer(s, h))
  {
    var s', recs := ApplyAnswer(s, h), s.hs[h].recs;
    assert Pending(s, Live(s.hs[h])) && Live(s.hs[h]) == recs;
    AcceptedStayApart(s, recs);
    hide Pending;
    forall k | 0 <= k < |s'.hs| ensures Pending(s', Live(s'.hs[k])) {
      if k != h {
        OthersStayPending(s, h, k);
      } else {
        NothingIsPending(s');
      }
    }
  }

  lemma NothingIsPending(s: State)
    ensures Pending(s, [])
  {
  }

  lemma AcceptedStayApart(s: State, recs: seq<Rec>)
    requires IdsApart(s) && Pending(s, recs)
    ensures
      var accepted := s.accepted + (set r | r in recs);
      && (forall r | r in accepted :: r.id in s.issued)
      && (forall q, r | q in accepted && r in accepted && q.id == r.id :: q == r)
  {
    var accepted := s.accepted + (set r | r in recs);
    forall q, r | q in accepted && r in accepted && q.id == r.id ensures q == r {
      if q in recs {
        var i :| 0 <= i < |recs| && recs[i] == q;
        if r in recs {
          var j :| 0 <= j < |recs| && recs[j] == r;
        }
      }
    }
  }

  lemma AnswerCounts(s: State, h: nat)
    requires IdsApart(s) && At(s, h).Stored?
    ensures
      var s' := ApplyAnswer(s, h);
      |s'.accepted| - s'.tally.acceptedRecords == |s.accepted| - s.tally.acceptedRecords
  {
    var recs := s.hs[h].recs;
    assert Pending(s, Live(s.hs[h])) && Live(s.hs[h]) == recs;
    SetOfDistinct(recs);
    forall r | r in recs ensures r !in s.accepted {
      var i :| 0 <= i < |recs| && recs[i] == r;
    }
    assert s.accepted !! (set r | r in recs);
  }

  lemma OthersStayPending(s: State, h: nat, k: nat)
    requires IdsApart(s) && At(s, h).Stored? && k < |s.hs| && k != h
    ensures Pending(ApplyAnswer(s, h), Live(s.hs[k]))
  {
    var recs, other := s.hs[h].recs, Live(s.hs[k]);
    assert Pending(s, other) && Live(s.hs[h]) == recs;
    assert Apart(recs, other) || Apart(other, recs) by {
      if h < k { assert Apart(Live(s.hs[h]), Live(s.hs[k])); } else { assert Apart(Live(s.hs[k]), Live(s.hs[h])); }
    }
    forall i, r | 0 <= i < |other| && r in ApplyAnswer(s, h).accepted ensures r.id != other[i].id {
      if r in recs {
        var j :| 0 <= j < |recs| && recs[j] == r;
      }
    }
  }

  /** What other actions do to a request: it keeps its records or drops them. */
  ghost predicate KeepsOrDrops(cfg: Config, s: State, logs: Logs, a: Action)
    requires Enabled(cfg, s, logs, a) && Actor(a).Some?
  {
    var s', h := Apply(cfg, s, logs, a).0, Actor(a).value;
    && s'.accepted == s.accepted && s'.issued == s.issued && s'.tally.acceptedRecords == s.tally.acceptedRecords
    && h < |s.hs| == |s'.hs| && (Live(s'.hs[h]) == Live(s.hs[h]) || Live(s'.hs[h]) == [])
  }

  lemma LiveMoves(cfg: Config, s: State, logs: Logs, a: Action)
    requires Enabled(cfg, s, logs, a) && Actor(a).Some? && !a.Judge? && !a.Answer?
    ensures KeepsOrDrops(cfg, s, logs, a)
  {
    hide Apply, Enabled, KeepsOrDrops;
    if a.ListDir? || a.Admit? || a.OpenTmp? || a.AppendTmp? || a.WriteFailed? || a.Rename? {
      SpoolMoves(cfg, s, logs, a);
    } else {
      HandlerMoves(cfg, s, logs, a);
    }
  }

  lemma SpoolMoves(cfg: Config, s: State, logs: Logs, a: Action)
    requires Enabled(cfg, s, logs, a)
    requires a.ListDir? || a.Admit? || a.OpenTmp? || a.AppendTmp? || a.WriteFailed? || a.Rename?
    ensures KeepsOrDrops(cfg, s, logs, a)
  {
    hide CanSee, Encodable, SpoolUsage.Refuses;
  }

  lemma HandlerMoves(cfg: Config, s: State, logs: Logs, a: Action)
    requires Enabled(cfg, s, logs, a) && Actor(a).Some? && !a.Judge? && !a.Answer?
    requires !a.ListDir? && !a.Admit? && !a.OpenTmp? && !a.AppendTmp? && !a.WriteFailed? && !a.Rename?
    ensures KeepsOrDrops(cfg, s, logs, a)
  {
    hide Append, Deliverable, AllSent, ApplyJudge, ApplyAnswer, ApplyRead, FreshIds;
  }

  lemma OthersMove(cfg: Config, s: State, logs: Logs, a: Action)
    requires Enabled(cfg, s, logs, a) && Actor(a).None?
    ensures
      var s' := Apply(cfg, s, logs, a).0;
      && s'.accepted == s.accepted && s'.issued == s.issued
      && (a != Crash ==> s'.tally.acceptedRecords == s.tally.acceptedRecords)
  {
    hide ReadSlot, Append, Deliverable;
  }

  lemma StepKeepsIds(cfg: Config, s: State, logs: Logs, a: Action)
    requires IdsApart(s)
    ensures IdsApart(Step(cfg, s, logs, a).0)
    ensures a != Crash && Counted(s) ==> Counted(Step(cfg, s, logs, a).0)
  {
    hide Apply, IdsApart, Validated, ApplyJudge, FreshIds;
    if Enabled(cfg, s, logs, a) {
      var s' := Apply(cfg, s, logs, a).0;
      OnePhaseMoves(cfg, s, logs, a);
      if a.Judge? {
        JudgeKeeps(cfg, s, a.h, a.source, a.records, a.receivedAt, a.ids);
        JudgeOrAnswer(cfg, s, logs, a);
      } else if a.Answer? {
        AnswerKeeps(s, a.h);
        AnswerCounts(s, a.h);
        JudgeOrAnswer(cfg, s, logs, a);
      } else if Actor(a).Some? {
        LiveMoves(cfg, s, logs, a);
        MoveKeeps(s, s', Actor(a).value);
      } else {
        OthersMove(cfg, s, logs, a);
        NewcomersKeep(s, s');
      }
    }
  }

  lemma JudgeOrAnswer(cfg: Config, s: State, logs: Logs, a: Action)
    requires Enabled(cfg, s, logs, a)
    ensures a.Judge? ==> Apply(cfg, s, logs, a).0 == ApplyJudge(cfg, s, a.h, a.source, a.records, a.receivedAt, a.ids)
    ensures a.Answer? ==> Apply(cfg, s, logs, a).0 == ApplyAnswer(s, a.h)
  {
    hide ApplyJudge, ApplyAnswer, Validated;
  }

  lemma NewcomersKeep(s: State, s': State)
    requires IdsApart(s) && s'.accepted == s.accepted && s'.issued == s.issued
    requires s'.hs == [] || s'.hs == s.hs || s'.hs == s.hs + [Arrived]
    ensures IdsApart(s')
  {
    forall k | 0 <= k < |s'.hs| ensures Pending(s', Live(s'.hs[k])) {
      if k < |s.hs| {
        assert Pending(s, Live(s.hs[k]));
      }
    }
  }

  lemma {:induction false} RunKeepsIds(cfg: Config, s: State, logs: Logs, actions: seq<Action>)
    requires IdsApart(s)
    ensures IdsApart(Run(cfg, s, logs, actions).0)
    ensures Counted(s) && Crash !in actions ==> Counted(Run(cfg, s, logs, actions).0)
    decreases |actions|
  {
    hide Step, IdsApart, Counted;
    if actions != [] {
      var (s', more) := Step(cfg, s, logs, actions[0]);
      StepKeepsIds(cfg, s, logs, actions[0]);
      RunKeepsIds(cfg, s', more, actions[1..]);
    }
  }

  /** In every run, accepted records have identities of their own, and between crashes the counter of
      accepted records counts exactly them. */
  lemma AcceptedAreDistinct(cfg: Config, s0: State, logs: Logs, actions: seq<Action>)
    requires Init(s0)
    ensures
      var s := Run(cfg, s0, logs, actions).0;
      && (forall q, r | q in s.accepted && r in s.accepted && q.id == r.id :: q == r)
      && (Crash !in actions ==> s.tally.acceptedRecords == |s.accepted|)
  {
    hide Run;
    RunKeepsIds(cfg, s0, logs, actions);
  }
}
