/** Bookkeeping of the log API in every interleaving of its handlers, its replayer and crashes: the
    semaphore and the counters are exact, the spool stays within a known bound, and each file being
    written belongs to one request. */
module Intake {
  import opened Text
  import opened Logline
  import opened Codec
  import opened Records
  import opened Api
  import SpoolUsage

  // ---- Sums over the requests in progress ----

  function Sum(hs: seq<Phase>, w: Phase -> int): int {
    if hs == [] then 0 else Sum(hs[..|hs| - 1], w) + w(hs[|hs| - 1])
  }

  lemma {:induction false} SumUpdate(hs: seq<Phase>, h: nat, p: Phase, w: Phase -> int)
    requires h < |hs|
    ensures Sum(hs[h := p], w) == Sum(hs, w) - w(hs[h]) + w(p)
  {
    var n := |hs| - 1;
    if h < n {
      assert hs[h := p][..n] == hs[..n][h := p];
      SumUpdate(hs[..n], h, p, w);
    } else {
      assert hs[h := p][..n] == hs[..n];
    }
  }

  lemma SumPush(hs: seq<Phase>, p: Phase, w: Phase -> int)
    ensures Sum(hs + [p], w) == Sum(hs, w) + w(p)
  {
    assert (hs + [p])[..|hs|] == hs;
  }

  lemma {:induction false} SumMonotone(hs: seq<Phase>, v: Phase -> int, w: Phase -> int)
    requires forall i | 0 <= i < |hs| :: v(hs[i]) <= w(hs[i])
    ensures Sum(hs, v) <= Sum(hs, w)
  {
    if hs != [] {
      SumMonotone(hs[..|hs| - 1], v, w);
    }
  }

  // ---- The semaphore ----

  /** A request holds a slot of the semaphore from acquire to release. */
  function Token(p: Phase): int {
    if p.Arrived? || p.Left? then 0 else 1
  }

  predicate TokensExact(cfg: Config, s: State) {
    cfg.maxInFlight > 0 ==> s.tokens == Sum(s.hs, Token) && s.tokens <= cfg.maxInFlight
  }

  // ---- The counters ----

  function Undecided(p: Phase): int {
    if p.Leaving? || p.Left? then 0 else 1
  }

  /** A publish error that is not yet accounted for by a spooled batch, a spool error or a rejection. */
  function OpenError(p: Phase): int {
    if p.Fallback? || p.Walking? || p.Unspooled? || p.Admitted? || p.Writing? || (p.Stored? && p.spooled) then 1 else 0
  }

  predicate RequestsExact(s: State) {
    s.tally.requests == s.tally.batches + s.tally.rejectedRequests + Sum(s.hs, Undecided)
  }

  predicate ErrorsExact(s: State) {
    s.tally.kafkaErrors == s.tally.spoolBatches + s.tally.spoolErrors + s.tally.unspooled + Sum(s.hs, OpenError)
  }

  // ---- One step changes one phase ----

  /** The request an action moves on, if any. */
  function Actor(a: Action): Option<nat> {
    match a
    case Acquire(h) => Some(h)
    case Refuse(h, _) => Some(h)
    case Judge(h, _, _, _, _) => Some(h)
    case Deliver(h, _, _) => Some(h)
    case Published(h) => Some(h)
    case PublishFailed(h) => Some(h)
    case ListDir(h, _, _) => Some(h)
    case Admit(h, _) => Some(h)
    case OpenTmp(h) => Some(h)
    case AppendTmp(h) => Some(h)
    case WriteFailed(h) => Some(h)
    case Rename(h) => Some(h)
    case Answer(h) => Some(h)
    case Reject(h) => Some(h)
    case Release(h) => Some(h)
    case _ => None
  }

  /** The phase an action moves its request to. */
  lemma OnePhaseMoves(cfg: Config, s: State, logs: Logs, a: Action)
    requires Enabled(cfg, s, logs, a)
    ensures
      var s' := Apply(cfg, s, logs, a).0;
      && (Actor(a).Some? ==>
            && Actor(a).value < |s.hs| == |s'.hs|
            && s'.hs == s.hs[Actor(a).value := s'.hs[Actor(a).value]])
      && (Actor(a).None? ==> s'.hs == match a case Crash => [] case Arrive => s.hs + [Arrived] case _ => s.hs)
  {
    hide CanSee, ReadSlot, Validated, Append;
  }

  /** How a step changes a sum over the requests. */
  lemma SumOfStep(cfg: Config, s: State, logs: Logs, a: Action, w: Phase -> int)
    requires Enabled(cfg, s, logs, a)
    ensures
      var s' := Apply(cfg, s, logs, a).0;
      && (Actor(a).Some? ==>
            var h := Actor(a).value;
            h < |s.hs| == |s'.hs| && Sum(s'.hs, w) == Sum(s.hs, w) - w(s.hs[h]) + w(s'.hs[h]))
      && (Actor(a).None? ==>
            Sum(s'.hs, w) == match a case Crash => 0 case Arrive => Sum(s.hs, w) + w(Arrived) case _ => Sum(s.hs, w))
  {
    hide Apply;
    OnePhaseMoves(cfg, s, logs, a);
    var s' := Apply(cfg, s, logs, a).0;
    if Actor(a).Some? {
      SumUpdate(s.hs, Actor(a).value, s'.hs[Actor(a).value], w);
    } else if a == Arrive {
      SumPush(s.hs, Arrived, w);
    }
  }

  /** What a step does to the semaphore, in terms of the request it moves. */
  lemma TokenMoves(cfg: Config, s: State, logs: Logs, a: Action)
    requires Enabled(cfg, s, logs, a)
    ensures
      var s', h := Apply(cfg, s, logs, a).0, if Actor(a).Some? then Actor(a).value else 0;
      && (Actor(a).Some? ==>
            && h < |s.hs| == |s'.hs|
            && (cfg.maxInFlight > 0 ==> s'.tokens - s.tokens == Token(s'.hs[h]) - Token(s.hs[h]))
            && (s.tokens <= cfg.maxInFlight ==> s'.tokens <= cfg.maxInFlight))
      && (Actor(a).None? ==> s'.tokens == if a == Crash then 0 else s.tokens)
  {
    hide CanSee, ReadSlot, Validated, Append, Deliverable, FreshIds, Encodable, AllSent;
  }

  /** The semaphore count is the number of requests between acquire and release, and never exceeds
      the limit. */
  lemma StepKeepsTokens(cfg: Config, s: State, logs: Logs, a: Action)
    requires TokensExact(cfg, s)
    ensures TokensExact(cfg, Step(cfg, s, logs, a).0)
  {
    hide Apply, Enabled, Sum;
    if Enabled(cfg, s, logs, a) {
      SumOfStep(cfg, s, logs, a, Token);
      TokenMoves(cfg, s, logs, a);
    }
  }

  /** What a step counts, in terms of the request it moves. */
  lemma RequestMoves(cfg: Config, s: State, logs: Logs, a: Action)
    requires Enabled(cfg, s, logs, a)
    ensures
      var s', h := Apply(cfg, s, logs, a).0, if Actor(a).Some? then Actor(a).value else 0;
      var t, t' := s.tally, s'.tally;
      var decided := (t'.batches + t'.rejectedRequests) - (t.batches + t.rejectedRequests);
      && (Actor(a).Some? ==>
            && h < |s.hs| == |s'.hs| && t'.requests == t.requests
            && decided == Undecided(s.hs[h]) - Undecided(s'.hs[h]))
      && (Actor(a).None? && a != Crash ==> decided == 0 && t'.requests == t.requests + if a == Arrive then 1 else 0)
      && (a == Crash ==> t' == ZERO)
  {
    hide CanSee, ReadSlot, Validated, Append, Deliverable, FreshIds, Encodable, AllSent;
  }

  /** Every request is counted once: as an accepted batch, a rejection, or still undecided. */
  lemma StepKeepsRequests(cfg: Config, s: State, logs: Logs, a: Action)
    requires RequestsExact(s)
    ensures RequestsExact(Step(cfg, s, logs, a).0)
  {
    hide Apply, Enabled, Sum;
    if Enabled(cfg, s, logs, a) {
      SumOfStep(cfg, s, logs, a, Undecided);
      RequestMoves(cfg, s, logs, a);
    }
  }

  lemma ErrorMoves(cfg: Config, s: State, logs: Logs, a: Action)
    requires Enabled(cfg, s, logs, a)
    ensures
      var s', h := Apply(cfg, s, logs, a).0, if Actor(a).Some? then Actor(a).value else 0;
      var t, t' := s.tally, s'.tally;
      var open := (t'.kafkaErrors - t'.spoolBatches - t'.spoolErrors - t'.unspooled)
                  - (t.kafkaErrors - t.spoolBatches - t.spoolErrors - t.unspooled);
      && (Actor(a).Some? ==> h < |s.hs| == |s'.hs| && open == OpenError(s'.hs[h]) - OpenError(s.hs[h]))
      && (Actor(a).None? && a != Crash ==> open == 0)
      && (a == Crash ==> t' == ZERO)
  {
    hide CanSee, ReadSlot, Validated, Append, Deliverable, FreshIds, Encodable, AllSent;
  }

  /** Every publish error is answered for. */
  lemma StepKeepsErrors(cfg: Config, s: State, logs: Logs, a: Action)
    requires ErrorsExact(s)
    ensures ErrorsExact(Step(cfg, s, logs, a).0)
  {
    hide Apply, Enabled, Sum;
    if Enabled(cfg, s, logs, a) {
      SumOfStep(cfg, s, logs, a, OpenError);
      ErrorMoves(cfg, s, logs, a);
    }
  }

  // ---- The size of the spool ----

  /** The bytes a request may still add to the finished files: it is past the capacity test, or walks
      a directory listing beside which its batch fits. */
  function PastTest(cfg: Config, p: Phase): nat {
    if p.Admitted? || p.Writing?
        || (p.Walking? && !Overfull(cfg, p.listed, p.recs)) then PayloadBytes(cfg.env, p.recs) else 0
  }

  function Weight(cfg: Config): Phase -> int {
    p => PastTest(cfg, p)
  }

  /** The payload of every request in progress is at most `limit` bytes. */
  predicate SmallPayloads(cfg: Config, s: State, limit: nat) {
    forall h | 0 <= h < |s.hs| :: PastTest(cfg, s.hs[h]) <= limit
  }

  /** No file vanished during the walk of the capacity test. */
  predicate WholeWalk(a: Action) {
    a.Admit? ==> forall i | 0 <= i < |a.walk| :: !a.walk[i].Vanished?
  }

  /** Finished bytes and bytes past the test stay within the capacity and one payload for each request
      but one. */
  predicate WithinBound(cfg: Config, s: State, limit: nat) {
    cfg.maxBytes > 0 && cfg.maxInFlight > 0 ==>
      UsedBytes(cfg.env, s.files) + Sum(s.hs, Weight(cfg)) <= cfg.maxBytes + (cfg.maxInFlight - 1) * limit
  }

  lemma {:induction false} UsedUpdate(env: Env, files: seq<Slot>, k: nat, f: Slot)
    requires k < |files|
    ensures UsedBytes(env, files[k := f]) ==
            UsedBytes(env, files) - (if files[k].Final? then PayloadBytes(env, files[k].recs) else 0)
            + (if f.Final? then PayloadBytes(env, f.recs) else 0)
  {
    hide PayloadBytes;
    var n := |files| - 1;
    if k < n {
      assert files[k := f][..n] == files[..n][k := f];
      UsedUpdate(env, files[..n], k, f);
    } else {
      assert files[k := f][..n] == files[..n];
    }
  }

  /** The requests past the test, other than one that is not, weigh at most `limit` per held slot. */
  lemma OthersPastTest(cfg: Config, s: State, h: nat, limit: nat)
    requires TokensExact(cfg, s) && cfg.maxInFlight > 0 && SmallPayloads(cfg, s, limit)
    requires h < |s.hs| && Token(s.hs[h]) == 1 && PastTest(cfg, s.hs[h]) == 0
    ensures Sum(s.hs, Weight(cfg)) <= (cfg.maxInFlight - 1) * limit
  {
    hide PayloadBytes;
    var others := s.hs[h := Left];
    SumUpdate(s.hs, h, Left, Weight(cfg));
    SumUpdate(s.hs, h, Left, Token);
    forall i | 0 <= i < |others| ensures Weight(cfg)(others[i]) <= PerToken(limit)(others[i]) {
      assert others[i] == Left || others[i] == s.hs[i];
    }
    SumMonotone(others, Weight(cfg), PerToken(limit));
    SumPerToken(others, limit, cfg.maxInFlight - 1);
  }

  function PerToken(limit: nat): Phase -> int {
    p => if Token(p) == 1 then limit else 0
  }

  lemma {:induction false} SumPerToken(hs: seq<Phase>, limit: nat, n: nat)
    requires Sum(hs, Token) <= n
    ensures Sum(hs, PerToken(limit)) <= n * limit
  {
    if hs != [] {
      var last := hs[|hs| - 1];
      if Token(last) == 1 {
        TokensArePositive(hs[..|hs| - 1]);
        SumPerToken(hs[..|hs| - 1], limit, n - 1);
        assert (n - 1) * limit + limit == n * limit;
      } else {
        SumPerToken(hs[..|hs| - 1], limit, n);
      }
    }
  }

  lemma {:induction false} TokensArePositive(hs: seq<Phase>)
    ensures Sum(hs, Token) >= 0
  {
    if hs != [] {
      TokensArePositive(hs[..|hs| - 1]);
    }
  }

  /** The capacity test is not atomic with the write, so concurrent requests can overshoot the limit;
      but while no file vanishes during a walk, never by more than one payload for each of the other
      `maxInFlight - 1` requests. */
  lemma StepKeepsBound(cfg: Config, s: State, logs: Logs, a: Action, limit: nat)
    requires TokensExact(cfg, s) && WithinBound(cfg, s, limit) && FilesMatch(s) && WholeWalk(a)
    requires SmallPayloads(cfg, s, limit) && SmallPayloads(cfg, Step(cfg, s, logs, a).0, limit)
    ensures WithinBound(cfg, Step(cfg, s, logs, a).0, limit)
  {
    hide Apply, Sum, PayloadBytes, UsedBytes, PastTest, FilesMatch, Deliverable, CanSee;
    if Enabled(cfg, s, logs, a) && cfg.maxBytes > 0 && cfg.maxInFlight > 0 {
      var s' := Apply(cfg, s, logs, a).0;
      SumIsPositive(cfg, s.hs);
      if a.ListDir? || a.Admit? {
        TestIs(cfg, s, logs, a);
        if a.ListDir? {
          ListBound(cfg, s, a.h, a.live, a.io, limit);
        } else {
          AdmitBound(cfg, s, a.h, a.walk, limit);
        }
      } else {
        SumOfStep(cfg, s, logs, a, Weight(cfg));
        WeightMoves(cfg, s, logs, a);
        NoWeight(cfg);
      }
    }
  }

  lemma NoWeight(cfg: Config)
    ensures PastTest(cfg, Arrived) == 0
  {
  }

  lemma TestIs(cfg: Config, s: State, logs: Logs, a: Action)
    requires Enabled(cfg, s, logs, a) && (a.ListDir? || a.Admit?)
    ensures a.ListDir? ==> At(s, a.h).Fallback? && Apply(cfg, s, logs, a).0 == ApplyList(cfg, s, a.h, a.live, a.io)
    ensures a.Admit? ==>
              && At(s, a.h).Walking? && CanSee(cfg.env, s.hs[a.h].listed, s.files, a.walk)
              && Apply(cfg, s, logs, a).0 == ApplyAdmit(cfg, s, a.h, a.walk)
  {
    hide ApplyList, ApplyAdmit, CanSee;
  }

  /** Past the test, what a step adds to the finished files it takes from the requests still to write. */
  lemma WeightMoves(cfg: Config, s: State, logs: Logs, a: Action)
    requires FilesMatch(s) && Enabled(cfg, s, logs, a) && !a.ListDir? && !a.Admit?
    ensures
      var s', h := Apply(cfg, s, logs, a).0, if Actor(a).Some? then Actor(a).value else 0;
      && (Actor(a).Some? ==>
            && h < |s.hs| == |s'.hs|
            && UsedBytes(cfg.env, s'.files) + PastTest(cfg, s'.hs[h]) <= UsedBytes(cfg.env, s.files)
                + PastTest(cfg, s.hs[h]))
      && (Actor(a).None? ==> UsedBytes(cfg.env, s'.files) <= UsedBytes(cfg.env, s.files))
  {
    hide PayloadBytes, UsedBytes, Overfull;
    if a.OpenTmp? || a.AppendTmp? || a.Rename? {
      WritingMoves(cfg, s, logs, a);
    } else if a.ReadNext? || a.Remove? {
      RemovalMoves(cfg, s, logs, a);
    } else {
      QuietWeights(cfg, s, logs, a);
    }
  }

  lemma QuietWeights(cfg: Config, s: State, logs: Logs, a: Action)
    requires Enabled(cfg, s, logs, a) && !a.ListDir? && !a.Admit? && !a.OpenTmp? && !a.AppendTmp? && !a.Rename?
    requires !a.ReadNext? && !a.Remove?
    ensures
      var s', h := Apply(cfg, s, logs, a).0, if Actor(a).Some? then Actor(a).value else 0;
      && s'.files == s.files
      && (Actor(a).Some? ==> h < |s.hs| == |s'.hs| && PastTest(cfg, s'.hs[h]) <= PastTest(cfg, s.hs[h]))
  {
    hide PayloadBytes, Overfull, Deliverable, Append, Validated, FreshIds, AllSent;
  }

  lemma WritingMoves(cfg: Config, s: State, logs: Logs, a: Action)
    requires FilesMatch(s) && Enabled(cfg, s, logs, a) && (a.OpenTmp? || a.AppendTmp? || a.Rename?)
    ensures
      var s', h := Apply(cfg, s, logs, a).0, Actor(a).value;
      && h < |s.hs| == |s'.hs|
      && UsedBytes(cfg.env, s'.files) + PastTest(cfg, s'.hs[h]) == UsedBytes(cfg.env, s.files) + PastTest(cfg, s.hs[h])
  {
    hide PayloadBytes, UsedBytes, Overfull;
    var s', h := Apply(cfg, s, logs, a).0, Actor(a).value;
    if a.OpenTmp? {
      UsedPush(cfg.env, s.files, Tmp([]));
    } else {
      var p := s.hs[h];
      assert s.files[p.slot].Tmp? && p.recs[..|p.recs|] == p.recs;
      UsedUpdate(cfg.env, s.files, p.slot, s'.files[p.slot]);
    }
  }

  lemma RemovalMoves(cfg: Config, s: State, logs: Logs, a: Action)
    requires Enabled(cfg, s, logs, a) && (a.ReadNext? || a.Remove?)
    ensures UsedBytes(cfg.env, Apply(cfg, s, logs, a).0.files) <= UsedBytes(cfg.env, s.files)
  {
    hide PayloadBytes, UsedBytes, ReadSlot;
    var s' := Apply(cfg, s, logs, a).0;
    if s'.files != s.files {
      UsedUpdate(cfg.env, s.files, if a.Remove? then s.replay.slot else s.replay.todo[0], Gone);
    }
  }

  lemma UsedPush(env: Env, files: seq<Slot>, f: Slot)
    ensures UsedBytes(env, files + [f]) == UsedBytes(env, files) + (if f.Final? then PayloadBytes(env, f.recs) else 0)
  {
    assert (files + [f])[..|files|] == files;
  }

  lemma {:induction false} SumIsPositive(cfg: Config, hs: seq<Phase>)
    ensures Sum(hs, Weight(cfg)) >= 0
  {
    if hs != [] {
      SumIsPositive(cfg, hs[..|hs| - 1]);
    }
  }

  lemma ListBound(cfg: Config, s: State, h: nat, live: bool, io: bool, limit: nat)
    requires TokensExact(cfg, s) && WithinBound(cfg, s, limit) && cfg.maxBytes > 0 && cfg.maxInFlight > 0
    requires SmallPayloads(cfg, s, limit) && At(s, h).Fallback?
    ensures WithinBound(cfg, ApplyList(cfg, s, h, live, io), limit)
  {
    hide PayloadBytes, UsedBytes, Sum, Encodable;
    var s' := ApplyList(cfg, s, h, live, io);
    SumUpdate(s.hs, h, s'.hs[h], Weight(cfg));
    if PastTest(cfg, s'.hs[h]) > 0 {
      OthersPastTest(cfg, s, h, limit);
    }
  }

  lemma AdmitBound(cfg: Config, s: State, h: nat, walk: seq<SpoolUsage.Sight>, limit: nat)
    requires WithinBound(cfg, s, limit) && cfg.maxBytes > 0 && cfg.maxInFlight > 0
    requires At(s, h).Walking? && CanSee(cfg.env, s.hs[h].listed, s.files, walk) && WholeWalk(Admit(h, walk))
    ensures WithinBound(cfg, ApplyAdmit(cfg, s, h, walk), limit)
  {
    hide PayloadBytes, UsedBytes, Sum, SpoolUsage.Look;
    var s' := ApplyAdmit(cfg, s, h, walk);
    WalkCounts(cfg.env, s.hs[h].listed, s.files, walk);
    SumUpdate(s.hs, h, s'.hs[h], Weight(cfg));
  }

  /** A file being written belongs to one request and holds a prefix of its batch. */
  predicate FilesMatch(s: State) {
    && |s.origin| == |s.files|
    && (forall h | 0 <= h < |s.hs| && s.hs[h].Writing? ::
          var p := s.hs[h];
          p.slot < |s.files| && p.written <= |p.recs| && s.files[p.slot] == Tmp(p.recs[..p.written])
              && s.origin[p.slot] == p.recs)
    && (forall g, h | 0 <= g < h < |s.hs| && s.hs[g].Writing? && s.hs[h].Writing? :: s.hs[g].slot != s.hs[h].slot)
    && (forall k | 0 <= k < |s.files| && s.files[k].Final? :: s.files[k].recs == s.origin[k])
    && (s.replay.Sending? || s.replay.Clearing? ==>
        s.replay.slot < |s.files| && s.files[s.replay.slot] == Final(s.replay.recs))
  }

  lemma StepKeepsFiles(cfg: Config, s: State, logs: Logs, a: Action)
    requires Lawful(cfg.env) && FilesMatch(s)
    ensures FilesMatch(Step(cfg, s, logs, a).0)
  {
    hide Apply, FilesMatch, Lawful, Deliverable, FreshIds, Validated;
    if Enabled(cfg, s, logs, a) {
      var s' := Apply(cfg, s, logs, a).0;
      match a
      case ReadNext(ok, removed) => ReadKeepsFiles(cfg, s, logs, ok, removed);
      case OpenTmp(h) => OpenKeepsFiles(cfg, s, logs, h);
      case AppendTmp(h) => AppendKeepsFiles(cfg, s, logs, h);
      case Rename(h) => RenameKeepsFiles(cfg, s, logs, h);
      case Remove(io) => RemoveKeepsFiles(cfg, s, logs, io);
      case Crash => CrashKeepsFiles(cfg, s, logs);
      case Arrive => ArriveKeepsFiles(cfg, s, logs);
      case _ =>
        QuietActions(cfg, s, logs, a);
        FilesUnaffected(s, s');
    }
  }

  lemma QuietActions(cfg: Config, s: State, logs: Logs, a: Action)
    requires Enabled(cfg, s, logs, a)
    requires !(a.ReadNext? || a.OpenTmp? || a.AppendTmp? || a.Rename? || a.Arrive? || a.Crash? || a.Remove?)
    ensures
      var s' := Apply(cfg, s, logs, a).0;
      && s'.files == s.files && s'.origin == s.origin && |s'.hs| == |s.hs|
      && (forall i | 0 <= i < |s'.hs| :: !s'.hs[i].Writing? || s'.hs[i] == s.hs[i])
      && (s'.replay.Sending? || s'.replay.Clearing? ==>
            (s.replay.Sending? || s.replay.Clearing?) && s'.replay.slot == s.replay.slot
                && s'.replay.recs == s.replay.recs)
  {
    hide CanSee, Validated, Append, Deliverable;
  }

  /** Files untouched, and no new writer. */
  lemma FilesUnaffected(s: State, s': State)
    requires FilesMatch(s) && s'.files == s.files && s'.origin == s.origin
    requires |s.hs| <= |s'.hs| && forall i | 0 <= i < |s'.hs| ::
        !s'.hs[i].Writing? || (i < |s.hs| && s'.hs[i] == s.hs[i])
    requires s'.replay.Sending? || s'.replay.Clearing? ==>
               (s.replay.Sending? || s.replay.Clearing?) && s'.replay.slot == s.replay.slot
                   && s'.replay.recs == s.replay.recs
    ensures FilesMatch(s')
  {
  }

  lemma CrashKeepsFiles(cfg: Config, s: State, logs: Logs)
    requires FilesMatch(s)
    ensures FilesMatch(Apply(cfg, s, logs, Crash).0)
  {
  }

  lemma ArriveKeepsFiles(cfg: Config, s: State, logs: Logs)
    requires FilesMatch(s)
    ensures FilesMatch(Apply(cfg, s, logs, Arrive).0)
  {
    FilesUnaffected(s, Apply(cfg, s, logs, Arrive).0);
  }

  lemma OpenKeepsFiles(cfg: Config, s: State, logs: Logs, h: nat)
    requires FilesMatch(s) && Enabled(cfg, s, logs, OpenTmp(h))
    ensures FilesMatch(Apply(cfg, s, logs, OpenTmp(h)).0)
  {
    assert s.hs[h].recs[..0] == [];
  }

  lemma AppendKeepsFiles(cfg: Config, s: State, logs: Logs, h: nat)
    requires FilesMatch(s) && Enabled(cfg, s, logs, AppendTmp(h))
    ensures FilesMatch(Apply(cfg, s, logs, AppendTmp(h)).0)
  {
  }

  lemma RenameKeepsFiles(cfg: Config, s: State, logs: Logs, h: nat)
    requires FilesMatch(s) && Enabled(cfg, s, logs, Rename(h))
    ensures FilesMatch(Apply(cfg, s, logs, Rename(h)).0)
  {
    assert s.hs[h].recs[..|s.hs[h].recs|] == s.hs[h].recs;
  }

  lemma RemoveKeepsFiles(cfg: Config, s: State, logs: Logs, io: bool)
    requires FilesMatch(s) && Enabled(cfg, s, logs, Remove(io))
    ensures FilesMatch(Apply(cfg, s, logs, Remove(io)).0)
  {
  }

  lemma ReadKeepsFiles(cfg: Config, s: State, logs: Logs, ok: bool, removed: bool)
    requires Lawful(cfg.env) && FilesMatch(s) && Enabled(cfg, s, logs, ReadNext(ok, removed))
    ensures FilesMatch(Apply(cfg, s, logs, ReadNext(ok, removed)).0)
  {
    hide FilesMatch, ApplyRead, Lawful;
    ReadThenMatch(cfg, s, ok, removed);
  }

  lemma ReadThenMatch(cfg: Config, s: State, ok: bool, removed: bool)
    requires Lawful(cfg.env) && FilesMatch(s) && s.replay.Pass? && s.replay.todo != []
    ensures FilesMatch(ApplyRead(cfg, s, ok, removed))
  {
    hide ReadSlot, Lawful, Encodable, AllFit;
    var k := s.replay.todo[0];
    if k < |s.files| && s.files[k].Final? {
      ReadSlotExactly(cfg.env, s.files[k].recs);
    }
  }
}
