/** The retry engine of internal/worker/service.go: what one batch does to Elasticsearch, the
    dead-letter topic, the replay directory and the counters. Everything outside the process is
    part of `World`; how it answers is an argument, so each statement is about every answer. */
module Retry {
  import opened Text
  import opened Bulk

  /** internal/worker/stats.go: the counters, as one value. */
  datatype Tally = Tally(
    consumed: int, indexed: int, failed: int, retried: int, dlq: int, replayed: int, currentBatch: int, esFailures: int)

  /** A replay file with the events it holds, or a name whose file is gone. Names are never reused:
      they are the indices of `World.files`. */
  datatype ReplayFile<+E> = File(events: seq<E>) | Gone

  /** `es` and `dlq` are everything stored in Elasticsearch and in the dead-letter topic; `calls`
      counts bulk requests and `slept` the nanoseconds of back-off asked for. */
  datatype World<+E> = World(es: multiset<E>, dlq: multiset<E>, files: seq<ReplayFile<E>>, tally: Tally, calls: nat,
      slept: int)

  function FileEvents<E>(f: ReplayFile<E>): seq<E> {
    match f
    case File(events) => events
    case Gone => []
  }

  /** All events in replay files. */
  function Spooled<E>(files: seq<ReplayFile<E>>): multiset<E> {
    if files == [] then multiset{}
    else Spooled(files[..|files| - 1]) + multiset(FileEvents(files[|files| - 1]))
  }

  /** Everything the outside world holds, copies included. */
  function Holdings<E>(w: World<E>): multiset<E> {
    w.es + w.dlq + Spooled(w.files)
  }

  // ---- Back-off ----

  const MILLISECOND := 1_000_000
  const MAX_BACKOFF := 5_000 * MILLISECOND

  function Pow2(n: nat): nat {
    if n == 0 then 1 else 2 * Pow2(n - 1)
  }

  /** Two's complement arithmetic on 64 bits. */
  function Wrap64(n: int): int {
    (n + 0x8000_0000_0000_0000) % 0x1_0000_0000_0000_0000 - 0x8000_0000_0000_0000
  }

  function ShiftOne(attempt: nat): int {
    if attempt < 64 then Wrap64(Pow2(attempt)) else 0
  }

  function Backoff(attempt: nat): int {
    var wait := Wrap64(ShiftOne(attempt) * 200 * MILLISECOND);
    if wait > MAX_BACKOFF then MAX_BACKOFF else wait
  }

  // ---- Dead letters ----

  /** How the writes to the dead-letter topic go: all succeed, or write `k` fails, leaving that
      message behind (`kept`) or not. */
  datatype DlqOutcome = AllSent | StopsAt(k: nat, kept: bool)

  function Sent(n: nat, o: DlqOutcome): bool {
    o.AllSent? || o.k >= n
  }

  function SendFailures<E>(w: World<E>, failures: seq<Failure<E>>, o: DlqOutcome): (World<E>, bool) {
    var n := |failures|;
    if Sent(n, o) then
      (w.(dlq := w.dlq + multiset(Events(failures)),
          tally := w.tally.(dlq := w.tally.dlq + n, failed := w.tally.failed + n)), true)
    else
      (w.(dlq := w.dlq + multiset(Events(failures[..o.k]))
          + (if o.kept then multiset{failures[o.k].event} else multiset{})), false)
  }

  // ---- One iteration of the retry loop ----

  /** The outside world's part in one attempt: the reply, the positions that Elasticsearch stored
      whatever it replied, the dead-letter writes, and whether shutdown cuts the wait short. */
  datatype Attempt = Attempt(reply: Reply, stored: seq<bool>, dlq: DlqOutcome, cancelled: bool)

  datatype Next<+E> = Finished | Failed | Again(rest: seq<E>) | Spill(rest: seq<E>)

  /** After a bulk call that returned `result`, with an error unless `ok`. */
  function AfterCall<E>(w: World<E>, pending: seq<E>, stored: seq<bool>, result: BulkResult<E>, ok: bool): World<E> {
    w.(es := w.es + multiset(Pick(pending, stored)), calls := w.calls + 1,
       tally := w.tally.(esFailures := w.tally.esFailures + (if ok then 0 else 1),
           indexed := w.tally.indexed + result.indexed))
  }

  function Wait(attempt: nat, retryAfter: int): int {
    if retryAfter > 0 then retryAfter else Backoff(attempt)
  }

  /** The rest of an iteration, from the result of its bulk call on. */
  function Settle<E>(w: World<E>, pending: seq<E>, attempt: nat, retryMax: nat, o: Attempt, result: BulkResult<E>,
      ok: bool): (r: (World<E>, Next<E>))
    ensures r.1.Again? ==> attempt != retryMax
    ensures r.1.Spill? ==> attempt == retryMax
  {
    var (w1, sent) := SendFailures(AfterCall(w, pending, o.stored, result, ok), result.permanent, o.dlq);
    if !sent then (w1, Failed)
    else if result.retryable == [] && ok then (w1, Finished)
    else
      var rest := if result.retryable != [] then result.retryable else pending;
      if rest == [] then (w1, Finished)
      else if attempt == retryMax then (w1, Spill(rest))
      else
        var w2 := w1.(tally := w1.tally.(retried := w1.tally.retried + |rest|),
            slept := w1.slept + Wait(attempt, result.retryAfter));
        (w2, if o.cancelled then Failed else Again(rest))
  }

  function OneAttempt<E>(w: World<E>, pending: seq<E>, attempt: nat, retryMax: nat,
      o: Attempt): (r: (World<E>, Next<E>))
    ensures r.1.Again? ==> attempt != retryMax
    ensures r.1.Spill? ==> attempt == retryMax
  {
    var (result, ok) := BulkIndex(pending, o.reply);
    Settle(w, pending, attempt, retryMax, o, result, ok)
  }

  /** The loop from a given attempt on. */
  function Attempts<E>(w: World<E>, pending: seq<E>, attempt: nat, retryMax: nat,
      script: seq<Attempt>): (r: (World<E>, Next<E>))
    requires attempt <= retryMax < |script|
    ensures !r.1.Again?
    decreases retryMax - attempt
  {
    var (w', next) := OneAttempt(w, pending, attempt, retryMax, script[attempt]);
    if next.Again? then Attempts(w', next.rest, attempt + 1, retryMax, script) else (w', next)
  }

  // ---- The replay file ----

  /** Writing a replay file succeeds, or fails leaving the first `left` events in a file, if any. */
  datatype WriteOutcome = Written | WriteFailed(left: Option<nat>)

  function WriteReplay<E>(files: seq<ReplayFile<E>>, events: seq<E>, o: WriteOutcome): (seq<ReplayFile<E>>, bool) {
    if events == [] || o.Written? then (if events == [] then files else files + [File(events)], true)
    else if o.left.None? || o.left.value > |events| then (files, false)
    else (files + [File(events[..o.left.value])], false)
  }

  function SpillAll<E>(w: World<E>, rest: seq<E>, o: WriteOutcome): (World<E>, bool) {
    var (files, ok) := WriteReplay(w.files, rest, o);
    if ok then
      (w.(files := files, tally := w.tally.(failed := w.tally.failed + |rest|)), true)
    else (w.(files := files), false)
  }

  /** indexSafely: the loop, then the replay file for what is left. */
  function IndexSafely<E>(w: World<E>, events: seq<E>, retryMax: nat, script: seq<Attempt>,
      write: WriteOutcome): (World<E>, bool)
    requires retryMax < |script|
  {
    match Attempts(w, events, 0, retryMax, script)
    case (w', Finished) => (w', true)
    case (w', Spill(rest)) => SpillAll(w', rest, write)
    case (w', _) => (w', false)
  }

  // ---- What the outside world is trusted with ----

  /** The reply is read item by item. */
  predicate Itemised(r: Reply) {
    r.Reply? && r.status < 400 && r.body.Items?
  }

  /** An item for each event, and success means stored. Nothing is said of failures: a request that
      failed may have stored any of its documents. */
  predicate Faithful<E>(o: Attempt, pending: seq<E>) {
    Itemised(o.reply) ==>
      && |pending| <= |o.reply.body.items| == |o.stored|
      && forall i | 0 <= i < |o.stored| :: ClassOf(o.reply.body.items[i]) == Indexed ==> o.stored[i]
  }

  /** In addition a document is stored only when its item says so: errors store nothing. */
  predicate Exact<E>(o: Attempt, pending: seq<E>) {
    if Itemised(o.reply) then |pending| == |o.reply.body.items| && o.stored == Mask(o.reply.body.items, Indexed)
    else o.stored == []
  }

  /** Exactly one item per event; nothing about what was stored. */
  predicate OneItemEach<E>(o: Attempt, pending: seq<E>) {
    Itemised(o.reply) ==> |pending| == |o.reply.body.items|
  }

  /** `trust` holds of every attempt that the loop really makes. */
  ghost predicate Trusted<E>(pending: seq<E>, attempt: nat, retryMax: nat, script: seq<Attempt>,
                             trust: (Attempt, seq<E>) -> bool)
    requires attempt <= retryMax < |script|
    decreases retryMax - attempt
  {
    trust(script[attempt], pending) &&
    var next := OneAttempt(Blank(), pending, attempt, retryMax, script[attempt]).1;
    next.Again? ==> Trusted(next.rest, attempt + 1, retryMax, script, trust)
  }

  function Blank<E>(): World<E> {
    World(multiset{}, multiset{}, [], Tally(0, 0, 0, 0, 0, 0, 0, 0), 0, 0)
  }

  // ---- Conservation ----

  function Left<E>(next: Next<E>): multiset<E> {
    match next
    case Again(rest) => multiset(rest)
    case Spill(rest) => multiset(rest)
    case _ => multiset{}
  }

  /** Which way an iteration goes does not depend on the world. */
  lemma SettleControl<E>(w: World<E>, v: World<E>, pending: seq<E>, attempt: nat, retryMax: nat, o: Attempt,
      result: BulkResult<E>, ok: bool)
    ensures Settle(w, pending, attempt, retryMax, o, result, ok).1 ==
        Settle(v, pending, attempt, retryMax, o, result, ok).1
  {
  }

  /** Where an iteration puts events, given the result of its bulk call. */
  lemma SettleShape<E>(w: World<E>, pending: seq<E>, attempt: nat, retryMax: nat, o: Attempt, result: BulkResult<E>,
      ok: bool)
    requires pending == [] ==> result == Nothing() && ok
    ensures
      var (w', next) := Settle(w, pending, attempt, retryMax, o, result, ok);
      && w'.files == w.files && w'.calls == w.calls + 1
      && w'.es == w.es + multiset(Pick(pending, o.stored))
      && (next != Failed ==>
            && w'.dlq == w.dlq + multiset(Events(result.permanent))
            && Left(next) == multiset(if result.retryable == [] && !ok then pending else result.retryable))
      && (next.Again? || next.Spill? ==>
            next.rest != [] && (next.rest == pending || next.rest == result.retryable))
  {
  }

  /** What an iteration counts, given the result of its bulk call. */
  lemma SettleCounts<E>(w: World<E>, pending: seq<E>, attempt: nat, retryMax: nat, o: Attempt, result: BulkResult<E>,
      ok: bool)
    requires |result.retryable| <= |pending|
    ensures
      var (w', next) := Settle(w, pending, attempt, retryMax, o, result, ok);
      var (t, t') := (w.tally, w'.tally);
      && t'.indexed == t.indexed + result.indexed
      && t.retried <= t'.retried <= t.retried + (if attempt == retryMax then 0 else |pending|)
      && (next != Failed ==> t'.failed == t.failed + |result.permanent| && t'.dlq == t.dlq + |result.permanent|)
  {
  }

  /** The three kinds of bulk result. */
  lemma BulkCases<E>(pending: seq<E>, r: Reply)
    ensures
      var (result, ok) := BulkIndex(pending, r);
      && |result.retryable| <= |pending|
      && (pending == [] ==> result == Nothing() && ok)
      && (pending != [] && Itemised(r) ==> result == Sorted(pending, r.body.items) && ok)
      && (pending != [] && !Itemised(r) ==>
            result.indexed == 0 && result.permanent == [] && (result.retryable == [] || result.retryable == pending)
                && !ok)
  {
  }

  /** The sets of events an attempt deals with: stored, dead letters, and still pending. */
  lemma OneAttemptShape<E>(w: World<E>, pending: seq<E>, attempt: nat, retryMax: nat, o: Attempt)
    ensures
      var (w', next) := OneAttempt(w, pending, attempt, retryMax, o);
      && w'.files == w.files && w'.calls == w.calls + 1
      && w'.es == w.es + multiset(Pick(pending, o.stored))
      && next == OneAttempt(Blank(), pending, attempt, retryMax, o).1
      && (next != Failed ==>
            if Itemised(o.reply) && pending != [] then
              && w'.dlq == w.dlq + multiset(Pick(pending, Mask(o.reply.body.items, Permanent)))
              && Left(next) == multiset(Pick(pending, Mask(o.reply.body.items, Retryable)))
            else w'.dlq == w.dlq && Left(next) == multiset(pending))
  {
    var (result, ok) := BulkIndex(pending, o.reply);
    BulkCases(pending, o.reply);
    SettleShape(w, pending, attempt, retryMax, o, result, ok);
    SettleControl(w, Blank(), pending, attempt, retryMax, o, result, ok);
    if Itemised(o.reply) {
      PermanentEvents(pending, o.reply.body.items);
    }
  }

  /** An attempt that does not fail places every pending event or keeps it pending, and stores no
      event twice if errors store nothing. */
  lemma AttemptConserves<E>(w: World<E>, pending: seq<E>, attempt: nat, retryMax: nat, o: Attempt)
    ensures
      var (w', next) := OneAttempt(w, pending, attempt, retryMax, o);
      next != Failed ==>
        && (Faithful(o, pending) ==> Holdings(w) + multiset(pending) <= Holdings(w') + Left(next))
        && (Exact(o, pending) ==> Holdings(w) + multiset(pending) == Holdings(w') + Left(next))
  {
    hide OneAttempt;
    OneAttemptShape(w, pending, attempt, retryMax, o);
    var (w', next) := OneAttempt(w, pending, attempt, retryMax, o);
    if next != Failed {
      if Itemised(o.reply) && pending != [] {
        ItemisedConserves(w, w', Left(next), pending, o.reply.body.items, o.stored);
      } else {
        PickNothing(pending);
        Balance(w, w', Left(next), pending, multiset(Pick(pending, o.stored)), multiset{}, multiset{});
      }
    }
  }

  lemma ItemisedConserves<E>(w: World<E>, w': World<E>, left: multiset<E>, pending: seq<E>, items: seq<Item>,
      stored: seq<bool>)
    requires w'.es == w.es + multiset(Pick(pending, stored)) && w'.files == w.files
    requires w'.dlq == w.dlq + multiset(Pick(pending, Mask(items, Permanent)))
    requires left == multiset(Pick(pending, Mask(items, Retryable)))
    ensures
      && (|pending| <= |items| == |stored|
          && (forall i | 0 <= i < |stored| :: ClassOf(items[i]) == Indexed ==> stored[i])
          ==> Holdings(w) + multiset(pending) <= Holdings(w') + left)
      && (|pending| == |items| && stored == Mask(items, Indexed)
          ==> Holdings(w) + multiset(pending) == Holdings(w') + left)
  {
    if |pending| <= |items| == |stored| {
      ClassesPartition(pending, items);
      if forall i | 0 <= i < |stored| :: ClassOf(items[i]) == Indexed ==> stored[i] {
        PickGrows(pending, Mask(items, Indexed), stored);
      }
      Balance(w, w', left, pending, multiset(Pick(pending, stored)), multiset(Pick(pending, Mask(items, Indexed))),
          multiset(Pick(pending, Mask(items, Permanent))));
    }
  }

  lemma Balance<E>(w: World<E>, w': World<E>, left: multiset<E>, pending: seq<E>, stored: multiset<E>,
      indexed: multiset<E>, permanent: multiset<E>)
    requires w'.es == w.es + stored && w'.dlq == w.dlq + permanent && w'.files == w.files
    requires indexed + left + permanent == multiset(pending)
    ensures indexed <= stored ==> Holdings(w) + multiset(pending) <= Holdings(w') + left
    ensures indexed == stored ==> Holdings(w) + multiset(pending) == Holdings(w') + left
  {
    var spooled := Spooled(w.files);
    assert Holdings(w) == w.es + w.dlq + spooled;
    assert Holdings(w') == w.es + stored + (w.dlq + permanent) + spooled;
  }

  lemma {:induction false} PickGrows<E>(xs: seq<E>, small: seq<bool>, large: seq<bool>)
    requires |small| <= |large| && forall i | 0 <= i < |small| :: small[i] ==> large[i]
    ensures multiset(Pick(xs, small)) <= multiset(Pick(xs, large))
  {
    if xs != [] {
      var n := |xs| - 1;
      PickGrows(xs[..n], small, large);
      PickStep(xs, small);
      PickStep(xs, large);
    }
  }

  lemma {:induction false} AttemptsConserve<E>(w: World<E>, pending: seq<E>, attempt: nat, retryMax: nat,
      script: seq<Attempt>)
    requires attempt <= retryMax < |script|
    ensures
      var (w', next) := Attempts(w, pending, attempt, retryMax, script);
      next != Failed ==>
        && (Trusted(pending, attempt, retryMax, script, Faithful) ==>
            Holdings(w) + multiset(pending) <= Holdings(w') + Left(next))
        && (Trusted(pending, attempt, retryMax, script, Exact) ==>
            Holdings(w) + multiset(pending) == Holdings(w') + Left(next))
    decreases retryMax - attempt
  {
    hide OneAttempt;
    AttemptConserves(w, pending, attempt, retryMax, script[attempt]);
    OneAttemptShape(w, pending, attempt, retryMax, script[attempt]);
    var (w1, next) := OneAttempt(w, pending, attempt, retryMax, script[attempt]);
    if next.Again? {
      AttemptsConserve(w1, next.rest, attempt + 1, retryMax, script);
    }
  }

  lemma SpillConserves<E>(w: World<E>, rest: seq<E>, o: WriteOutcome)
    ensures
      var (w', ok) := SpillAll(w, rest, o);
      ok ==> Holdings(w') == Holdings(w) + multiset(rest)
  {
    var (w', ok) := SpillAll(w, rest, o);
    if ok && rest != [] {
      assert w'.files[..|w'.files| - 1] == w.files;
    }
  }

  /** When a batch is reported safe, every occurrence of an event in it is in Elasticsearch, among
      the dead letters or in a replay file; and if errors store nothing, exactly once. */
  lemma SafeBatchIsConserved<E>(w: World<E>, events: seq<E>, retryMax: nat, script: seq<Attempt>, write: WriteOutcome)
    requires retryMax < |script|
    ensures
      var (w', ok) := IndexSafely(w, events, retryMax, script, write);
      ok ==>
        && (Trusted(events, 0, retryMax, script, Faithful) ==> Holdings(w) + multiset(events) <= Holdings(w'))
        && (Trusted(events, 0, retryMax, script, Exact) ==> Holdings(w) + multiset(events) == Holdings(w'))
  {
    AttemptsConserve(w, events, 0, retryMax, script);
    var (w1, next) := Attempts(w, events, 0, retryMax, script);
    if next.Spill? {
      SpillConserves(w1, next.rest, write);
    }
  }

  // ---- How many copies ----

  /** The pending list only ever loses elements, and keeps their order. */
  lemma PendingShrinks<E>(w: World<E>, pending: seq<E>, attempt: nat, retryMax: nat, o: Attempt)
    ensures
      var next := OneAttempt(w, pending, attempt, retryMax, o).1;
      next.Again? || next.Spill? ==> Subsequence(next.rest, pending)
  {
    var (result, ok) := BulkIndex(pending, o.reply);
    BulkCases(pending, o.reply);
    SettleShape(w, pending, attempt, retryMax, o, result, ok);
    if Itemised(o.reply) {
      PickIsSubsequence(pending, Mask(o.reply.body.items, Retryable));
    }
    SubsequenceOfItself(pending);
  }

  lemma {:induction false} SubsequenceOfItself<E>(xs: seq<E>)
    ensures Subsequence(xs, xs)
  {
    if xs != [] {
      SubsequenceOfItself(xs[..|xs| - 1]);
    }
  }

  /** Whatever the answers: each attempt stores at most one copy of an occurrence, and each
      occurrence becomes a dead letter or a replay record at most once in the whole call, also when
      the call fails. So `retryMax + 1` copies in Elasticsearch, `retryMax + 2` in all. */
  lemma {:induction false} CopiesAreBounded<E>(w: World<E>, pending: seq<E>, attempt: nat, retryMax: nat,
      script: seq<Attempt>, e: E)
    requires attempt <= retryMax < |script|
    ensures
      var (w', next) := Attempts(w, pending, attempt, retryMax, script);
      var k := w'.calls - w.calls;
      && 1 <= k <= retryMax + 1 - attempt
      && w'.es[e] <= w.es[e] + k * multiset(pending)[e]
      && w'.dlq[e] <= w.dlq[e] + multiset(pending)[e]
      && (next != Failed ==> w'.dlq[e] + Left(next)[e] <= w.dlq[e] + multiset(pending)[e])
      && w'.files == w.files
      && (next.Spill? ==> Subsequence(next.rest, pending))
    decreases retryMax - attempt
  {
    hide OneAttempt;
    var o := script[attempt];
    var (w1, next) := OneAttempt(w, pending, attempt, retryMax, o);
    OneAttemptCopies(w, pending, attempt, retryMax, o, e);
    LettersAreBounded(w, pending, attempt, retryMax, o);
    if next.Again? {
      CopiesAreBounded(w1, next.rest, attempt + 1, retryMax, script, e);
      var (w', end) := Attempts(w1, next.rest, attempt + 1, retryMax, script);
      OneMoreTime(w'.calls - w1.calls, multiset(next.rest)[e], multiset(pending)[e]);
      if end.Spill? {
        SubsequenceIsTransitive(end.rest, next.rest, pending);
      }
    }
  }

  /** Failed or not, an attempt makes dead letters of pending events only, each once. */
  lemma LettersAreBounded<E>(w: World<E>, pending: seq<E>, attempt: nat, retryMax: nat, o: Attempt)
    ensures OneAttempt(w, pending, attempt, retryMax, o).0.dlq <= w.dlq + multiset(pending)
  {
    hide SendFailures, BulkIndex;
    var (result, ok) := BulkIndex(pending, o.reply);
    SomeLetters(AfterCall(w, pending, o.stored, result, ok), result.permanent, o.dlq);
    PermanentArePending(pending, o.reply);
  }

  lemma PermanentArePending<E>(pending: seq<E>, reply: Reply)
    ensures multiset(Events(BulkIndex(pending, reply).0.permanent)) <= multiset(pending)
  {
    if Itemised(reply) && pending != [] {
      PermanentEvents(pending, reply.body.items);
      PickIsSubsequence(pending, Mask(reply.body.items, Permanent));
      SubsequenceBounds(Pick(pending, Mask(reply.body.items, Permanent)), pending);
    }
  }

  lemma SomeLetters<E>(w: World<E>, failures: seq<Failure<E>>, o: DlqOutcome)
    ensures SendFailures(w, failures, o).0.dlq <= w.dlq + multiset(Events(failures))
  {
    if !Sent(|failures|, o) {
      var k := o.k;
      assert Events(failures) == Events(failures[..k]) + [failures[k].event] + Events(failures[k + 1..]);
    }
  }

  lemma OneMoreTime(k: nat, m: nat, n: nat)
    requires m <= n
    ensures k * m + n <= (k + 1) * n
  {
    assert k * m <= k * n;
  }

  lemma OneAttemptCopies<E>(w: World<E>, pending: seq<E>, attempt: nat, retryMax: nat, o: Attempt, e: E)
    ensures
      var (w', next) := OneAttempt(w, pending, attempt, retryMax, o);
      && w'.calls == w.calls + 1 && w'.files == w.files
      && w'.es[e] <= w.es[e] + multiset(pending)[e]
      && (next != Failed ==> w'.dlq[e] + Left(next)[e] <= w.dlq[e] + multiset(pending)[e])
      && (next.Again? || next.Spill? ==>
            Subsequence(next.rest, pending) && multiset(next.rest)[e] <= multiset(pending)[e])
  {
    OneAttemptShape(w, pending, attempt, retryMax, o);
    PickIsSubsequence(pending, o.stored);
    SubsequenceBounds(Pick(pending, o.stored), pending);
    PendingShrinks(w, pending, attempt, retryMax, o);
    if Itemised(o.reply) {
      PermanentAndRetryable(pending, o.reply.body.items);
    }
    var next := OneAttempt(w, pending, attempt, retryMax, o).1;
    if next.Again? || next.Spill? {
      SubsequenceBounds(next.rest, pending);
    }
  }

  lemma {:induction false} PermanentAndRetryable<E>(xs: seq<E>, items: seq<Item>)
    ensures multiset(Pick(xs, Mask(items, Permanent))) + multiset(Pick(xs, Mask(items, Retryable))) <= multiset(xs)
  {
    if xs != [] {
      PermanentAndRetryable(xs[..|xs| - 1], items);
      PickStep(xs, Mask(items, Permanent));
      PickStep(xs, Mask(items, Retryable));
      MultisetLast(xs);
    }
  }

  // ---- The counters ----

  lemma AttemptCounts<E>(w: World<E>, pending: seq<E>, attempt: nat, retryMax: nat, o: Attempt)
    requires OneItemEach(o, pending)
    ensures
      var (w', next) := OneAttempt(w, pending, attempt, retryMax, o);
      var (t, t') := (w.tally, w'.tally);
      next != Failed ==>
        && (t'.indexed - t.indexed) + (t'.failed - t.failed) + |Left(next)| == |pending|
        && t'.failed - t.failed == t'.dlq - t.dlq == |w'.dlq| - |w.dlq|
  {
    var (result, ok) := BulkIndex(pending, o.reply);
    BulkCases(pending, o.reply);
    SettleShape(w, pending, attempt, retryMax, o, result, ok);
    SettleCounts(w, pending, attempt, retryMax, o, result, ok);
    if Itemised(o.reply) && pending != [] {
      AccountedExactly(pending, o.reply.body.items);
    }
  }

  lemma {:induction false} AttemptsCount<E>(w: World<E>, pending: seq<E>, attempt: nat, retryMax: nat,
      script: seq<Attempt>)
    requires attempt <= retryMax < |script|
    requires Trusted(pending, attempt, retryMax, script, OneItemEach)
    ensures
      var (w', next) := Attempts(w, pending, attempt, retryMax, script);
      var (t, t') := (w.tally, w'.tally);
      next != Failed ==>
        && (t'.indexed - t.indexed) + (t'.failed - t.failed) + |Left(next)| == |pending|
        && t'.failed - t.failed == t'.dlq - t.dlq == |w'.dlq| - |w.dlq|
    decreases retryMax - attempt
  {
    hide OneAttempt;
    var o := script[attempt];
    var (w1, next) := OneAttempt(w, pending, attempt, retryMax, o);
    AttemptCounts(w, pending, attempt, retryMax, o);
    OneAttemptShape(w, pending, attempt, retryMax, o);
    if next.Again? {
      AttemptsCount(w1, next.rest, attempt + 1, retryMax, script);
    }
  }

  /** Each wait counts what is pending, and there are at most `retryMax` waits. */
  lemma {:induction false} RetriedIsBounded<E>(w: World<E>, pending: seq<E>, attempt: nat, retryMax: nat,
      script: seq<Attempt>)
    requires attempt <= retryMax < |script|
    ensures
      var w' := Attempts(w, pending, attempt, retryMax, script).0;
      w.tally.retried <= w'.tally.retried <= w.tally.retried + (retryMax - attempt) * |pending|
    decreases retryMax - attempt
  {
    hide OneAttempt;
    var n := retryMax - attempt;
    RetriedOnce(w, pending, attempt, retryMax, script[attempt]);
    RestIsShorter(w, pending, attempt, retryMax, script[attempt]);
    var (w1, next) := OneAttempt(w, pending, attempt, retryMax, script[attempt]);
    if n > 0 {
      OneMoreTime(n - 1, if next.Again? then |next.rest| else 0, |pending|);
    }
    if next.Again? {
      RetriedIsBounded(w1, next.rest, attempt + 1, retryMax, script);
    }
  }

  lemma RetriedOnce<E>(w: World<E>, pending: seq<E>, attempt: nat, retryMax: nat, o: Attempt)
    ensures
      var w' := OneAttempt(w, pending, attempt, retryMax, o).0;
      w.tally.retried <= w'.tally.retried <= w.tally.retried + (if attempt == retryMax then 0 else |pending|)
  {
    var (result, ok) := BulkIndex(pending, o.reply);
    BulkCases(pending, o.reply);
    SettleCounts(w, pending, attempt, retryMax, o, result, ok);
  }

  lemma RestIsShorter<E>(w: World<E>, pending: seq<E>, attempt: nat, retryMax: nat, o: Attempt)
    ensures
      var next := OneAttempt(w, pending, attempt, retryMax, o).1;
      next.Again? || next.Spill? ==> |next.rest| <= |pending|
  {
    PendingShrinks(w, pending, attempt, retryMax, o);
    var next := OneAttempt(w, pending, attempt, retryMax, o).1;
    if next.Again? || next.Spill? {
      SubsequenceBounds(next.rest, pending);
    }
  }

  /** A batch reported safe adds its length to `indexed` plus `failed`, its dead letters to `dlq`, and
      at most `retryMax` times its length to `retried`. */
  lemma SafeBatchIsCounted<E>(w: World<E>, events: seq<E>, retryMax: nat, script: seq<Attempt>, write: WriteOutcome)
    requires retryMax < |script|
    requires Trusted(events, 0, retryMax, script, OneItemEach)
    ensures
      var (w', ok) := IndexSafely(w, events, retryMax, script, write);
      var (t, t') := (w.tally, w'.tally);
      ok ==>
        && (t'.indexed - t.indexed) + (t'.failed - t.failed) == |events|
        && t'.dlq - t.dlq == |w'.dlq| - |w.dlq|
        && t'.failed - t.failed == t'.dlq - t.dlq + |Spooled(w'.files)| - |Spooled(w.files)|
        && t'.retried - t.retried <= retryMax * |events|
  {
    hide OneAttempt;
    AttemptsCount(w, events, 0, retryMax, script);
    RetriedIsBounded(w, events, 0, retryMax, script);
    FilesWaitForTheSpill(w, events, 0, retryMax, script);
    var (w1, next) := Attempts(w, events, 0, retryMax, script);
    if next.Spill? {
      var (w', ok) := SpillAll(w1, next.rest, write);
      if ok && next.rest != [] {
        assert w'.files[..|w'.files| - 1] == w1.files;
      }
    }
  }

  lemma {:induction false} FilesWaitForTheSpill<E>(w: World<E>, pending: seq<E>, attempt: nat, retryMax: nat,
      script: seq<Attempt>)
    requires attempt <= retryMax < |script|
    ensures Attempts(w, pending, attempt, retryMax, script).0.files == w.files
    decreases retryMax - attempt
  {
    hide OneAttempt;
    OneAttemptShape(w, pending, attempt, retryMax, script[attempt]);
    var (w1, next) := OneAttempt(w, pending, attempt, retryMax, script[attempt]);
    if next.Again? {
      FilesWaitForTheSpill(w1, next.rest, attempt + 1, retryMax, script);
    }
  }

  // ---- Back-off and waiting ----

  function Min(a: int, b: int): int {
    if a < b then a else b
  }

  /** The back-off as meant: 200 ms doubled each time, capped. */
  function Doubling(attempt: nat): int {
    Min(200 * MILLISECOND * Pow2(attempt), MAX_BACKOFF)
  }

  lemma {:induction false} Pow2Grows(a: nat, b: nat)
    requires a <= b
    ensures 1 <= Pow2(a) <= Pow2(b)
    decreases b
  {
    if b > 0 && a < b {
      Pow2Grows(a, b - 1);
    } else if a > 0 {
      Pow2Grows(a - 1, b - 1);
    }
  }

  lemma {:induction false} Pow2Adds(a: nat, b: nat)
    ensures Pow2(a + b) == Pow2(a) * Pow2(b)
    decreases b
  {
    if b > 0 {
      Pow2Adds(a, b - 1);
      DoubleProduct(Pow2(a), Pow2(b - 1));
    }
  }

  lemma DoubleProduct(x: nat, y: nat)
    ensures x * (2 * y) == 2 * (x * y)
  {
  }

  lemma Pow2Values()
    ensures Pow2(10) == 1024 && Pow2(20) == 0x10_0000 && Pow2(30) == 0x4000_0000 && Pow2(35) == 0x8_0000_0000
  {
    SmallPowers();
    Pow2Adds(5, 5);
    Pow2Adds(10, 10);
    Pow2Adds(20, 10);
    Pow2Adds(30, 5);
  }

  /** Up to attempt 35 nothing overflows. */
  lemma BackoffIsDoubling(attempt: nat)
    requires attempt <= 35
    ensures Backoff(attempt) == Doubling(attempt)
  {
    Pow2Values();
    Pow2Grows(attempt, 35);
    BackoffOf(attempt, Pow2(attempt));
  }

  lemma BackoffOf(attempt: nat, p: int)
    requires attempt < 64 && p == Pow2(attempt) && 0 < p <= 0x8_0000_0000
    ensures Backoff(attempt) == Min(200 * MILLISECOND * p, MAX_BACKOFF)
  {
  }

  /** The attempts whose back-off is as meant. From 36 on the 64-bit product wraps round: where the
      result is negative or zero there is no wait at all, where it is positive it is capped. */
  predicate WaitsAsMeant(attempt: nat) {
    attempt <= 35 || attempt in {37, 43, 45, 50, 51, 52, 53}
  }

  lemma BackoffExactly(attempt: nat)
    ensures Backoff(attempt) == Doubling(attempt) <==> WaitsAsMeant(attempt)
    ensures !WaitsAsMeant(attempt) ==> Backoff(attempt) <= 0
  {
    if attempt <= 35 {
      BackoffIsDoubling(attempt);
    } else {
      Pow2Values();
      Pow2Grows(36, attempt);
      assert Pow2(36) == 2 * Pow2(35);
      assert Doubling(attempt) == MAX_BACKOFF;
      if attempt >= 64 {
        assert ShiftOne(attempt) == 0;
      } else {
        LargeAttempts(attempt);
      }
    }
  }

  const TWO_64 := 0x1_0000_0000_0000_0000

  /** The product modulo 2^64 for attempts 36 to 63. */
  const PRODUCTS: seq<int> := [
    0xbebc200000000000, 0x7d78400000000000, 0xfaf0800000000000, 0xf5e1000000000000,
    0xebc2000000000000, 0xd784000000000000, 0xaf08000000000000, 0x5e10000000000000,
    0xbc20000000000000, 0x7840000000000000, 0xf080000000000000, 0xe100000000000000,
    0xc200000000000000, 0x8400000000000000, 0x800000000000000, 0x1000000000000000,
    0x2000000000000000, 0x4000000000000000, 0x8000000000000000, 0,
    0, 0, 0, 0,
    0, 0, 0, 0]

  lemma LargeAttempts(attempt: nat)
    requires 36 <= attempt < 64
    ensures if attempt in {37, 43, 45, 50, 51, 52, 53} then Backoff(attempt) == MAX_BACKOFF else Backoff(attempt) <= 0
  {
    ProductModulo(attempt);
    ProductTable(attempt);
    var product := Pow2(attempt) * (200 * MILLISECOND);
    WrapOfRemainder(product);
    ShiftedProduct(attempt);
  }

  lemma ProductTable(attempt: nat)
    requires 36 <= attempt < 64
    ensures
      var p := PRODUCTS[attempt - 36];
      if attempt in {37, 43, 45, 50, 51, 52, 53} then MAX_BACKOFF < p < 0x8000_0000_0000_0000
      else p == 0 || 0x8000_0000_0000_0000 <= p < TWO_64
  {
  }

  /** Wrapping the shift before multiplying makes no difference. */
  lemma ShiftedProduct(attempt: nat)
    requires attempt < 64
    ensures Wrap64(ShiftOne(attempt) * 200 * MILLISECOND) == Wrap64(Pow2(attempt) * (200 * MILLISECOND))
  {
    if attempt < 63 {
      PowerFits(attempt);
      Regroup(Pow2(attempt));
    } else {
      PowerFits(62);
      LastShift(Pow2(63));
    }
  }

  lemma Regroup(p: int)
    ensures p * 200 * MILLISECOND == p * (200 * MILLISECOND)
  {
  }

  lemma LastShift(p: int)
    requires p == 0x8000_0000_0000_0000
    ensures Wrap64(p) == -p
    ensures Wrap64(-p * 200 * MILLISECOND) == Wrap64(p * (200 * MILLISECOND))
  {
  }

  lemma WrapOfRemainder(n: int)
    ensures Wrap64(n) == (if n % TWO_64 < 0x8000_0000_0000_0000 then n % TWO_64 else n % TWO_64 - TWO_64)
  {
  }

  lemma PowerFits(attempt: nat)
    requires attempt < 63
    ensures Wrap64(Pow2(attempt)) == Pow2(attempt)
    ensures attempt == 62 ==> Pow2(attempt) == 0x4000_0000_0000_0000
  {
    Pow2Values();
    SmallPowers();
    assert Pow2(2) == 4;
    Pow2Adds(30, 30);
    Pow2Adds(60, 2);
    Pow2Grows(attempt, 62);
  }

  lemma {:induction false} ProductModulo(attempt: nat)
    requires 36 <= attempt < 64
    ensures Pow2(attempt) * (200 * MILLISECOND) % TWO_64 == PRODUCTS[attempt - 36]
  {
    if attempt == 36 {
      Pow2Values();
      assert Pow2(36) == 2 * Pow2(35);
    } else {
      ProductModulo(attempt - 1);
      DoubleModulo(Pow2(attempt - 1) * (200 * MILLISECOND), PRODUCTS[attempt - 37]);
    }
  }

  lemma DoubleModulo(n: int, r: int)
    requires n % TWO_64 == r
    ensures 2 * n % TWO_64 == if 2 * r < TWO_64 then 2 * r else 2 * r - TWO_64
  {
    var q := n / TWO_64;
    assert n == TWO_64 * q + r;
    if 2 * r < TWO_64 {
      assert 2 * n == TWO_64 * (2 * q) + 2 * r;
    } else {
      assert 2 * n == TWO_64 * (2 * q + 1) + (2 * r - TWO_64);
    }
  }

  lemma BackoffIsMonotone(a: nat, b: nat)
    requires a <= b <= 35
    ensures 0 < Backoff(a) <= Backoff(b) <= MAX_BACKOFF
  {
    BackoffIsDoubling(a);
    BackoffIsDoubling(b);
    Pow2Grows(a, b);
  }

  /** The wait asked for by a call that is never told when to come back. */
  function WaitBound(n: nat): int {
    if n <= 5 then 200 * MILLISECOND * (Pow2(n) - 1) else (6_200 + 5_000 * (n - 5)) * MILLISECOND
  }

  lemma WaitBoundStep(n: nat)
    requires n <= 35
    ensures WaitBound(n + 1) == WaitBound(n) + Backoff(n)
  {
    BackoffIsDoubling(n);
    SmallPowers();
    if n >= 5 {
      Pow2Grows(5, n);
    } else {
      Pow2Grows(n, 4);
      assert Pow2(n + 1) == 2 * Pow2(n);
    }
  }

  lemma SmallPowers()
    ensures Pow2(4) == 16 && Pow2(5) == 32
  {
  }

  ghost predicate NoRetryAfter(script: seq<Attempt>) {
    forall o | o in script :: o.reply.Reply? ==> o.reply.retryAfter <= 0
  }

  /** At most `retryMax + 1` requests and, without a Retry-After, at most `WaitBound(retryMax)`. */
  lemma {:induction false} WaitingIsBounded<E>(w: World<E>, pending: seq<E>, attempt: nat, retryMax: nat,
      script: seq<Attempt>)
    requires attempt <= retryMax < |script| && retryMax <= 36 && NoRetryAfter(script)
    ensures
      var w' := Attempts(w, pending, attempt, retryMax, script).0;
      w'.slept - w.slept <= WaitBound(retryMax) - WaitBound(attempt)
    decreases retryMax - attempt
  {
    var o := script[attempt];
    var (w1, next) := OneAttempt(w, pending, attempt, retryMax, o);
    assert o in script;
    SleepOfOneAttempt(w, pending, attempt, retryMax, o);
    if attempt < retryMax {
      WaitBoundStep(attempt);
      WaitBoundGrows(attempt + 1, retryMax);
      BackoffIsMonotone(attempt, attempt);
    }
    if next.Again? {
      WaitingIsBounded(w1, next.rest, attempt + 1, retryMax, script);
    }
  }

  lemma SleepOfOneAttempt<E>(w: World<E>, pending: seq<E>, attempt: nat, retryMax: nat, o: Attempt)
    requires o.reply.Reply? ==> o.reply.retryAfter <= 0
    ensures
      var w' := OneAttempt(w, pending, attempt, retryMax, o).0;
      w'.slept == w.slept || (attempt != retryMax && w'.slept == w.slept + Backoff(attempt))
  {
    var (result, ok) := BulkIndex(pending, o.reply);
    assert result.retryAfter <= 0;
    SleepOfSettle(w, pending, attempt, retryMax, o, result, ok);
  }

  lemma SleepOfSettle<E>(w: World<E>, pending: seq<E>, attempt: nat, retryMax: nat, o: Attempt,
      result: BulkResult<E>, ok: bool)
    requires result.retryAfter <= 0
    ensures
      var w' := Settle(w, pending, attempt, retryMax, o, result, ok).0;
      w'.slept == w.slept || (attempt != retryMax && w'.slept == w.slept + Backoff(attempt))
  {
  }

  lemma {:induction false} WaitBoundGrows(a: nat, b: nat)
    requires a <= b <= 36
    ensures WaitBound(a) <= WaitBound(b)
    decreases b
  {
    if a < b {
      WaitBoundStep(b - 1);
      BackoffIsMonotone(b - 1, b - 1);
      WaitBoundGrows(a, b - 1);
    }
  }
}
