/** How a call of indexSafely ends: exactly when it fails, when it needs the replay file, what it counts
    and how long it waits; told by what Elasticsearch, the dead-letter topic and the clock did. */
module Endings {
  import opened Bulk
  import opened Retry

  // ---- One attempt ----

  /** A dead letter of this attempt cannot be written. */
  predicate LetterFails<E>(pending: seq<E>, o: Attempt) {
    o.dlq.StopsAt? && o.dlq.k < |BulkIndex(pending, o.reply).0.permanent|
  }

  /** What is still pending after a bulk call: the retryable events; all of them, after an error that
      names none; and nothing otherwise. */
  function LeftAfter<E>(pending: seq<E>, reply: Reply): seq<E> {
    var (result, ok) := BulkIndex(pending, reply);
    if result.retryable != [] then result.retryable else if ok then [] else pending
  }

  lemma NextIs<E>(w: World<E>, pending: seq<E>, attempt: nat, retryMax: nat, o: Attempt)
    ensures
      var next, left := OneAttempt(w, pending, attempt, retryMax, o).1, LeftAfter(pending, o.reply);
      && (LetterFails(pending, o) ==> next == Failed)
      && (!LetterFails(pending, o) && left == [] ==> next == Finished)
      && (!LetterFails(pending, o) && left != [] && attempt == retryMax ==> next == Spill(left))
      && (!LetterFails(pending, o) && left != [] && attempt != retryMax ==>
          next == if o.cancelled then Failed else Again(left))
  {
    hide BulkIndex;
  }

  /** What one attempt counts and waits. A wait is as long as Elasticsearch asked, if it asked, and the
      back-off otherwise; only what is tried again is counted as retried. */
  lemma AttemptCountsAndWaits<E>(w: World<E>, pending: seq<E>, attempt: nat, retryMax: nat, o: Attempt)
    ensures
      var (w', next) := OneAttempt(w, pending, attempt, retryMax, o);
      var (result, ok) := BulkIndex(pending, o.reply);
      var t, t' := w.tally, w'.tally;
      && t'.indexed == t.indexed + result.indexed && t'.esFailures == t.esFailures + (if ok then 0 else 1)
      && t'.consumed == t.consumed && t'.replayed == t.replayed && t'.currentBatch == t.currentBatch
      && t'.dlq - t.dlq == t'.failed - t.failed == (if LetterFails(pending, o) then 0 else |result.permanent|)
      && (next.Again? ==>
            && t'.retried == t.retried + |next.rest|
            && w'.slept == w.slept + if result.retryAfter > 0 then result.retryAfter else Backoff(attempt))
      && (next.Finished? || next.Spill? ==> t'.retried == t.retried && w'.slept == w.slept)
  {
    hide BulkIndex;
  }

  /** The waits in nanoseconds: 200 ms, doubled up to 3.2 s, then 5 s as long as nothing overflows. */
  lemma BackoffInNanoseconds(attempt: nat)
    ensures Backoff(0) == 200_000_000 && Backoff(1) == 400_000_000 && Backoff(2) == 800_000_000
    ensures Backoff(3) == 1_600_000_000 && Backoff(4) == 3_200_000_000
    ensures 5 <= attempt <= 35 ==> Backoff(attempt) == 5_000_000_000
  {
    BackoffIsDoubling(0);
    BackoffIsDoubling(1);
    BackoffIsDoubling(2);
    BackoffIsDoubling(3);
    BackoffIsDoubling(4);
    if 5 <= attempt <= 35 {
      BackoffIsDoubling(attempt);
      Pow2Grows(5, attempt);
    }
  }

  // ---- The call ----

  /** What is pending at attempt `i`, if the call comes so far. */
  function PendingAt<E>(pending: seq<E>, from: nat, script: seq<Attempt>, i: nat): seq<E>
    requires from <= i <= |script|
  {
    if i == from then pending else LeftAfter(PendingAt(pending, from, script, i - 1), script[i - 1].reply)
  }

  /** Attempt `i` leaves something pending, and nothing stops the next one. */
  predicate GoesOn<E>(pending: seq<E>, from: nat, script: seq<Attempt>, i: nat)
    requires from <= i < |script|
  {
    var p := PendingAt(pending, from, script, i);
    !LetterFails(p, script[i]) && LeftAfter(p, script[i].reply) != [] && !script[i].cancelled
  }

  /** Attempt `i` makes the call fail: a dead letter fails; or something is left, and the wait is
      cancelled or, after the last attempt, the replay file cannot be written. */
  predicate BreaksAt<E>(pending: seq<E>, from: nat, retryMax: nat, script: seq<Attempt>, write: WriteOutcome, i: nat)
    requires from <= i < |script|
  {
    var p := PendingAt(pending, from, script, i);
    || LetterFails(p, script[i])
    || (LeftAfter(p, script[i].reply) != [] && if i < retryMax then script[i].cancelled else write.WriteFailed?)
  }

  /** And the call comes to that attempt. */
  predicate FailsAt<E>(pending: seq<E>, from: nat, retryMax: nat, script: seq<Attempt>, write: WriteOutcome, i: nat)
    requires from <= i < |script|
  {
    BreaksAt(pending, from, retryMax, script, write, i) && forall j | from <= j < i :: GoesOn(pending, from, script, j)
  }

  predicate Fails<E>(pending: seq<E>, from: nat, retryMax: nat, script: seq<Attempt>, write: WriteOutcome)
    requires from <= retryMax < |script|
  {
    exists i | from <= i <= retryMax :: FailsAt(pending, from, retryMax, script, write, i)
  }

  lemma {:induction false} PendingShifts<E>(pending: seq<E>, from: nat, script: seq<Attempt>, i: nat)
    requires from < i <= |script|
    ensures PendingAt(pending, from, script, i) ==
        PendingAt(LeftAfter(pending, script[from].reply), from + 1, script, i)
    decreases i
  {
    hide LeftAfter;
    if i > from + 1 {
      PendingShifts(pending, from, script, i - 1);
    }
  }

  /** The call fails exactly when, in the attempts it makes, a dead letter fails, a wait is cancelled, or
      the last attempt leaves events pending and the replay file cannot be written. */
  lemma FailsExactly<E>(w: World<E>, events: seq<E>, retryMax: nat, script: seq<Attempt>, write: WriteOutcome)
    requires retryMax < |script|
    ensures !IndexSafely(w, events, retryMax, script, write).1 <==> Fails(events, 0, retryMax, script, write)
  {
    hide Attempts, Fails;
    EndsExactly(w, events, 0, retryMax, script, write);
  }

  lemma {:induction false} EndsExactly<E>(
    w: World<E>, pending: seq<E>, attempt: nat, retryMax: nat, script: seq<Attempt>, write: WriteOutcome)
    requires attempt <= retryMax < |script|
    ensures
      var next := Attempts(w, pending, attempt, retryMax, script).1;
      && (next.Spill? ==> next.rest != [])
      && (Fails(pending, attempt, retryMax, script, write) <==> next == Failed || (next.Spill? && write.WriteFailed?))
    decreases retryMax - attempt
  {
    hide OneAttempt, LeftAfter, LetterFails;
    var o := script[attempt];
    NextIs(w, pending, attempt, retryMax, o);
    var (w1, next) := OneAttempt(w, pending, attempt, retryMax, o);
    if next.Again? {
      EndsExactly(w1, next.rest, attempt + 1, retryMax, script, write);
      FailsLater(pending, attempt, retryMax, script, write);
    } else {
      FailsHere(pending, attempt, retryMax, script, write);
    }
  }

  lemma SameLater<E>(pending: seq<E>, from: nat, retryMax: nat, script: seq<Attempt>, write: WriteOutcome, i: nat)
    requires from < i < |script|
    ensures
      var left := LeftAfter(pending, script[from].reply);
      && BreaksAt(pending, from, retryMax, script, write, i) == BreaksAt(left, from + 1, retryMax, script, write, i)
      && GoesOn(pending, from, script, i) == GoesOn(left, from + 1, script, i)
  {
    hide LeftAfter, LetterFails;
    PendingShifts(pending, from, script, i);
  }

  lemma FailsAtLater<E>(pending: seq<E>, from: nat, retryMax: nat, script: seq<Attempt>, write: WriteOutcome, i: nat)
    requires from < i < |script| && GoesOn(pending, from, script, from)
    ensures
      var left := LeftAfter(pending, script[from].reply);
      FailsAt(pending, from, retryMax, script, write, i) == FailsAt(left, from + 1, retryMax, script, write, i)
  {
    hide LeftAfter, BreaksAt, GoesOn;
    var left, next := LeftAfter(pending, script[from].reply), from + 1;
    SameLater(pending, from, retryMax, script, write, i);
    forall j | from < j < i ensures GoesOn(pending, from, script, j) == GoesOn(left, next, script, j) {
      SameLater(pending, from, retryMax, script, write, j);
    }
    if FailsAt(left, next, retryMax, script, write, i) {
      forall j | from <= j < i ensures GoesOn(pending, from, script, j) {
        if j > from {
          assert GoesOn(left, next, script, j);
        }
      }
    }
    if FailsAt(pending, from, retryMax, script, write, i) {
      forall j | from < j < i ensures GoesOn(left, next, script, j) {
        assert GoesOn(pending, from, script, j);
      }
    }
  }

  /** When the first attempt goes on, the call fails exactly when it fails from the second on. */
  lemma FailsLater<E>(pending: seq<E>, from: nat, retryMax: nat, script: seq<Attempt>, write: WriteOutcome)
    requires from < retryMax < |script| && GoesOn(pending, from, script, from)
    ensures Fails(pending, from, retryMax, script, write) <==>
            Fails(LeftAfter(pending, script[from].reply), from + 1, retryMax, script, write)
  {
    GoesOnOrBreaks(pending, from, retryMax, script, write);
    var left := LeftAfter(pending, script[from].reply);
    if Fails(pending, from, retryMax, script, write) {
      var i :| from <= i <= retryMax && FailsAt(pending, from, retryMax, script, write, i);
      FailsAtLater(pending, from, retryMax, script, write, i);
    }
    if Fails(left, from + 1, retryMax, script, write) {
      var i :| from + 1 <= i <= retryMax && FailsAt(left, from + 1, retryMax, script, write, i);
      FailsAtLater(pending, from, retryMax, script, write, i);
    }
  }

  lemma GoesOnOrBreaks<E>(pending: seq<E>, from: nat, retryMax: nat, script: seq<Attempt>, write: WriteOutcome)
    requires from < retryMax < |script| && GoesOn(pending, from, script, from)
    ensures !BreaksAt(pending, from, retryMax, script, write, from)
  {
  }

  lemma FailsHere<E>(pending: seq<E>, from: nat, retryMax: nat, script: seq<Attempt>, write: WriteOutcome)
    requires from <= retryMax < |script| && (GoesOn(pending, from, script, from) ==> from == retryMax)
    ensures Fails(pending, from, retryMax, script, write) <==> BreaksAt(pending, from, retryMax, script, write, from)
  {
    hide BreaksAt, GoesOn;
    assert FailsAt(pending, from, retryMax, script, write, from) ==
        BreaksAt(pending, from, retryMax, script, write, from);
  }

  // ---- Two outcomes ----

  /** Nothing answers, and nothing cuts a wait short. */
  predicate Unanswered(script: seq<Attempt>, retryMax: nat)
    requires retryMax < |script|
  {
    forall i | 0 <= i <= retryMax :: script[i].reply.NoReply? && !script[i].cancelled
  }

  /** With Elasticsearch out of reach a call makes all its attempts, counts each as a failure of
      Elasticsearch and each wait as a retry of every event, and ends with all events in a replay file,
      counted as failed. */
  lemma UnreachableElasticsearch<E>(w: World<E>, events: seq<E>, retryMax: nat, script: seq<Attempt>)
    requires events != [] && retryMax < |script|
    requires forall i | 0 <= i <= retryMax :: script[i].reply.NoReply? && !script[i].cancelled
    ensures
      var (w', ok) := IndexSafely(w, events, retryMax, script, Written);
      var t := w.tally;
      && ok && w'.calls == w.calls + retryMax + 1 && w'.dlq == w.dlq
      && w'.files == w.files + [File(events)]
      && w'.tally == t.(esFailures := t.esFailures + retryMax + 1, retried := t.retried + retryMax * |events|,
                        failed := t.failed + |events|)
  {
    hide Attempts;
    NothingAnswers(w, events, 0, retryMax, script);
  }

  lemma {:induction false} NothingAnswers<E>(w: World<E>, events: seq<E>, attempt: nat, retryMax: nat,
      script: seq<Attempt>)
    requires events != [] && attempt <= retryMax < |script| && Unanswered(script, retryMax)
    ensures
      var (w', next) := Attempts(w, events, attempt, retryMax, script);
      var t, n := w.tally, retryMax - attempt;
      && next == Spill(events) && w'.calls == w.calls + n + 1 && w'.dlq == w.dlq && w'.files == w.files
      && w'.tally == t.(esFailures := t.esFailures + n + 1, retried := t.retried + n * |events|)
    decreases retryMax - attempt
  {
    hide OneAttempt;
    var (w1, next) := OneAttempt(w, events, attempt, retryMax, script[attempt]);
    NoAnswer(w, events, attempt, retryMax, script[attempt]);
    if attempt < retryMax {
      NothingAnswers(w1, events, attempt + 1, retryMax, script);
      assert (retryMax - attempt) * |events| == |events| + (retryMax - attempt - 1) * |events|;
    }
  }

  lemma NoAnswer<E>(w: World<E>, events: seq<E>, attempt: nat, retryMax: nat, o: Attempt)
    requires events != [] && o.reply.NoReply? && !o.cancelled
    ensures
      var (w', next) := OneAttempt(w, events, attempt, retryMax, o);
      var t, waits := w.tally, attempt != retryMax;
      && next == (if waits then Again(events) else Spill(events))
      && w'.calls == w.calls + 1 && w'.dlq == w.dlq && w'.files == w.files
      && w'.tally == t.(esFailures := t.esFailures + 1, retried := t.retried + if waits then |events| else 0)
  {
    assert Events<E>([]) == [];
  }

  /** Elasticsearch says of every event that it is stored, and it is. */
  predicate Accepts(o: Attempt, n: nat) {
    && o.reply.Reply? && o.reply.status < 400 && o.reply.body.Items? && |o.reply.body.items| == n == |o.stored|
    && forall i | 0 <= i < n :: o.reply.body.items[i].Item? && 200 <= o.reply.body.items[i].status <= 299 && o.stored[i]
  }

  lemma {:induction false} AllPicked<E>(xs: seq<E>, mask: seq<bool>)
    requires |xs| <= |mask| && forall i | 0 <= i < |xs| :: mask[i]
    ensures Pick(xs, mask) == xs
  {
    if xs != [] {
      AllPicked(xs[..|xs| - 1], mask);
    }
  }

  lemma {:induction false} NonePicked<E>(xs: seq<E>, mask: seq<bool>)
    requires forall i | 0 <= i < |mask| :: !mask[i]
    ensures Pick(xs, mask) == []
  {
    if xs != [] {
      NonePicked(xs[..|xs| - 1], mask);
    }
  }

  /** Then nothing is left to do, and every event is in Elasticsearch. */
  lemma AcceptedAtOnce<E>(w: World<E>, pending: seq<E>, attempt: nat, retryMax: nat, o: Attempt)
    requires Accepts(o, |pending|)
    ensures
      var (w', next) := OneAttempt(w, pending, attempt, retryMax, o);
      && next == Finished && w'.es == w.es + multiset(pending) && w'.dlq == w.dlq && w'.files == w.files
      && BulkIndex(pending, o.reply).0.permanent == []
  {
    hide Pick;
    var items := o.reply.body.items;
    AllPicked(pending, o.stored);
    NonePicked(pending, Mask(items, Retryable));
    NonePicked(Failures(pending, items), Mask(items, Permanent));
    assert Events<E>([]) == [];
  }

  /** At the first attempt that does not go on, or at the last, the call fails exactly when that breaks. */
  lemma Decided<E>(pending: seq<E>, retryMax: nat, script: seq<Attempt>, write: WriteOutcome, i: nat)
    requires i <= retryMax < |script| && (forall j | 0 <= j < i :: GoesOn(pending, 0, script, j))
    requires GoesOn(pending, 0, script, i) ==> i == retryMax
    ensures Fails(pending, 0, retryMax, script, write) <==> BreaksAt(pending, 0, retryMax, script, write, i)
  {
    hide LeftAfter, LetterFails;
    forall j | 0 <= j < i ensures !BreaksAt(pending, 0, retryMax, script, write, j) {
      assert GoesOn(pending, 0, script, j);
    }
    hide BreaksAt, GoesOn;
    assert FailsAt(pending, 0, retryMax, script, write, i) == BreaksAt(pending, 0, retryMax, script, write, i);
  }
}
