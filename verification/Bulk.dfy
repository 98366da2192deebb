/** internal/storage: one bulk request to Elasticsearch and the sorting of its response, item by
    item, into indexed, retryable and permanently failed documents. */
module Bulk {
  import opened Text
  import opened Logline
  import opened Codec

  // ---- Selecting positions of a list ----

  /** The elements of `xs` at the positions that `mask` marks, in order. */
  function Pick<E>(xs: seq<E>, mask: seq<bool>): (r: seq<E>)
    ensures |r| <= |xs|
  {
    if xs == [] then []
    else
      var n := |xs| - 1;
      Pick(xs[..n], mask) + (if n < |mask| && mask[n] then [xs[n]] else [])
  }

  lemma MultisetLast<E>(xs: seq<E>)
    requires xs != []
    ensures multiset(xs) == multiset(xs[..|xs| - 1]) + multiset{xs[|xs| - 1]}
  {
    assert xs == xs[..|xs| - 1] + [xs[|xs| - 1]];
  }

  lemma PickLast<E>(xs: seq<E>, mask: seq<bool>)
    requires 0 < |xs| <= |mask|
    ensures
      var n := |xs| - 1;
      && |Pick(xs, mask)| == |Pick(xs[..n], mask)| + (if mask[n] then 1 else 0)
      && multiset(Pick(xs, mask)) == multiset(Pick(xs[..n], mask)) + (if mask[n] then multiset{xs[n]} else multiset{})
  {
  }

  /** `small` is `large` with some elements left out, the others in the same order. */
  predicate Subsequence<E(==)>(small: seq<E>, large: seq<E>) {
    if small == [] then true
    else if large == [] then false
    else
      var s, l := |small| - 1, |large| - 1;
      (small[s] == large[l] && Subsequence(small[..s], large[..l])) || Subsequence(small, large[..l])
  }

  lemma {:induction false} PickIsSubsequence<E>(xs: seq<E>, mask: seq<bool>)
    ensures Subsequence(Pick(xs, mask), xs)
  {
    if xs != [] {
      var n := |xs| - 1;
      PickIsSubsequence(xs[..n], mask);
      var r := Pick(xs, mask);
      if n < |mask| && mask[n] {
        assert r[..|r| - 1] == Pick(xs[..n], mask);
      } else {
        assert r == Pick(xs[..n], mask);
      }
    }
  }

  lemma {:induction false} SubsequenceIsTransitive<E>(a: seq<E>, b: seq<E>, c: seq<E>)
    requires Subsequence(a, b) && Subsequence(b, c)
    ensures Subsequence(a, c)
    decreases |b| + |c|
  {
    if a != [] && b != [] {
      var i, j, k := |a| - 1, |b| - 1, |c| - 1;
      if b[j] == c[k] && Subsequence(b[..j], c[..k]) {
        if a[i] == b[j] && Subsequence(a[..i], b[..j]) {
          SubsequenceIsTransitive(a[..i], b[..j], c[..k]);
        } else {
          SubsequenceIsTransitive(a, b[..j], c[..k]);
        }
      } else {
        SubsequenceIsTransitive(a, b, c[..k]);
      }
    }
  }

  lemma {:induction false} SubsequenceBounds<E>(a: seq<E>, b: seq<E>)
    requires Subsequence(a, b)
    ensures |a| <= |b| && multiset(a) <= multiset(b)
  {
    if a != [] {
      var i, j := |a| - 1, |b| - 1;
      assert a == a[..i] + [a[i]] && b == b[..j] + [b[j]];
      if a[i] == b[j] && Subsequence(a[..i], b[..j]) {
        SubsequenceBounds(a[..i], b[..j]);
      } else {
        SubsequenceBounds(a, b[..j]);
      }
    }
  }

  // ---- The response ----

  /** One response item; `Missing` is an item object with no member. */
  datatype Item = Item(status: int, reason: string, kind: string) | Missing

  function StatusReason(item: Item): (int, string) {
    match item
    case Item(status, reason, kind) => (status, if reason == "" then kind else reason)
    case Missing => (0, "missing bulk item result")
  }

  datatype Class = Indexed | Retryable | Permanent

  function ClassOf(item: Item): Class {
    var status := StatusReason(item).0;
    if 200 <= status < 300 then Indexed
    else if status == 429 || status >= 500 then Retryable
    else Permanent
  }

  /** The positions of the items of one class. */
  function Mask(items: seq<Item>, c: Class): seq<bool> {
    seq(|items|, i requires 0 <= i < |items| => ClassOf(items[i]) == c)
  }

  datatype Body = Unreadable | Malformed | Items(items: seq<Item>)

  /** What comes back from the server: nothing (the request could not be built, sent or answered), or
      an HTTP status with a Retry-After value (nanoseconds, 0 when absent) and a body. */
  datatype Reply = NoReply | Reply(status: int, retryAfter: int, body: Body)

  datatype Failure<+E> = Failure(event: E, status: int, reason: string)

  datatype BulkResult<+E> = BulkResult(indexed: nat, permanent: seq<Failure<E>>, retryable: seq<E>, retryAfter: int)

  function Nothing<E>(): BulkResult<E> {
    BulkResult(0, [], [], 0)
  }

  /** The failure that each position would give, were its item permanent. */
  function Failures<E>(events: seq<E>, items: seq<Item>): (fs: seq<Failure<E>>)
    ensures |fs| == if |items| < |events| then |items| else |events|
    ensures forall i | 0 <= i < |fs| ::
              fs[i].event == events[i] && fs[i].status == StatusReason(items[i]).0
              && fs[i].reason == StatusReason(items[i]).1
  {
    var n := if |items| < |events| then |items| else |events|;
    seq(n, i requires 0 <= i < n => Failure(events[i], StatusReason(items[i]).0, StatusReason(items[i]).1))
  }

  function Count(mask: seq<bool>): (n: nat)
    ensures n <= |mask|
  {
    if mask == [] then 0 else Count(mask[..|mask| - 1]) + (if mask[|mask| - 1] then 1 else 0)
  }

  /** The result for a response whose items were read. */
  function Sorted<E>(events: seq<E>, items: seq<Item>): BulkResult<E> {
    BulkResult(Count(Mask(items, Indexed)),
               Pick(Failures(events, items), Mask(items, Permanent)),
               Pick(events, Mask(items, Retryable)), 0)
  }

  /** The result of a bulk call and whether it returned without error. */
  function BulkIndex<E>(events: seq<E>, reply: Reply): (BulkResult<E>, bool) {
    if events == [] then (Nothing(), true)
    else if reply.NoReply? then (Nothing(), false)
    else if reply.status == 429 || reply.status >= 500 then
      (BulkResult(0, [], events, reply.retryAfter), false)
    else if reply.status >= 400 || !reply.body.Items? then (Nothing(), false)
    else (Sorted(events, reply.body.items), true)
  }

  lemma MaskStep(items: seq<Item>, i: nat, c: Class)
    requires i < |items|
    ensures Mask(items[..i + 1], c) == Mask(items[..i], c) + [ClassOf(items[i]) == c]
  {
  }

  /** Positions beyond the mask are not picked, so a longer list picks the same. */
  lemma {:induction false} PickOfPrefix<E>(xs: seq<E>, mask: seq<bool>, n: nat)
    requires |mask| <= n <= |xs|
    ensures Pick(xs[..n], mask) == Pick(xs, mask)
  {
    if n == |xs| {
      assert xs[..n] == xs;
    } else {
      PickOfPrefix(xs[..|xs| - 1], mask, n);
      assert xs[..|xs| - 1][..n] == xs[..n];
    }
  }

  /** One more mark at the end of the mask. */
  lemma PickOneMore<E>(xs: seq<E>, mask: seq<bool>, b: bool)
    ensures Pick(xs, mask + [b]) == Pick(xs, mask) + (if b && |mask| < |xs| then [xs[|mask|]] else [])
  {
    if |mask| < |xs| {
      PickInside(xs, mask, b);
    } else {
      PickIgnoresMarks(xs, mask, [b]);
    }
  }

  lemma PickInside<E>(xs: seq<E>, mask: seq<bool>, b: bool)
    requires |mask| < |xs|
    ensures Pick(xs, mask + [b]) == Pick(xs, mask) + (if b then [xs[|mask|]] else [])
  {
    var n, longer := |mask|, mask + [b];
    var ys, zs := xs[..n + 1], xs[..n];
    PickIgnoresMarks(zs, mask, [b]);
    PickStep(ys, longer);
    assert ys[..n] == zs && ys[n] == xs[n] && longer[n] == b;
    assert Pick(xs, longer) == Pick(ys, longer) by { PickOfPrefix(xs, longer, n + 1); }
    assert Pick(xs, mask) == Pick(zs, mask) by { PickOfPrefix(xs, mask, n); }
  }

  lemma PickStep<E>(xs: seq<E>, mask: seq<bool>)
    requires xs != []
    ensures
      var n := |xs| - 1;
      Pick(xs, mask) == Pick(xs[..n], mask) + (if n < |mask| && mask[n] then [xs[n]] else [])
  {
  }

  lemma {:induction false} PickIgnoresMarks<E>(xs: seq<E>, mask: seq<bool>, more: seq<bool>)
    requires |xs| <= |mask|
    ensures Pick(xs, mask + more) == Pick(xs, mask)
  {
    if xs != [] {
      PickIgnoresMarks(xs[..|xs| - 1], mask, more);
    }
  }

  /** `Elasticsearch.BulkIndex`, the response loop included. */
  method Index<E>(events: seq<E>, reply: Reply) returns (result: BulkResult<E>, ok: bool)
    ensures (result, ok) == BulkIndex(events, reply)
    ensures events == [] ==> ok && result == BulkResult(0, [], [], 0)
    ensures events != [] && reply.NoReply? ==> !ok && result == BulkResult(0, [], [], 0)
    ensures events != [] && reply.Reply? && (reply.status == 429 || reply.status >= 500) ==>
              !ok && result == BulkResult(0, [], events, reply.retryAfter)
    ensures events != [] && reply.Reply? && 400 <= reply.status < 500 && reply.status != 429 ==>
              !ok && result == BulkResult(0, [], [], 0)
    ensures events != [] && reply.Reply? && reply.status < 400 && !reply.body.Items? ==>
              !ok && result == BulkResult(0, [], [], 0)
    ensures events != [] && reply.Reply? && reply.status < 400 && reply.body.Items? ==>
              ok && result == Sorted(events, reply.body.items)
  {
    if events == [] {
      return Nothing(), true;
    }
    if reply.NoReply? {
      return Nothing(), false;
    }
    if reply.status == 429 || reply.status >= 500 {
      return BulkResult(0, [], events, reply.retryAfter), false;
    }
    if reply.status >= 400 || !reply.body.Items? {
      return Nothing(), false;
    }
    result := SortItems(events, reply.body.items);
    ok := true;
  }

  /** The response loop: the classes of the items read so far, position by position. */
  method SortItems<E>(events: seq<E>, items: seq<Item>) returns (result: BulkResult<E>)
    ensures result == Sorted(events, items)
  {
    var indexed: nat, retryable: seq<E>, permanent: seq<Failure<E>> := 0, [], [];
    PickNothing(events);
    PickNothing(Failures(events, items));
    for i := 0 to |items|
      invariant BulkResult(indexed, permanent, retryable, 0) == SoFar(events, items, i)
    {
      OneMoreItem(events, items, i);
      var (status, reason) := StatusReason(items[i]);
      if 200 <= status < 300 {
        indexed := indexed + 1;
      } else if i < |events| {
        if status == 429 || status >= 500 {
          retryable := retryable + [events[i]];
        } else {
          permanent := permanent + [Failure(events[i], status, reason)];
        }
      }
    }
    assert items[..|items|] == items;
    result := BulkResult(indexed, permanent, retryable, 0);
  }

  /** The result after the first `i` items. */
  ghost function SoFar<E>(events: seq<E>, items: seq<Item>, i: nat): BulkResult<E>
    requires i <= |items|
  {
    BulkResult(Count(Mask(items[..i], Indexed)),
               Pick(Failures(events, items), Mask(items[..i], Permanent)),
               Pick(events, Mask(items[..i], Retryable)), 0)
  }

  /** What item `i` adds to each class. */
  lemma OneMoreItem<E>(events: seq<E>, items: seq<Item>, i: nat)
    requires i < |items|
    ensures
      var c, before, after := ClassOf(items[i]), SoFar(events, items, i), SoFar(events, items, i + 1);
      var (status, reason) := StatusReason(items[i]);
      && after.indexed == before.indexed + (if c == Indexed then 1 else 0)
      && after.retryable == before.retryable + (if c == Retryable && i < |events| then [events[i]] else [])
      && after.permanent == before.permanent
         + (if c == Permanent && i < |events| then [Failure(events[i], status, reason)] else [])
  {
    MaskStep(items, i, Indexed);
    MaskStep(items, i, Retryable);
    MaskStep(items, i, Permanent);
    var indexed := Mask(items[..i], Indexed);
    var more := indexed + [ClassOf(items[i]) == Indexed];
    assert more[..|more| - 1] == indexed;
    PickOneMore(events, Mask(items[..i], Retryable), ClassOf(items[i]) == Retryable);
    PickOneMore(Failures(events, items), Mask(items[..i], Permanent), ClassOf(items[i]) == Permanent);
  }

  lemma {:induction false} PickNothing<E>(xs: seq<E>)
    ensures Pick(xs, []) == []
  {
    if xs != [] {
      PickNothing(xs[..|xs| - 1]);
    }
  }

  // ---- The classification in status numbers ----

  /** The effect of one more item. A 2xx status is counted, whether or not there is an event for it; 429
      and 500 upwards put its event at the end of the retryable ones; anything else makes its event the
      last permanent failure, with the item's status and its reason or, for want of one, its kind; an
      item without a result counts as status 0. */
  lemma OneItemAtATime<E>(events: seq<E>, items: seq<Item>, i: nat)
    requires i < |items|
    ensures
      var item, before, after := items[i], Sorted(events, items[..i]), Sorted(events, items[..i + 1]);
      && (item.Item? && 200 <= item.status <= 299 ==> after == before.(indexed := before.indexed + 1))
      && (i >= |events| && !(item.Item? && 200 <= item.status <= 299) ==> after == before)
      && (i < |events| && item.Item? && (item.status == 429 || item.status >= 500) ==>
            after == before.(retryable := before.retryable + [events[i]]))
      && (i < |events| && item.Item? && item.status < 500 && item.status != 429 && !(200 <= item.status <= 299) ==>
            var reason := if item.reason != "" then item.reason else item.kind;
            after == before.(permanent := before.permanent + [Failure(events[i], item.status, reason)]))
      && (i < |events| && item.Missing? ==>
            after == before.(permanent := before.permanent + [Failure(events[i], 0, "missing bulk item result")]))
  {
    OneMoreItem(events, items, i);
    SortedIsSoFar(events, items, i);
    SortedIsSoFar(events, items, i + 1);
  }

  lemma NoItems<E>(events: seq<E>)
    ensures Sorted(events, []) == BulkResult(0, [], [], 0)
  {
    PickNothing(events);
    PickNothing(Failures(events, []));
  }

  lemma SortedIsSoFar<E>(events: seq<E>, items: seq<Item>, i: nat)
    requires i <= |items|
    ensures Sorted(events, items[..i]) == SoFar(events, items, i)
  {
    var n := if i < |events| then i else |events|;
    var all, first := Failures(events, items), Failures(events, items[..i]);
    assert first == all[..n];
    if i <= |events| {
      PickOfPrefix(all, Mask(items[..i], Permanent), n);
    } else {
      assert all[..n] == all;
    }
  }

  /** No document that was throttled, refused for a server's fault or stored is ever a permanent failure. */
  lemma {:induction false} PermanentStatuses<E>(events: seq<E>, items: seq<Item>)
    ensures forall f | f in Sorted(events, items).permanent ::
              f.status != 429 && f.status < 500 && !(200 <= f.status <= 299)
    decreases |items|
  {
    hide Sorted;
    if items == [] {
      NoItems(events);
    } else {
      var n := |items| - 1;
      PermanentStatuses(events, items[..n]);
      OneItemAtATime(events, items, n);
      assert items[..n + 1] == items;
    }
  }

  /** How many of the first `i` items ask for a retry. */
  function RetriesBefore(items: seq<Item>, i: nat): nat
    requires i <= |items|
  {
    if i == 0 then 0
    else
      var item := items[i - 1];
      RetriesBefore(items, i - 1) + (if item.Item? && (item.status == 429 || item.status >= 500) then 1 else 0)
  }

  predicate AsksForRetry(item: Item) {
    item.Item? && (item.status == 429 || item.status >= 500)
  }

  /** Each event whose item says 429 or 500 upwards is retryable, at its place in the order, and there
      are no others. */
  lemma RetryableByStatus<E>(events: seq<E>, items: seq<Item>)
    ensures
      var retryable := Sorted(events, items).retryable;
      var n := if |items| < |events| then |items| else |events|;
      && |retryable| == RetriesBefore(items, n)
      && forall i | 0 <= i < n && items[i].Item? && (items[i].status == 429 || items[i].status >= 500) ::
           RetriesBefore(items, i) < |retryable| && retryable[RetriesBefore(items, i)] == events[i]
  {
    hide Sorted, RetriesBefore;
    var n := if |items| < |events| then |items| else |events|;
    HowMany(events, items);
    forall i | 0 <= i < n && AsksForRetry(items[i])
      ensures RetriesBefore(items, i) < |Sorted(events, items).retryable|
      ensures Sorted(events, items).retryable[RetriesBefore(items, i)] == events[i]
    {
      ItsPlace(events, items, i);
    }
  }

  lemma {:induction false} HowMany<E>(events: seq<E>, items: seq<Item>)
    ensures |Sorted(events, items).retryable| == RetriesBefore(items, if |items| < |events| then |items| else |events|)
    decreases |items|
  {
    hide Sorted;
    if items == [] {
      NoItems(events);
    } else {
      var last := |items| - 1;
      HowMany(events, items[..last]);
      OneItemAtATime(events, items, last);
      assert items[..last + 1] == items;
      RetriesOfPrefix(items, last, if last < |events| then last else |events|);
    }
  }

  lemma {:induction false} ItsPlace<E>(events: seq<E>, items: seq<Item>, i: nat)
    requires i < |events| && i < |items| && AsksForRetry(items[i])
    ensures
      var retryable := Sorted(events, items).retryable;
      RetriesBefore(items, i) < |retryable| && retryable[RetriesBefore(items, i)] == events[i]
    decreases |items|
  {
    hide Sorted;
    var last := |items| - 1;
    OneItemAtATime(events, items, last);
    assert items[..last + 1] == items;
    RetriesOfPrefix(items, last, i);
    if i == last {
      HowMany(events, items[..last]);
    } else {
      ItsPlace(events, items[..last], i);
    }
  }

  lemma {:induction false} RetriesOfPrefix(items: seq<Item>, n: nat, i: nat)
    requires i <= n <= |items|
    ensures RetriesBefore(items, i) == RetriesBefore(items[..n], i)
  {
    if i > 0 {
      RetriesOfPrefix(items, n, i - 1);
    }
  }

  // ---- The classification is a partition ----

  function Events<E>(fs: seq<Failure<E>>): (r: seq<E>)
    ensures |r| == |fs|
  {
    seq(|fs|, i requires 0 <= i < |fs| => fs[i].event)
  }

  /** The events of the permanent failures are the events at the permanent positions. */
  lemma {:induction false} EventsOfPicked<E>(fs: seq<Failure<E>>, xs: seq<E>, mask: seq<bool>)
    requires |fs| <= |xs| && forall i | 0 <= i < |fs| :: fs[i].event == xs[i]
    requires |mask| <= |fs| || |fs| == |xs|
    ensures Events(Pick(fs, mask)) == Pick(xs, mask)
  {
    if |fs| < |xs| {
      PickOfPrefix(xs, mask, |fs|);
      EventsOfPicked(fs, xs[..|fs|], mask);
    } else if fs != [] {
      var n := |fs| - 1;
      EventsOfPicked(fs[..n], xs[..n], mask);
      assert Events(Pick(fs, mask)) == Events(Pick(fs[..n], mask))
                                       + (if n < |mask| && mask[n] then [xs[n]] else []);
    }
  }

  lemma PermanentEvents<E>(events: seq<E>, items: seq<Item>)
    ensures Events(Sorted(events, items).permanent) == Pick(events, Mask(items, Permanent))
  {
    EventsOfPicked(Failures(events, items), events, Mask(items, Permanent));
  }

  /** With an item for every event, the three classes split the events: nothing is dropped, nothing
      is in two classes, and each class keeps the order of the request. */
  lemma {:induction false} ClassesPartition<E>(events: seq<E>, items: seq<Item>)
    requires |events| <= |items|
    ensures
      var i, r, p := Pick(events, Mask(items, Indexed)), Pick(events, Mask(items, Retryable)),
          Pick(events, Mask(items, Permanent));
      && multiset(i) + multiset(r) + multiset(p) == multiset(events)
      && |i| + |r| + |p| == |events|
      && Subsequence(i, events) && Subsequence(r, events) && Subsequence(p, events)
  {
    PickIsSubsequence(events, Mask(items, Indexed));
    PickIsSubsequence(events, Mask(items, Retryable));
    PickIsSubsequence(events, Mask(items, Permanent));
    MasksPartition(events, Mask(items, Indexed), Mask(items, Retryable), Mask(items, Permanent));
  }

  /** Three masks of which exactly one marks each position split a list. */
  lemma {:induction false} MasksPartition<E>(xs: seq<E>, a: seq<bool>, b: seq<bool>, c: seq<bool>)
    requires |xs| <= |a| && |a| == |b| == |c|
    requires forall k | 0 <= k < |a| :: (a[k] && !b[k] && !c[k]) || (!a[k] && b[k] && !c[k]) || (!a[k] && !b[k] && c[k])
    ensures multiset(Pick(xs, a)) + multiset(Pick(xs, b)) + multiset(Pick(xs, c)) == multiset(xs)
    ensures |Pick(xs, a)| + |Pick(xs, b)| + |Pick(xs, c)| == |xs|
  {
    if xs != [] {
      var n := |xs| - 1;
      MasksPartition(xs[..n], a, b, c);
      PickLast(xs, a);
      PickLast(xs, b);
      PickLast(xs, c);
      MultisetLast(xs);
      var (pa, pb, pc) := (multiset(Pick(xs[..n], a)), multiset(Pick(xs[..n], b)), multiset(Pick(xs[..n], c)));
      assert pa + pb + pc == multiset(xs[..n]);
      assert a[n] || b[n] || c[n];
    }
  }

  lemma {:induction false} CountIsPickLength<E>(xs: seq<E>, mask: seq<bool>)
    requires |xs| == |mask|
    ensures Count(mask) == |Pick(xs, mask)|
  {
    if xs != [] {
      var n := |xs| - 1;
      CountIsPickLength(xs[..n], mask[..n]);
      PickIgnoresMarks(xs[..n], mask[..n], [mask[n]]);
      assert mask[..n] + [mask[n]] == mask;
    }
  }

  lemma {:induction false} CountSplits(a: seq<bool>, b: seq<bool>)
    ensures Count(a + b) == Count(a) + Count(b)
  {
    if b == [] {
      assert a + b == a;
    } else {
      var n := |b| - 1;
      assert (a + b)[..|a| + n] == a + b[..n];
      CountSplits(a, b[..n]);
    }
  }

  lemma {:induction false} CountIsZero(mask: seq<bool>)
    ensures Count(mask) == 0 <==> forall i | 0 <= i < |mask| :: !mask[i]
  {
    if mask != [] {
      CountIsZero(mask[..|mask| - 1]);
      assert forall i | 0 <= i < |mask| - 1 :: mask[i] == mask[..|mask| - 1][i];
    }
  }

  /** The total a result reports. */
  function Accounted<E>(r: BulkResult<E>): nat {
    r.indexed + |r.retryable| + |r.permanent|
  }

  /** The code pairs items with events by position and does not compare the two lengths. The result
      accounts for as many events as there are exactly when the response has an item for each event and
      no further item reports success: a short list drops events, a long one can count too many. And
      each event is in one class, once, exactly when there is an item for each event. */
  lemma AccountedExactly<E>(events: seq<E>, items: seq<Item>)
    ensures Accounted(Sorted(events, items)) == |events| <==>
            |events| <= |items| && forall i | |events| <= i < |items| :: ClassOf(items[i]) != Indexed
    ensures
      var r := Sorted(events, items);
      var indexed := multiset(Pick(events, Mask(items, Indexed)));
      indexed + multiset(r.retryable) + multiset(Events(r.permanent)) == multiset(events) <==> |events| <= |items|
  {
    EachOnce(events, items);
    if |events| <= |items| {
      LongResponse(events, items);
      CountIsZero(Mask(items, Indexed)[|events|..]);
      SurplusIsQuiet(items, |events|);
    } else {
      ShortResponse(events, items);
    }
  }

  lemma EachOnce<E>(events: seq<E>, items: seq<Item>)
    ensures
      var r := Sorted(events, items);
      var indexed := multiset(Pick(events, Mask(items, Indexed)));
      indexed + multiset(r.retryable) + multiset(Events(r.permanent)) == multiset(events) <==> |events| <= |items|
  {
    PermanentEvents(events, items);
    if |events| <= |items| {
      ClassesPartition(events, items);
    } else {
      var n := |items|;
      PickOfPrefix(events, Mask(items, Indexed), n);
      PickOfPrefix(events, Mask(items, Retryable), n);
      PickOfPrefix(events, Mask(items, Permanent), n);
      ClassesPartition(events[..n], items);
      assert |multiset(events[..n])| == n < |multiset(events)|;
    }
  }

  lemma SurplusIsQuiet(items: seq<Item>, n: nat)
    requires n <= |items|
    ensures (forall j | 0 <= j < |items| - n :: !Mask(items, Indexed)[n..][j]) <==>
            (forall i | n <= i < |items| :: ClassOf(items[i]) != Indexed)
  {
    var tail := Mask(items, Indexed)[n..];
    assert forall i | n <= i < |items| :: tail[i - n] == (ClassOf(items[i]) == Indexed);
    if forall j | 0 <= j < |items| - n :: !tail[j] {
      forall i | n <= i < |items| ensures ClassOf(items[i]) != Indexed {
        assert !tail[i - n];
      }
    }
  }

  /** A response with at least one item per event accounts for the events and for every success
      beyond them. */
  lemma LongResponse<E>(events: seq<E>, items: seq<Item>)
    requires |events| <= |items|
    ensures Accounted(Sorted(events, items)) == |events| + Count(Mask(items, Indexed)[|events|..])
  {
    var n, mask := |events|, Mask(items, Indexed);
    assert mask == mask[..n] + mask[n..];
    CountSplits(mask[..n], mask[n..]);
    CountIsPickLength(events, mask[..n]);
    PickIgnoresMarks(events, mask[..n], mask[n..]);
    ClassesPartition(events, items);
    PermanentEvents(events, items);
  }

  /** A response with fewer items than events accounts for the items only. */
  lemma ShortResponse<E>(events: seq<E>, items: seq<Item>)
    requires |items| <= |events|
    ensures Accounted(Sorted(events, items)) == |items|
  {
    var n := |items|;
    var head := events[..n];
    PickOfPrefix(events, Mask(items, Retryable), n);
    PickOfPrefix(events, Mask(items, Permanent), n);
    PermanentEvents(events, items);
    ClassesPartition(head, items);
    CountIsPickLength(head, Mask(items, Indexed));
  }

  /** One event per class plus one more: the last event is in none of the three. */
  lemma ShortResponseDropsAnEvent()
    ensures
      var events, items := [1, 2, 3], [Item(201, "", ""), Item(503, "", "")];
      var r := Sorted(events, items);
      r.indexed == 1 && r.retryable == [2] && r.permanent == []
  {
    var events, items := [1, 2, 3], [Item(201, "", ""), Item(503, "", "")];
    assert Mask(items, Indexed) == [true, false] && Mask(items, Retryable) == [false, true]
        && Mask(items, Permanent) == [false, false];
    assert events[..2] == [1, 2] && [1, 2][..1] == [1] && [1][..0] == [];
    assert Count([true]) == 1;
    CountIsZero([]);
    assert [true, false][..1] == [true] && [true][..0] == [];
    assert Pick([1], [false, true]) == [];
    assert Pick([1, 2], [false, true]) == [2];
    assert Accounted(Sorted(events, items)) == 2 by {
      ShortResponse(events, items);
    }
  }
}
