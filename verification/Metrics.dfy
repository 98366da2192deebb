/** internal/metrics/counters.go: the API's counters and the table that counts accepted events by
    minute, source, address, method, path and status. */
module Metrics {
  import opened Text
  import opened Logline
  import opened Codec

  datatype Key = Key(bucket: string, source: string, ip: string, verb: string, path: string, status: int)

  datatype Row = Row(key: Key, count: nat)

  const MINUTE := 60_000_000_000

  /** The time an event counts under: a zero timestamp counts under the time of receipt. */
  function CountedAt(e: Event): Time {
    if e.timestamp.nanos == ZERO_TIME.nanos then e.receivedAt else e.timestamp
  }

  /** Only Go's zero time, midnight of January 1 of year 1, counts under the time of receipt. */
  lemma CountedWhen(text: int -> string, e: Event)
    ensures
      var (k, zero) := (KeyOf(text, e), -62135596800_000000000);
      && k.bucket == text((if e.timestamp.nanos == zero then e.receivedAt else e.timestamp).nanos / 60_000_000_000)
      && k.source == e.source && k.ip == e.ip && k.verb == e.verb && k.path == e.path && k.status == e.status
  {
  }

  /** The table key of an event; `text` prints a whole minute since the epoch. */
  function KeyOf(text: int -> string, e: Event): Key {
    Key(text(CountedAt(e).nanos / MINUTE), e.source, e.ip, e.verb, e.path, e.status)
  }

  /** Two events share a key exactly when they agree in the six dimensions, the time in its minute. */
  lemma KeysIdentify(text: int -> string, e: Event, f: Event)
    requires forall m, n | text(m) == text(n) :: m == n
    ensures KeyOf(text, e) == KeyOf(text, f) <==>
            && CountedAt(e).nanos / MINUTE == CountedAt(f).nanos / MINUTE && e.source == f.source && e.ip == f.ip
            && e.verb == f.verb && e.path == f.path && e.status == f.status
  {
  }

  function Keys(text: int -> string, events: seq<Event>): (r: seq<Key>)
    ensures |r| == |events| && forall i | 0 <= i < |events| :: r[i] == KeyOf(text, events[i])
  {
    seq(|events|, i requires 0 <= i < |events| => KeyOf(text, events[i]))
  }

  lemma KeysJoin(text: int -> string, a: seq<Event>, b: seq<Event>)
    ensures multiset(Keys(text, a + b)) == multiset(Keys(text, a)) + multiset(Keys(text, b))
  {
    hide KeyOf;
    assert Keys(text, a + b) == Keys(text, a) + Keys(text, b);
  }

  /** The table counts each key as often as it occurs, and holds no other key. */
  ghost predicate Counts(table: map<Key, nat>, keys: multiset<Key>) {
    forall k :: if k in table then table[k] == keys[k] > 0 else keys[k] == 0
  }

  // ---- The order of rows ----

  /** Order of strings by code point, as Go compares UTF-8 strings. */
  predicate Before(s: string, t: string) {
    t != "" && (s == "" || s[0] < t[0] || (s[0] == t[0] && Before(s[1..], t[1..])))
  }

  lemma {:induction false} BeforeIsTotal(s: string, t: string)
    ensures !Before(s, s)
    ensures Before(s, t) ==> !Before(t, s)
    ensures s != t ==> Before(s, t) || Before(t, s)
  {
    if s != "" {
      BeforeIsTotal(s[1..], if t == "" then "" else t[1..]);
      if t != "" && s[0] == t[0] {
        assert s[1..] == t[1..] ==> s == t by {
          assert s == [s[0]] + s[1..] && t == [t[0]] + t[1..];
        }
      }
    }
  }

  lemma {:induction false} BeforeChains(s: string, t: string, u: string)
    requires Before(s, t) && Before(t, u)
    ensures Before(s, u)
  {
    if s != "" && s[0] == t[0] == u[0] {
      BeforeChains(s[1..], t[1..], u[1..]);
    }
  }

  /** At the first place where they differ, or as a proper prefix. */
  lemma {:induction false} BeforeExactly(s: string, t: string)
    ensures Before(s, t) <==>
            exists n :: 0 <= n <= |s| && n < |t| && s[..n] == t[..n] && (n == |s| || s[n] < t[n])
  {
    if Before(s, t) {
      if s == "" || s[0] < t[0] {
        assert s[..0] == t[..0];
      } else {
        BeforeExactly(s[1..], t[1..]);
        var n :| 0 <= n <= |s| - 1 && n < |t| - 1 && s[1..][..n] == t[1..][..n]
            && (n == |s| - 1 || s[1..][n] < t[1..][n]);
        OneFurther(s, t, n);
      }
    }
    if n :| 0 <= n <= |s| && n < |t| && s[..n] == t[..n] && (n == |s| || s[n] < t[n]) {
      if n > 0 {
        BeforeExactly(s[1..], t[1..]);
        OneFurther(s, t, n - 1);
        assert s[0] == s[..n][0] && t[0] == t[..n][0];
      }
    }
  }

  lemma OneFurther(s: string, t: string, n: nat)
    requires n < |s| && n < |t| && s[0] == t[0]
    ensures s[1..][..n] == t[1..][..n] <==> s[..n + 1] == t[..n + 1]
  {
  }

  /** The comparison of dimensionSnapshot: path before method. */
  predicate Less(a: Key, b: Key) {
    if a.bucket != b.bucket then Before(a.bucket, b.bucket)
    else if a.source != b.source then Before(a.source, b.source)
    else if a.ip != b.ip then Before(a.ip, b.ip)
    else if a.path != b.path then Before(a.path, b.path)
    else if a.verb != b.verb then Before(a.verb, b.verb)
    else a.status < b.status
  }

  /** The first of minute, source, address, path, method and status in which two keys differ decides. */
  lemma FirstDifferenceDecides(a: Key, b: Key)
    ensures Before(a.bucket, b.bucket) ==> Less(a, b)
    ensures a.bucket == b.bucket && Before(a.source, b.source) ==> Less(a, b)
    ensures a.bucket == b.bucket && a.source == b.source && Before(a.ip, b.ip) ==> Less(a, b)
    ensures a.bucket == b.bucket && a.source == b.source && a.ip == b.ip && Before(a.path, b.path) ==> Less(a, b)
    ensures a == b.(verb := a.verb, status := a.status) && Before(a.verb, b.verb) ==> Less(a, b)
    ensures a == b.(status := a.status) && a.status < b.status ==> Less(a, b)
  {
    hide Before;
    BeforeIsTotal(a.bucket, b.bucket);
    BeforeIsTotal(a.source, b.source);
    BeforeIsTotal(a.ip, b.ip);
    BeforeIsTotal(a.path, b.path);
    BeforeIsTotal(a.verb, b.verb);
  }

  lemma LessIsTotal(a: Key, b: Key)
    ensures !Less(a, a)
    ensures Less(a, b) ==> !Less(b, a)
    ensures a != b ==> Less(a, b) || Less(b, a)
  {
    hide Before;
    BeforeIsTotal(a.bucket, b.bucket);
    BeforeIsTotal(a.source, b.source);
    BeforeIsTotal(a.ip, b.ip);
    BeforeIsTotal(a.path, b.path);
    BeforeIsTotal(a.verb, b.verb);
  }

  lemma StringsChain(s: string, t: string, u: string)
    ensures Before(s, t) && Before(t, u) ==> Before(s, u) && s != u
  {
    if Before(s, t) && Before(t, u) {
      BeforeChains(s, t, u);
      BeforeIsTotal(s, t);
    }
  }

  lemma LessChains(a: Key, b: Key, c: Key)
    requires Less(a, b) && Less(b, c)
    ensures Less(a, c)
  {
    hide Before;
    StringsChain(a.bucket, b.bucket, c.bucket);
    StringsChain(a.source, b.source, c.source);
    StringsChain(a.ip, b.ip, c.ip);
    StringsChain(a.path, b.path, c.path);
    StringsChain(a.verb, b.verb, c.verb);
  }

  // ---- The snapshot ----

  predicate Sorted(rows: seq<Row>) {
    forall i, j | 0 <= i < j < |rows| :: Less(rows[i].key, rows[j].key)
  }

  /** The rows of a table, each key once, in strictly rising order. */
  predicate IsSnapshot(table: map<Key, nat>, rows: seq<Row>) {
    Sorted(rows) && Lists(table, rows)
  }

  predicate Lists(table: map<Key, nat>, rows: seq<Row>) {
    && (forall i | 0 <= i < |rows| :: rows[i].key in table && table[rows[i].key] == rows[i].count)
    && (forall k | k in table :: Row(k, table[k]) in rows)
  }

  /** The snapshot is the same whatever order the map was traversed in. */
  lemma {:induction false} SnapshotIsUnique(table: map<Key, nat>, a: seq<Row>, b: seq<Row>)
    requires IsSnapshot(table, a) && IsSnapshot(table, b)
    ensures a == b
    decreases |a|
  {
    hide IsSnapshot;
    BothEmpty(table, a, b);
    if a != [] {
      LastIsLargest(table, a, b);
      WithoutLast(table, a);
      WithoutLast(table, b);
      SnapshotIsUnique(table - {a[|a| - 1].key}, a[..|a| - 1], b[..|b| - 1]);
      assert a == a[..|a| - 1] + [a[|a| - 1]] && b == b[..|b| - 1] + [b[|b| - 1]];
    }
  }

  lemma BothEmpty(table: map<Key, nat>, a: seq<Row>, b: seq<Row>)
    requires IsSnapshot(table, a) && IsSnapshot(table, b)
    ensures a == [] <==> b == []
  {
    hide Less;
    assert a != [] ==> a[0].key in table;
    assert b != [] ==> b[0].key in table;
  }

  lemma LastIsLargest(table: map<Key, nat>, a: seq<Row>, b: seq<Row>)
    requires IsSnapshot(table, a) && IsSnapshot(table, b) && a != [] && b != []
    ensures a[|a| - 1] == b[|b| - 1]
  {
    hide Less;
    var x, y := a[|a| - 1], b[|b| - 1];
    assert x in b && y in a by {
      assert table[x.key] == x.count && table[y.key] == y.count;
    }
    var i :| 0 <= i < |b| && b[i] == x;
    var j :| 0 <= j < |a| && a[j] == y;
    LessIsTotal(x.key, y.key);
  }

  lemma WithoutLast(table: map<Key, nat>, rows: seq<Row>)
    requires IsSnapshot(table, rows) && rows != []
    ensures IsSnapshot(table - {rows[|rows| - 1].key}, rows[..|rows| - 1])
  {
    hide Less;
    var n := |rows| - 1;
    var rest := table - {rows[n].key};
    forall i | 0 <= i < n ensures rows[i].key != rows[n].key {
      LessIsTotal(rows[i].key, rows[n].key);
    }
    forall k | k in rest ensures Row(k, rest[k]) in rows[..n] {
      var i :| 0 <= i < |rows| && rows[i] == Row(k, table[k]);
      assert rows[..n][i] == rows[i];
    }
  }

  lemma CountedOne(table: map<Key, nat>, keys: multiset<Key>, k: Key)
    requires Counts(table, keys)
    ensures Counts(table[k := if k in table then table[k] + 1 else 1], keys + multiset{k})
  {
  }

  // ---- The sum of the counts ----

  /** The sum of the counts of a table. */
  ghost function Total(table: map<Key, nat>): nat
    decreases |table|
  {
    if table == map[] then 0
    else
      var k :| k in table;
      Smaller(table, k);
      table[k] + Total(table - {k})
  }

  lemma Smaller(table: map<Key, nat>, k: Key)
    requires k in table
    ensures |table - {k}| < |table|
  {
    assert (table - {k}).Keys == table.Keys - {k};
    assert |(table - {k}).Keys| < |table.Keys|;
  }

  /** The counts add up to the number of events counted. */
  lemma {:induction false} CountsAddUp(table: map<Key, nat>, keys: multiset<Key>)
    requires Counts(table, keys)
    ensures Total(table) == |keys|
    decreases |table|
  {
    if table == map[] {
      assert keys == multiset{};
    } else {
      var k :| k in table && Total(table) == (Smaller(table, k); table[k] + Total(table - {k}));
      Smaller(table, k);
      var rest := keys[k := 0];
      assert Counts(table - {k}, rest);
      CountsAddUp(table - {k}, rest);
      assert keys == rest + multiset{k}[k := keys[k]];
    }
  }

  /** Two histories of the same events, in any order and any batches, have the same snapshot. */
  lemma SnapshotIgnoresOrder(one: map<Key, nat>, two: map<Key, nat>, keys: multiset<Key>, a: seq<Row>, b: seq<Row>)
    requires Counts(one, keys) && Counts(two, keys) && IsSnapshot(one, a) && IsSnapshot(two, b)
    ensures a == b
  {
    assert forall k :: k in one <==> k in two;
    assert one == two;
    SnapshotIsUnique(one, a, b);
  }

  // ---- Counters ----

  class Counters {
    const text: int -> string

    var requestsTotal: int
    var acceptedRecordsTotal: int
    var rejectedRequestsTotal: int
    var rejectedRecordsTotal: int
    var kafkaPublishErrorsTotal: int
    var spooledRecordsTotal: int
    var spoolWriteErrorsTotal: int
    var replayedRecordsTotal: int
    var batchesAcceptedTotal: int
    var batchRecordsTotal: int
    var dimensions: map<Key, nat>

    /** Every event accepted so far. */
    ghost var history: seq<Event>

    constructor (text: int -> string)
      ensures Valid() && history == [] && View() == Totals(0, 0, 0, 0, 0, 0, 0, 0, 0, 0) && this.text == text
    {
      this.text := text;
      requestsTotal, acceptedRecordsTotal, rejectedRequestsTotal, rejectedRecordsTotal := 0, 0, 0, 0;
      kafkaPublishErrorsTotal, spooledRecordsTotal, spoolWriteErrorsTotal, replayedRecordsTotal := 0, 0, 0, 0;
      batchesAcceptedTotal, batchRecordsTotal, dimensions, history := 0, 0, map[], [];
    }

    ghost function View(): Totals
      reads this
    {
      Totals(requestsTotal, acceptedRecordsTotal, rejectedRequestsTotal, rejectedRecordsTotal, kafkaPublishErrorsTotal,
             spooledRecordsTotal, spoolWriteErrorsTotal, replayedRecordsTotal, batchesAcceptedTotal, batchRecordsTotal)
    }

    /** The table and the counter of accepted records agree with the history. */
    ghost predicate Valid()
      reads this
    {
      Counts(dimensions, multiset(Keys(text, history))) && acceptedRecordsTotal == batchRecordsTotal == |history|
    }

    lemma Agrees()
      requires Valid()
      ensures Total(dimensions) == acceptedRecordsTotal
    {
      CountsAddUp(dimensions, multiset(Keys(text, history)));
    }

    method ObserveRequest()
      modifies this
      ensures View() == old(View()).(requests := old(View()).requests + 1)
      ensures dimensions == old(dimensions) && history == old(history)
    {
      requestsTotal := requestsTotal + 1;
    }

    method ObserveRejected(records: nat)
      modifies this
      ensures View() == old(View()).(rejectedRequests := old(View()).rejectedRequests + 1,
                                     rejectedRecords := old(View()).rejectedRecords + records)
      ensures dimensions == old(dimensions) && history == old(history)
    {
      rejectedRequestsTotal := rejectedRequestsTotal + 1;
      if records > 0 {
        rejectedRecordsTotal := rejectedRecordsTotal + records;
      }
    }

    method ObserveKafkaPublishError()
      modifies this
      ensures View() == old(View()).(kafkaErrors := old(View()).kafkaErrors + 1)
      ensures dimensions == old(dimensions) && history == old(history)
    {
      kafkaPublishErrorsTotal := kafkaPublishErrorsTotal + 1;
    }

    method ObserveSpoolWriteError()
      modifies this
      ensures View() == old(View()).(spoolErrors := old(View()).spoolErrors + 1)
      ensures dimensions == old(dimensions) && history == old(history)
    {
      spoolWriteErrorsTotal := spoolWriteErrorsTotal + 1;
    }

    method ObserveReplayed(records: nat)
      modifies this
      ensures View() == old(View()).(replayed := old(View()).replayed + records)
      ensures dimensions == old(dimensions) && history == old(history)
    {
      if records > 0 {
        replayedRecordsTotal := replayedRecordsTotal + records;
      }
    }

    /** Every event of an accepted batch is counted once, under its key. */
    method ObserveAccepted(events: seq<Event>, spooled: bool)
      requires Valid()
      modifies this
      ensures Valid() && history == old(history) + events
      ensures
        var v, n := old(View()), |events|;
        View() == v.(accepted := v.accepted + n, batches := v.batches + 1, batchRecords := v.batchRecords + n,
                     spooled := v.spooled + if spooled then n else 0)
    {
      hide Counts, Keys;
      var count := |events|;
      acceptedRecordsTotal := acceptedRecordsTotal + count;
      batchesAcceptedTotal := batchesAcceptedTotal + 1;
      batchRecordsTotal := batchRecordsTotal + count;
      if spooled {
        spooledRecordsTotal := spooledRecordsTotal + count;
      }
      KeysJoin(text, history, events);
      history := history + events;
      CountEvents(events, multiset(Keys(text, old(history))));
    }

    /** The loop of ObserveAccepted. */
    method CountEvents(events: seq<Event>, ghost before: multiset<Key>)
      requires Counts(dimensions, before)
      modifies this`dimensions
      ensures Counts(dimensions, before + multiset(Keys(text, events)))
    {
      hide Counts, KeyOf;
      ghost var keys := Keys(text, events);
      assert before + multiset(keys[..0]) == before;
      for i := 0 to |events|
        invariant Counts(dimensions, before + multiset(keys[..i]))
      {
        var key := KeyOf(text, events[i]);
        assert keys[..i + 1] == keys[..i] + [key];
        CountedOne(dimensions, before + multiset(keys[..i]), key);
        assert before + multiset(keys[..i + 1]) == before + multiset(keys[..i]) + multiset{key};
        dimensions := dimensions[key := if key in dimensions then dimensions[key] + 1 else 1];
      }
      assert keys[..|events|] == keys;
    }

    /** dimensionSnapshot: the map is traversed in any order, then the rows are sorted. */
    method DimensionSnapshot() returns (rows: seq<Row>)
      ensures IsSnapshot(dimensions, rows)
    {
      var out: seq<Row> := [];
      var left := dimensions.Keys;
      ghost var done: map<Key, nat> := map[];
      while left != {}
        invariant left <= dimensions.Keys
        invariant done == map k | k in dimensions && k !in left :: dimensions[k]
        invariant Lists(done, out) && Distinct(out)
        decreases |left|
      {
        var k :| k in left;
        Listed(done, out, Row(k, dimensions[k]));
        out := out + [Row(k, dimensions[k])];
        done := done[k := dimensions[k]];
        left := left - {k};
      }
      assert done == dimensions;
      rows := SortRows(dimensions, out);
    }
  }

  datatype Totals = Totals(
    requests: int, accepted: int, rejectedRequests: int, rejectedRecords: int, kafkaErrors: int, spooled: int,
        spoolErrors: int,
    replayed: int, batches: int, batchRecords: int)

  predicate Distinct(rows: seq<Row>) {
    forall i, j | 0 <= i < j < |rows| :: rows[i].key != rows[j].key
  }

  lemma Listed(table: map<Key, nat>, rows: seq<Row>, row: Row)
    requires Lists(table, rows) && Distinct(rows) && row.key !in table
    ensures Lists(table[row.key := row.count], rows + [row]) && Distinct(rows + [row])
  {
    var more := table[row.key := row.count];
    forall k | k in more ensures Row(k, more[k]) in rows + [row] {
      assert k != row.key ==> Row(k, table[k]) in rows;
    }
  }

  lemma EmptySnapshot()
    ensures IsSnapshot(map[], [])
  {
  }

  /** sort.Slice with the comparison above. */
  method SortRows(table: map<Key, nat>, out: seq<Row>) returns (rows: seq<Row>)
    requires Lists(table, out) && Distinct(out)
    ensures IsSnapshot(table, rows)
  {
    hide Less, IsSnapshot;
    rows := [];
    ghost var done: map<Key, nat> := map[];
    EmptySnapshot();
    for i := 0 to |out|
      invariant IsSnapshot(done, rows)
      invariant done == map k | k in table && Row(k, table[k]) in out[..i] :: table[k]
    {
      forall j | 0 <= j < i ensures out[..i][j].key != out[i].key {
      }
      assert out[i].key !in done;
      rows := Insert(done, rows, out[i]);
      assert out[..i + 1] == out[..i] + [out[i]];
      done := done[out[i].key := out[i].count];
    }
    assert out[..|out|] == out;
    assert done == table;
  }

  /** One step of sorting: a new row at its place. */
  method Insert(ghost table: map<Key, nat>, rows: seq<Row>, row: Row) returns (r: seq<Row>)
    requires IsSnapshot(table, rows) && row.key !in table
    ensures IsSnapshot(table[row.key := row.count], r)
  {
    hide Less, IsSnapshot;
    var i := |rows|;
    while i > 0 && Less(row.key, rows[i - 1].key)
      invariant 0 <= i <= |rows|
      invariant forall j | i <= j < |rows| :: Less(row.key, rows[j].key)
    {
      i := i - 1;
    }
    r := rows[..i] + [row] + rows[i..];
    PlacedRightly(table, rows, row, i);
  }

  lemma PlacedRightly(table: map<Key, nat>, rows: seq<Row>, row: Row, i: nat)
    requires IsSnapshot(table, rows) && row.key !in table && i <= |rows|
    requires (i > 0 ==> !Less(row.key, rows[i - 1].key)) && forall j | i <= j < |rows| :: Less(row.key, rows[j].key)
    ensures IsSnapshot(table[row.key := row.count], rows[..i] + [row] + rows[i..])
  {
    hide Less, Lists;
    StillListed(table, rows, row, i);
    if i > 0 {
      LessIsTotal(row.key, rows[i - 1].key);
    }
    forall j | 0 <= j < i ensures Less(rows[j].key, row.key) {
      if j < i - 1 {
        LessChains(rows[j].key, rows[i - 1].key, row.key);
      }
    }
  }

  lemma StillListed(table: map<Key, nat>, rows: seq<Row>, row: Row, i: nat)
    requires Lists(table, rows) && row.key !in table && i <= |rows|
    ensures Lists(table[row.key := row.count], rows[..i] + [row] + rows[i..])
    ensures forall j | 0 <= j < |rows| :: rows[j].key != row.key
  {
    var r, more := rows[..i] + [row] + rows[i..], table[row.key := row.count];
    forall k | k in more ensures Row(k, more[k]) in r {
      assert k != row.key ==> Row(k, table[k]) in rows && rows == rows[..i] + rows[i..];
    }
  }
}
