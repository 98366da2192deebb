/** internal/spool/writer.go: what the spool directory holds, the capacity test that rests on it, and
    the mode shown to operators. */
module SpoolUsage {
  import opened Text

  /** What the directory walk meets: directories, temporary files, files; and how looking at an entry
      may fail: it is gone by now, or some other error. */
  datatype Entry = Directory | Temporary | Regular(size: nat)
  datatype Sight = Seen(entry: Entry) | Vanished | Broken

  datatype Usage = Usage(bytes: nat, files: nat)

  function Count(u: Usage, e: Entry): Usage {
    match e
    case Regular(size) => Usage(u.bytes + size, u.files + 1)
    case _ => u
  }

  /** The bytes and the number of the files that count. */
  function Held(entries: seq<Entry>): Usage {
    if entries == [] then Usage(0, 0) else Count(Held(entries[..|entries| - 1]), entries[|entries| - 1])
  }

  /** Each file counts once, with its size; directories and temporary files count nothing. */
  lemma {:induction false} HeldInParts(a: seq<Entry>, b: seq<Entry>, size: nat)
    ensures Held(a + b) == Usage(Held(a).bytes + Held(b).bytes, Held(a).files + Held(b).files)
    ensures Held([Regular(size)]) == Usage(size, 1) && Held([Directory]) == Held([Temporary]) == Usage(0, 0)
  {
    assert [Regular(size)][..0] == [] && [Directory][..0] == [] && [Temporary][..0] == [];
    if b == [] {
      assert a + b == a;
    } else {
      var n := |b| - 1;
      HeldInParts(a, b[..n], size);
      assert (a + b)[..|a + b| - 1] == a + b[..n] && (a + b)[|a + b| - 1] == b[n];
    }
  }

  /** A walk ends at its first failure. */
  datatype Walked = Counted(usage: Usage) | Hollow | Failed

  function Look(walk: seq<Sight>): Walked {
    if walk == [] then Counted(Usage(0, 0))
    else
      match Look(walk[..|walk| - 1])
      case Hollow => Hollow
      case Failed => Failed
      case Counted(u) =>
        match walk[|walk| - 1]
        case Vanished => Hollow
        case Broken => Failed
        case Seen(e) => Counted(Count(u, e))
  }

  /** A file that was removed in the meantime makes the directory look empty. */
  function UsageOf(w: Walked): Option<Usage> {
    match w
    case Counted(u) => Some(u)
    case Hollow => Some(Usage(0, 0))
    case Failed => None
  }

  /** What a walk saw, when it saw everything. */
  predicate Sees(walk: seq<Sight>, entries: seq<Entry>) {
    |walk| == |entries| && forall i | 0 <= i < |walk| :: walk[i] == Seen(entries[i])
  }

  /** The first failure of a walk. */
  predicate FailsAt(walk: seq<Sight>, i: nat) {
    i < |walk| && !walk[i].Seen? && forall j | 0 <= j < i :: walk[j].Seen?
  }

  lemma {:induction false} LookSees(walk: seq<Sight>, entries: seq<Entry>)
    requires Sees(walk, entries)
    ensures Look(walk) == Counted(Held(entries))
  {
    if walk != [] {
      LookSees(walk[..|walk| - 1], entries[..|walk| - 1]);
    }
  }

  lemma {:induction false} LookCounts(walk: seq<Sight>)
    requires forall j | 0 <= j < |walk| :: walk[j].Seen?
    ensures Look(walk).Counted?
  {
    if walk != [] {
      LookCounts(walk[..|walk| - 1]);
    }
  }

  lemma {:induction false} LookFails(walk: seq<Sight>, i: nat)
    requires FailsAt(walk, i)
    ensures Look(walk) == if walk[i].Vanished? then Hollow else Failed
  {
    if i == |walk| - 1 {
      LookCounts(walk[..i]);
    } else {
      LookFails(walk[..|walk| - 1], i);
    }
  }

  /** dirUsage. A walk that sees all entries gives the true usage; one that first meets a file removed
      in the meantime gives no bytes at all, whatever it has counted; another error is passed on. */
  method DirUsage(walk: seq<Sight>) returns (usage: Option<Usage>)
    ensures usage == UsageOf(Look(walk))
    ensures forall entries | Sees(walk, entries) :: usage == Some(Held(entries))
    ensures forall i: nat | FailsAt(walk, i) :: usage == if walk[i].Vanished? then Some(Usage(0, 0)) else None
  {
    forall entries | Sees(walk, entries) ensures Look(walk) == Counted(Held(entries)) {
      LookSees(walk, entries);
    }
    forall i: nat | FailsAt(walk, i) ensures Look(walk) == if walk[i].Vanished? then Hollow else Failed {
      LookFails(walk, i);
    }
    var total: nat, count: nat := 0, 0;
    for i := 0 to |walk|
      invariant forall j | 0 <= j < i :: walk[j].Seen?
      invariant Look(walk[..i]) == Counted(Usage(total, count))
    {
      assert walk[..i + 1][..i] == walk[..i];
      match walk[i] {
        case Vanished =>
          assert FailsAt(walk, i);
          return Some(Usage(0, 0));
        case Broken =>
          assert FailsAt(walk, i);
          return None;
        case Seen(entry) =>
          if entry.Regular? {
            total := total + entry.size;
            count := count + 1;
          }
      }
    }
    assert walk[..|walk|] == walk;
    usage := Some(Usage(total, count));
  }

  // ---- The capacity test ----

  /** Writer.Write refuses a payload that would take the counted bytes past the limit; a limit of 0
      refuses nothing. */
  predicate Full(used: nat, payload: nat, maxBytes: int) {
    maxBytes > 0 && used + payload > maxBytes
  }

  /** The answer of the test, or none when the directory cannot be walked. */
  function Refuses(walk: seq<Sight>, payload: nat, maxBytes: int): Option<bool> {
    if maxBytes <= 0 then Some(false)
    else
      match UsageOf(Look(walk))
      case None => None
      case Some(u) => Some(Full(u.bytes, payload, maxBytes))
  }

  /** The test inside Writer.Write. */
  method Overflows(walk: seq<Sight>, payload: nat, maxBytes: int) returns (full: Option<bool>)
    ensures full == Refuses(walk, payload, maxBytes)
    ensures maxBytes <= 0 ==> full == Some(false)
    ensures forall entries | Sees(walk, entries) ::
        full == Some(maxBytes > 0 && Held(entries).bytes + payload > maxBytes)
    ensures forall i: nat | FailsAt(walk, i) && maxBytes > 0 ::
              full == if walk[i].Vanished? then Some(payload > maxBytes) else None
  {
    if maxBytes <= 0 {
      return Some(false);
    }
    var usage := DirUsage(walk);
    full := if usage.None? then None else Some(usage.value.bytes + payload > maxBytes);
  }

  /** The walk of a directory during which one file is removed before it is looked at. */
  function WalkMissing(entries: seq<Entry>, k: nat): (walk: seq<Sight>)
    ensures |walk| == |entries| && forall i | 0 <= i < |walk| ::
        walk[i] == if i == k then Vanished else Seen(entries[i])
  {
    seq(|entries|, i requires 0 <= i < |entries| => if i == k then Vanished else Seen(entries[i]))
  }

  /** In any directory, whichever file vanishes: the walk sees no bytes, and the test admits exactly the
      payloads that fit an empty spool. It is wrong for every payload that fits the limit by itself but
      not beside what the directory still holds without that file. */
  lemma VanishedFileHidesTheRest(entries: seq<Entry>, k: nat, payload: nat, maxBytes: int)
    requires k < |entries| && maxBytes > 0
    ensures
      var left := entries[..k] + entries[k + 1..];
      && Refuses(WalkMissing(entries, k), payload, maxBytes) == Some(payload > maxBytes)
      && (Refuses(WalkMissing(entries, k), payload, maxBytes) != Some(Full(Held(left).bytes, payload, maxBytes)) <==>
          payload <= maxBytes < Held(left).bytes + payload)
  {
    LookFails(WalkMissing(entries, k), k);
  }

  // ---- The mode ----

  datatype Mode = Normal | Degraded | Critical | Exhausted

  /** mode, with an exact ratio in place of the float64 one. */
  function ModeOf(used: nat, maxBytes: int): Mode {
    if maxBytes <= 0 then
      if used > 0 then Degraded else Normal
    else
      var ratio := used as real / maxBytes as real;
      if ratio >= 1.0 then Exhausted
      else if ratio >= 0.8 then Critical
      else if ratio > 0.0 then Degraded
      else Normal
  }

  function Rank(m: Mode): nat {
    match m
    case Normal => 0
    case Degraded => 1
    case Critical => 2
    case Exhausted => 3
  }

  lemma RatioIs(used: nat, maxBytes: int, c: real)
    requires maxBytes > 0
    ensures used as real / maxBytes as real >= c <==> used as real >= c * maxBytes as real
  {
    var ratio := used as real / maxBytes as real;
    assert ratio * maxBytes as real == used as real;
    if ratio >= c {
      assert (ratio - c) * maxBytes as real >= 0.0;
    } else {
      assert (c - ratio) * maxBytes as real > 0.0;
    }
  }

  /** The four modes in whole numbers: nothing used, less than four fifths, less than all, all. */
  lemma ModeExactly(used: nat, maxBytes: int)
    requires maxBytes > 0
    ensures ModeOf(used, maxBytes) == Exhausted <==> used >= maxBytes
    ensures ModeOf(used, maxBytes) == Critical <==> 5 * used >= 4 * maxBytes && used < maxBytes
    ensures ModeOf(used, maxBytes) == Degraded <==> used > 0 && 5 * used < 4 * maxBytes
    ensures ModeOf(used, maxBytes) == Normal <==> used == 0
  {
    RatioIs(used, maxBytes, 1.0);
    RatioIs(used, maxBytes, 0.8);
    assert used as real >= 0.8 * maxBytes as real <==> 5 * used >= 4 * maxBytes;
    if used > 0 {
      assert used as real / maxBytes as real > 0.0;
    }
  }

  /** More bytes never show a milder mode. */
  lemma ModeIsMonotone(used: nat, more: nat, maxBytes: int)
    requires used <= more
    ensures Rank(ModeOf(used, maxBytes)) <= Rank(ModeOf(more, maxBytes))
  {
    if maxBytes > 0 {
      var (a, b, m) := (used as real, more as real, maxBytes as real);
      RatioIs(more, maxBytes, a / m);
      assert a / m * m == a;
    }
  }

  /** Exhausted means that the test refuses every payload, and any other mode that it admits some. */
  lemma ExhaustedIsFull(used: nat, maxBytes: int)
    ensures ModeOf(used, maxBytes) == Exhausted <==> forall payload: nat | payload > 0 :: Full(used, payload, maxBytes)
  {
    if maxBytes > 0 {
      ModeExactly(used, maxBytes);
    }
    if ModeOf(used, maxBytes) != Exhausted {
      assert !Full(used, 1, maxBytes);
    }
  }
}
