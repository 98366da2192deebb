/** A replay file while it is written, line by line, next to the replay loop that reads and removes
    files. The worker creates the file under the name the loop looks for; the API's spool writer
    creates it under a temporary name and renames it when it is complete. */
module Races {

  datatype Reader = Resting | Holding(lines: nat) | Clearing(lines: nat)

  /** One file of `total` lines. `listed` is whether it has its `.jsonl` name, `seen` the lines read by
      the last pass, `placed` the lines, from the first on, that some pass has put elsewhere. */
  datatype Race = Race(total: nat, written: nat, listed: bool, removed: bool, reader: Reader, seen: nat, placed: nat)

  datatype Action = AppendLine | Rename | Read(emptied: bool) | Place(ok: bool) | Remove(ok: bool)

  /** `renames` chooses the protocol. The writer goes on writing to a file that was removed. */
  predicate Enabled(renames: bool, s: Race, a: Action) {
    match a
    case AppendLine => s.written < s.total
    case Rename => renames && s.written == s.total && !s.listed && !s.removed
    case Read(_) => s.listed && s.reader.Resting?
    case Place(_) => s.reader.Holding?
    case Remove(_) => s.reader.Clearing?
  }

  function Step(renames: bool, s: Race, a: Action): Race {
    if !Enabled(renames, s, a) then s
    else
      match a
      case AppendLine => s.(written := s.written + 1)
      case Rename => s.(listed := true)
      case Read(emptied) =>
        if s.written > 0 then s.(reader := Holding(s.written), seen := s.written)
        else if emptied then s.(listed := false, removed := true, seen := 0)
        else s
      case Place(ok) =>
        if ok then s.(reader := Clearing(s.reader.lines), placed := if s.reader.lines > s.placed then s.reader.lines
            else s.placed)
        else s.(reader := Resting)
      case Remove(ok) => if ok then s.(reader := Resting, listed := false, removed := true) else s.(reader := Resting)
  }

  function Run(renames: bool, s: Race, actions: seq<Action>): Race
    decreases |actions|
  {
    if actions == [] then s else Run(renames, Step(renames, s, actions[0]), actions[1..])
  }

  function Start(renames: bool, total: nat): Race {
    Race(total, 0, !renames, false, Resting, 0, 0)
  }

  /** A line is in the directory still, or elsewhere. */
  predicate Kept(s: Race, line: nat) {
    line < s.placed || (!s.removed && line < s.written)
  }

  predicate AllKept(s: Race) {
    forall line: nat | line < s.total :: Kept(s, line)
  }

  predicate Inv(renames: bool, s: Race) {
    && s.placed <= s.seen <= s.written <= s.total
    && (s.reader.Holding? ==> s.reader.lines == s.seen && s.listed)
    && (s.reader.Clearing? ==> s.reader.lines == s.seen == s.placed && s.listed)
    && (s.removed ==> s.placed == s.seen && !s.listed && s.reader.Resting?)
    && (renames && (s.listed || s.removed) ==> s.written == s.total)
    && (renames && s.removed ==> s.seen == s.total)
    && (renames && !s.reader.Resting? ==> s.reader.lines == s.total)
  }

  lemma {:induction false} RunKeeps(renames: bool, s: Race, actions: seq<Action>)
    requires Inv(renames, s)
    ensures Inv(renames, Run(renames, s, actions)) && Run(renames, s, actions).total == s.total
    decreases |actions|
  {
    if actions != [] {
      RunKeeps(renames, Step(renames, s, actions[0]), actions[1..]);
    }
  }

  /** In every run of either protocol, once the writer is done: nothing is lost exactly when the file is
      still there, or the pass that removed it read it after the last line was written. */
  lemma LostExactly(renames: bool, total: nat, actions: seq<Action>)
    ensures
      var s := Run(renames, Start(renames, total), actions);
      s.written == total ==> (AllKept(s) <==> !s.removed || s.seen == total)
  {
    RunKeeps(renames, Start(renames, total), actions);
    var s := Run(renames, Start(renames, total), actions);
    if s.written == total && s.removed && s.seen < total {
      assert !Kept(s, s.seen);
    }
  }

  /** The lines lost are the ones written after that read. */
  lemma LostLines(renames: bool, total: nat, actions: seq<Action>, line: nat)
    requires line < total
    ensures
      var s := Run(renames, Start(renames, total), actions);
      s.removed ==> (Kept(s, line) <==> line < s.seen)
  {
    RunKeeps(renames, Start(renames, total), actions);
  }

  /** With the rename no run loses anything: every file a pass can see is complete. */
  lemma RenameLosesNothing(total: nat, actions: seq<Action>)
    ensures
      var s := Run(true, Start(true, total), actions);
      && (s.listed ==> s.written == total)
      && (s.written == total ==> AllKept(s))
  {
    RunKeeps(true, Start(true, total), actions);
  }

  function Appends(n: nat): (r: seq<Action>)
    ensures |r| == n && forall i | 0 <= i < n :: r[i] == AppendLine
  {
    seq(n, i => AppendLine)
  }

  lemma {:induction false} AppendsOnly(renames: bool, s: Race, n: nat)
    requires s.written + n <= s.total
    ensures Run(renames, s, Appends(n)) == s.(written := s.written + n)
    decreases n
  {
    if n > 0 {
      assert Appends(n)[1..] == Appends(n - 1);
      AppendsOnly(renames, Step(renames, s, AppendLine), n - 1);
    }
  }

  lemma {:induction false} RunTwice(renames: bool, s: Race, xs: seq<Action>, ys: seq<Action>)
    ensures Run(renames, s, xs + ys) == Run(renames, Run(renames, s, xs), ys)
    decreases |xs|
  {
    if xs == [] {
      assert xs + ys == ys;
    } else {
      assert (xs + ys)[1..] == xs[1..] + ys;
      RunTwice(renames, Step(renames, s, xs[0]), xs[1..], ys);
    }
  }

  /** Without it any number of lines can be lost, whatever the size of the file: a pass that comes after
      `early` lines takes those, removes the file, and the writer completes it unaware. */
  lemma EarlyPassLosesTheRest(total: nat, early: nat)
    requires early < total
    ensures
      var pass := [Read(true), Place(true), Remove(true)];
      var s := Run(false, Start(false, total), Appends(early) + (pass + Appends(total - early)));
      s.written == total && s.removed && forall line: nat | line < total :: Kept(s, line) <==> line < early
  {
    var pass := [Read(true), Place(true), Remove(true)];
    var s0 := Start(false, total);
    var s1 := s0.(written := early);
    AppendsOnly(false, s0, early);
    RunTwice(false, s0, Appends(early), pass + Appends(total - early));
    RunTwice(false, s1, pass, Appends(total - early));
    var s2 := s1.(listed := false, removed := true, seen := early, placed := early);
    assert pass[1..] == [Place(true), Remove(true)] && pass[1..][1..] == [Remove(true)] && pass[1..][1..][1..] == [];
    assert Run(false, s1, pass) == s2;
    AppendsOnly(false, s2, total - early);
  }
}
