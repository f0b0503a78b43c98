/** What every step of every protocol does to files and journal, whatever faults it meets. */
module JournalFacts {
  import opened MediaStore

  /** The process knows of every line that is in its journal. */
  ghost predicate InSync(w: World) {
    w.entries == w.lines
  }

  /** A process that has read its journal. */
  function Abreast(d: Disk, faults: seq<Fault>): World {
    Launch(d, faults).(entries := d.lines)
  }

  /** A line break in a line that was written spoils the journal file. */
  ghost predicate Marked(w: World) {
    !Printable(w.lines) ==> w.shape == Garbled
  }

  /** Where no line loses its end, nothing else does. */
  ghost predicate Uncut(w: World) {
    Cut !in w.faults && w.shape != Unended && (w.shape == Garbled ==> !Printable(w.lines))
  }

  /** A process that still knows of every line has had none damaged. */
  ghost predicate InStep(before: World, after: World) {
    |before.entries| <= |before.lines| ==>
      && |after.entries| <= |after.lines|
      && (InSync(after) ==> InSync(before) && (before.IsWhole() ==> after.IsWhole()))
  }

  predicate ShapeEvolves(before: World, after: World) {
    && (before.shape != NoFile ==> after.shape != NoFile)
    && (before.shape == Garbled ==> after.shape == Garbled)
    && (before.shape == Unended ==> after.shape == Garbled || (after.shape == Unended && after.lines == before.lines))
  }

  /** What a protocol may do: rename a file with this fingerprint between these places. */
  datatype Move = Move(from: Location, to: Location, fingerprint: Fingerprint)

  /** What an approval means, apart from how the protocols test it: the size, the time and,
      where a hash was approved, the hash are those approved. */
  ghost predicate HasAttributes(file: File, expected: Fingerprint) {
    && file.size == expected.size
    && file.mtimeNs == expected.mtimeNs
    && (expected.sha256 == None || expected.sha256 == Some(file.sha256))
  }

  /** A file with the approved attributes stands at this place. */
  ghost predicate Stands(files: Files, at: Location, expected: Fingerprint) {
    at in files && HasAttributes(files[at], expected)
  }

  /** The file was approved for a move from or to this place. */
  ghost predicate Approved(moves: set<Move>, at: Location, file: File) {
    exists move ::
      move in moves && (at == move.from || at == move.to) && HasAttributes(file, move.fingerprint)
  }

  predicate Keeps(before: Files, after: Files, at: Location) {
    if at in before then at in after && before[at] == after[at] else at !in after
  }

  /** Wherever the files differ, what was there and what is there now was approved for a move
      from or to that place. */
  ghost predicate OnlyApproved(moves: set<Move>, before: Files, after: Files) {
    forall at :: !Keeps(before, after, at) ==>
      && (at in before ==> Approved(moves, at, before[at]))
      && (at in after ==> Approved(moves, at, after[at]))
  }

  /** What is known of a protocol: whether the texts at hand hold no line break, and the moves
      that it may make. */
  datatype Terms = Terms(plain: bool, moves: set<Move>)

  /** For steps that rename nothing. */
  const Still := Terms(false, {})

  ghost predicate JournalEvolves(plain: bool, before: World, after: World) {
    && before.lines <= after.lines
    && ShapeEvolves(before, after)
    && (Marked(before) ==> Marked(after))
    && (Uncut(before) ==> Uncut(after))
    && InStep(before, after)
    && (plain && Printable(before.lines) ==> Printable(after.lines))
  }

  /** Files are only permuted among places; journal and directories only grow, and what is
      written onto a line without an end runs together with it. Where the texts at hand hold
      no line break, none gets into the journal. */
  ghost predicate Evolves(t: Terms, before: World, after: World) {
    && JournalEvolves(t.plain, before, after)
    && before.directories <= after.directories
    && Permuted(before.files, after.files)
    && OnlyApproved(t.moves, before.files, after.files)
  }

  lemma EvolvesNot(t: Terms, w: World)
    ensures Evolves(t, w, w)
  {
  }

  lemma EvolvesTransitive(t: Terms, a: World, b: World, c: World)
    requires Evolves(t, a, b) && Evolves(t, b, c)
    ensures Evolves(t, a, c)
  {
    hide Printable, Readable, Permuted, OnlyApproved;
    PermutedTransitive(a.files, b.files, c.files);
    OnlyApprovedTransitive(t.moves, a.files, b.files, c.files);
  }

  lemma OnlyApprovedNot(moves: set<Move>, files: Files)
    ensures OnlyApproved(moves, files, files)
  {
  }

  lemma OnlyApprovedTransitive(moves: set<Move>, a: Files, b: Files, c: Files)
    requires OnlyApproved(moves, a, b) && OnlyApproved(moves, b, c)
    ensures OnlyApproved(moves, a, c)
  {
    hide Approved;
    forall at | !Keeps(a, c, at)
      ensures at in a ==> Approved(moves, at, a[at])
      ensures at in c ==> Approved(moves, at, c[at])
    {
      assert !Keeps(a, b, at) || !Keeps(b, c, at);
    }
  }

  lemma PermutedTransitive(a: Files, b: Files, c: Files)
    requires Permuted(a, b) && Permuted(b, c)
    ensures Permuted(a, c)
  {
  }

  lemma PrintableNext(lines: seq<Line>, line: Line)
    ensures Printable(lines + [line]) <==> Printable(lines) && (line.Line? ==> !Breaks(line.event))
  {
    hide Breaks;
    var next := lines + [line];
    assert next[|lines|] == line;
    assert forall i :: 0 <= i < |lines| ==> next[i] == lines[i];
  }

  lemma AppendEvolves(t: Terms, w: World, event: Event)
    requires t.plain ==> !Breaks(event)
    ensures Evolves(t, w, Append(w, event).0) && Append(w, event).0.files == w.files
  {
    hide Breaks, Printable, InStep, Marked, Uncut, Permuted, OnlyApproved;
    EvolvesNot(t, w);
    PrintableNext(w.lines, Line(|w.entries| + 1, event));
    PrintableNext(w.lines, Broken);
    AppendMarks(w, event);
    AppendKeepsStep(w, event);
  }

  lemma AppendMarks(w: World, event: Event)
    ensures Marked(w) ==> Marked(Append(w, event).0)
    ensures Uncut(w) ==> Uncut(Append(w, event).0)
  {
    hide Breaks, Printable;
    PrintableNext(w.lines, Line(|w.entries| + 1, event));
    PrintableNext(w.lines, Broken);
    LaterFaultsAre(w.faults);
  }

  lemma AppendKeepsStep(w: World, event: Event)
    ensures InStep(w, Append(w, event).0)
  {
    hide Breaks, Printable;
    var next := Append(w, event).0;
    PrintableNext(w.lines, Line(|w.entries| + 1, event));
    if InSync(next) && NextFault(w.faults) == Proceed {
      assert next.lines[..|w.lines|] == w.lines && next.entries[..|w.entries|] == w.entries;
    }
  }

  lemma LaterFaultsAre(faults: seq<Fault>)
    ensures forall fault :: fault in LaterFaults(faults) ==> fault in faults
    ensures NextFault(faults) == Proceed || NextFault(faults) in faults
  {
  }

  /** A step that writes nothing and leaves the files or renames one. */
  lemma QuietStepEvolves(t: Terms, w: World, next: World)
    requires next == w.(files := next.files, directories := next.directories, faults := LaterFaults(w.faults))
    requires Permuted(w.files, next.files) && w.directories <= next.directories
    requires OnlyApproved(t.moves, w.files, next.files)
    ensures Evolves(t, w, next)
  {
    hide Printable, Readable, Permuted, OnlyApproved;
    LaterFaultsAre(w.faults);
  }

  lemma CheckEvolves(t: Terms, w: World, holds: bool)
    ensures Evolves(t, w, Check(w, holds).0)
    ensures Check(w, holds).0 == w.(faults := LaterFaults(w.faults))
    ensures Check(w, holds).1 == Fine ==> holds
    ensures w.faults == [] ==> (Check(w, holds).1 == Fine <==> holds) && Check(w, holds).0 == w
  {
    QuietStepEvolves(t, w, Check(w, holds).0);
  }

  lemma RenameEvolves(t: Terms, w: World, from: Location, to: Location)
    requires from in w.files ==> Approved(t.moves, from, w.files[from]) && Approved(t.moves, to, w.files[from])
    ensures Evolves(t, w, RenameNoReplace(w, from, to).0)
  {
    hide Approved;
    if from in w.files && to !in w.files { RelocatePermutes(w.files, from, to); }
    QuietStepEvolves(t, w, RenameNoReplace(w, from, to).0);
  }

  lemma MakingEvolves(t: Terms, w: World, at: Location)
    ensures Evolves(t, w, MakeDirectory(w, at).0) && MakeDirectory(w, at).0.files == w.files
  {
    QuietStepEvolves(t, w, MakeDirectory(w, at).0);
  }

  lemma {:induction false} DirectoriesEvolve(t: Terms, w: World, group: string, todo: seq<Location>)
    requires t.plain ==> !HasBreak(group) && forall i :: 0 <= i < |todo| ==> !HasBreak(todo[i].path)
    ensures Evolves(t, w, EnsureDirectories(w, group, todo).0)
    ensures EnsureDirectories(w, group, todo).0.files == w.files
    decreases |todo|
  {
    hide Evolves, Append, MakeDirectory, HasBreak;
    if todo == [] {
      EvolvesNot(t, w);
    } else if todo[0] in w.directories {
      DirectoriesEvolve(t, w, group, todo[1..]);
    } else {
      AppendEvolves(t, w, DirectoryStarted(group, todo[0]));
      var w1 := Append(w, DirectoryStarted(group, todo[0])).0;
      MakingEvolves(t, w1, todo[0]);
      var w2 := MakeDirectory(w1, todo[0]).0;
      AppendEvolves(t, w2, DirectoryCreated(group, todo[0]));
      var w3 := Append(w2, DirectoryCreated(group, todo[0])).0;
      DirectoriesEvolve(t, w3, group, todo[1..]);
      EvolvesTransitive(t, w, w1, w2);
      EvolvesTransitive(t, w, w2, w3);
      EvolvesTransitive(t, w, w3, EnsureDirectories(w3, group, todo[1..]).0);
    }
  }

  /** The directories above a place whose path holds no line break. */
  lemma {:induction false} ParentsPrint(at: Location, n: nat)
    requires !HasBreak(at.path) && n <= |at.path|
    ensures forall i :: 0 <= i < |ParentsWithin(at, n)| ==> !HasBreak(ParentsWithin(at, n)[i].path)
  {
    if n > 0 {
      ParentsPrint(at, n - 1);
      assert forall i :: 0 <= i < n - 1 ==> at.path[..n - 1][i] == at.path[i];
    }
  }

  /** The places above another one: what is left of its path before each slash. */
  lemma {:induction false} ParentsAre(at: Location, n: nat, above: Location)
    requires n <= |at.path|
    ensures above in ParentsWithin(at, n) <==>
            above.root == at.root && |above.path| < n && at.path[|above.path|] == '/' && above.path <= at.path
  {
    if n > 0 {
      ParentsAre(at, n - 1, above);
      if |above.path| == n - 1 && above.path <= at.path {
        assert above.path == at.path[..n - 1];
      }
    }
  }

  /** Once they are ensured, the directories asked for exist, and no others were made. */
  lemma {:induction false} DirectoriesExist(w: World, group: string, todo: seq<Location>)
    ensures
      var (next, signal) := EnsureDirectories(w, group, todo);
      && (forall at :: at in next.directories ==> at in w.directories || at in todo)
      && (signal == Fine ==> forall at :: at in w.directories || at in todo ==> at in next.directories)
    decreases |todo|
  {
    hide Append;
    if todo != [] {
      assert todo == [todo[0]] + todo[1..];
      if todo[0] in w.directories {
        DirectoriesExist(w, group, todo[1..]);
      } else {
        AppendMakesNothing(w, DirectoryStarted(group, todo[0]));
        var w2 := MakeDirectory(Append(w, DirectoryStarted(group, todo[0])).0, todo[0]).0;
        AppendMakesNothing(w2, DirectoryCreated(group, todo[0]));
        DirectoriesExist(Append(w2, DirectoryCreated(group, todo[0])).0, group, todo[1..]);
      }
    }
  }

  lemma AppendMakesNothing(w: World, event: Event)
    ensures Append(w, event).0.directories == w.directories
  {
  }

  /** What the step after `k` more of them meets. */
  function FaultAt(w: World, k: nat): Fault {
    if k < |w.faults| then w.faults[k] else Proceed
  }

  lemma StepMeets(w: World, next: World)
    requires next.faults == LaterFaults(w.faults)
    ensures NextFault(w.faults) == FaultAt(w, 0) && forall k: nat :: FaultAt(next, k) == FaultAt(w, k + 1)
  {
  }

  lemma AppendMeets(w: World, event: Event)
    ensures
      var (next, signal) := Append(w, event);
      && next.files == w.files && (signal == Fine <==> FaultAt(w, 0) == Proceed) && (signal == Halted <==> FaultAt(w, 0) == Stop)
      && forall k: nat :: FaultAt(next, k) == FaultAt(w, k + 1)
  {
    StepMeets(w, Append(w, event).0);
  }

  lemma CheckMeets(w: World, holds: bool)
    ensures
      var (next, signal) := Check(w, holds);
      && next.files == w.files && (signal == Fine <==> FaultAt(w, 0) == Proceed && holds)
      && forall k: nat :: FaultAt(next, k) == FaultAt(w, k + 1)
  {
    StepMeets(w, Check(w, holds).0);
  }

  lemma RenameMeets(w: World, from: Location, to: Location)
    requires from in w.files && to !in w.files
    ensures
      var (next, signal) := RenameNoReplace(w, from, to);
      && (signal == Fine <==> FaultAt(w, 0) == Proceed)
      && (signal == Fine ==> next.files == Relocate(w.files, from, to))
      && forall k: nat :: FaultAt(next, k) == FaultAt(w, k + 1)
  {
    StepMeets(w, RenameNoReplace(w, from, to).0);
  }

  /** Every directory above the place exists. */
  ghost predicate IsReachable(directories: set<Location>, at: Location) {
    forall n :: 0 <= n < |at.path| && at.path[n] == '/' ==> Location(at.root, at.path[..n]) in directories
  }

  lemma EnsuredIsReachable(w: World, group: string, at: Location)
    ensures EnsureDirectories(w, group, Parents(at)).1 == Fine ==>
              IsReachable(EnsureDirectories(w, group, Parents(at)).0.directories, at)
  {
    hide EnsureDirectories;
    DirectoriesExist(w, group, Parents(at));
    forall n | 0 <= n < |at.path| && at.path[n] == '/'
      ensures Location(at.root, at.path[..n]) in Parents(at)
    {
      ParentsAre(at, |at.path|, Location(at.root, at.path[..n]));
    }
  }

  // ---------- reading a journal ----------

  predicate Records(line: Line, event: Event) {
    line.Line? && line.event == event
  }

  /** The event is recorded, and nothing that undoes it is recorded later. */
  ghost predicate Lasts(lines: seq<Line>, event: Event, undoing: set<Event>) {
    exists i :: 0 <= i < |lines| && Records(lines[i], event)
      && forall j, later :: i < j < |lines| && later in undoing ==> !Records(lines[j], later)
  }

  lemma LastsNext(lines: seq<Line>, line: Line, event: Event, undoing: set<Event>)
    requires event !in undoing
    ensures Lasts(lines + [line], event, undoing) <==>
            Records(line, event) || (Lasts(lines, event, undoing) && forall later :: later in undoing ==> !Records(line, later))
  {
    hide Records;
    var next := lines + [line];
    assert next[|lines|] == line && forall i :: 0 <= i < |lines| ==> next[i] == lines[i];
  }

  // ---------- counting lines ----------

  datatype Tally = Tally(announced: nat, finished: nat) {
    function Next(line: Line): Tally {
      match line
      case Line(_, MemberStarted(_)) => Tally(announced + 1, finished)
      case Line(_, MemberCompleted(_)) => Tally(announced, finished + 1)
      case _ => this
    }
  }

  /** How many lines announce a move, and how many record that a member is where it belongs. */
  function TallyOf(lines: seq<Line>): Tally {
    if lines == [] then Tally(0, 0) else TallyOf(lines[..|lines| - 1]).Next(lines[|lines| - 1])
  }

  /** The tally of a journal as long as every line of it reached the disk. */
  lemma TallyNext(w: World, event: Event)
    ensures
      var (next, signal) := Append(w, event);
      signal == Fine ==> TallyOf(next.lines) == TallyOf(w.lines).Next(Line(|w.entries| + 1, event))
  {
    var line := Line(|w.entries| + 1, event);
    assert (w.lines + [line])[..|w.lines|] == w.lines;
  }

  lemma {:induction false} DirectoriesTally(w: World, group: string, todo: seq<Location>)
    ensures
      var (next, signal) := EnsureDirectories(w, group, todo);
      signal == Fine ==> TallyOf(next.lines) == TallyOf(w.lines)
    decreases |todo|
  {
    hide Append, TallyOf;
    if todo != [] {
      if todo[0] in w.directories {
        DirectoriesTally(w, group, todo[1..]);
      } else {
        TallyNext(w, DirectoryStarted(group, todo[0]));
        var w2 := MakeDirectory(Append(w, DirectoryStarted(group, todo[0])).0, todo[0]).0;
        TallyNext(w2, DirectoryCreated(group, todo[0]));
        DirectoriesTally(Append(w2, DirectoryCreated(group, todo[0])).0, group, todo[1..]);
      }
    }
  }

  /** Some journal line ahead will be torn or lose its end. */
  predicate Damages(faults: seq<Fault>) {
    Tear in faults || Cut in faults
  }

  /** Only that makes the journal of a synchronised run unreadable. */
  ghost predicate Clean(before: World, after: World) {
    InSync(before) && before.IsWhole() && !Damages(before.faults) ==> after.IsWhole() && !Damages(after.faults)
  }

  lemma AppendIsClean(w: World, event: Event)
    ensures Clean(w, Append(w, event).0)
    ensures Append(w, event).1 == Fine && InSync(w) ==> InSync(Append(w, event).0)
    ensures w.faults == [] ==> Append(w, event).1 == Fine && Append(w, event).0.faults == []
  {
    hide Breaks, Printable;
    PrintableNext(w.lines, Line(|w.entries| + 1, event));
    LaterFaultsAre(w.faults);
  }

  lemma CheckIsClean(w: World, holds: bool)
    ensures Clean(w, Check(w, holds).0) && (InSync(w) <==> InSync(Check(w, holds).0))
  {
    hide Readable, Printable;
    LaterFaultsAre(w.faults);
  }

  lemma RenameIsClean(w: World, from: Location, to: Location)
    ensures Clean(w, RenameNoReplace(w, from, to).0)
    ensures RenameNoReplace(w, from, to).0.lines == w.lines && RenameNoReplace(w, from, to).0.entries == w.entries
  {
    hide Readable, Printable;
    LaterFaultsAre(w.faults);
  }

  lemma CleanTransitive(a: World, b: World, c: World)
    requires Clean(a, b) && Clean(b, c) && (InSync(a) ==> InSync(b))
    ensures Clean(a, c)
  {
  }

  /** Making directories keeps step with the journal, and fails only by a fault. */
  lemma {:induction false} DirectoriesAreClean(w: World, group: string, todo: seq<Location>)
    ensures
      var (next, signal) := EnsureDirectories(w, group, todo);
      && Clean(w, next) && (signal == Fine && InSync(w) ==> InSync(next))
      && (w.faults == [] ==> signal == Fine && next.faults == [])
    decreases |todo|
  {
    hide Readable, Append, Printable;
    if todo != [] {
      if todo[0] in w.directories {
        DirectoriesAreClean(w, group, todo[1..]);
      } else {
        AppendIsClean(w, DirectoryStarted(group, todo[0]));
        var w1 := Append(w, DirectoryStarted(group, todo[0])).0;
        LaterFaultsAre(w1.faults);
        var w2 := MakeDirectory(w1, todo[0]).0;
        AppendIsClean(w2, DirectoryCreated(group, todo[0]));
        DirectoriesAreClean(Append(w2, DirectoryCreated(group, todo[0])).0, group, todo[1..]);
      }
    }
  }

  /** A fresh run finds an unusable journal in its way, and a resume cannot read it. */
  lemma UnusableIsInTheWay(d: Disk)
    requires d.HasUnusableJournal()
    ensures d.HasJournal() && !(d.lines != [] && d.IsReadable())
  {
  }

  /** After a line that reached the disk without the process knowing, the next line repeats
      its number. */
  lemma OutOfStepIsFatal(w: World, event: Event)
    requires |w.lines| == |w.entries| + 1
    ensures Append(w, event).0.lines != w.lines ==> !Readable(Append(w, event).0.lines)
  {
    var next := Append(w, event).0;
    if next.lines != w.lines {
      assert !next.lines[|w.lines|].Line? || next.lines[|w.lines|].sequence == |w.lines|;
    }
  }
}
