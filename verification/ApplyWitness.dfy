/** Concrete runs that end badly: the journal still says "completed" for a restored file, or
    holds a number twice, or falls into pieces at a line break; or a rollback is reported as
    safe although a file stayed at its destination. Which runs end like that is settled, for
    all inputs, by `ApplyTheorems`. */
module ApplyWitness {
  import opened MediaStore
  import opened ApplyContract
  import opened ApplyExecution
  import opened ApplyInvariant
  import opened ApplySafety
  import opened ApplyRecovery
  import opened ApplyTheorems
  import opened JournalFacts
  import opened Schedules

  /** One file is to move; `name` is its path under the source root. */
  function Episode(name: string): Member {
    Member(Video, Location("shows", name), Location("library", "b.mkv"), name, "b.mkv", Path(name, "b.mkv"), Fingerprint(7, 11, None))
  }

  function OneMove(name: string): Contract {
    Contract([Group("g", [Episode(name)])])
  }

  function Before(name: string): Files {
    map[Location("shows", name) := File(0, 7, 11, "")]
  }

  const NAME := "a.mkv"
  const EPISODE := Episode(NAME)
  const ONE_MOVE := OneMove(NAME)
  const BEFORE := Before(NAME)

  function NothingDone(name: string): Disk {
    Unjournaled(Before(name), {})
  }

  lemma OneMoveIsFine(name: string)
    ensures OneMove(name).WellFormed() && OneMove(name).DistinctPaths()
    ensures OneMove(name).groups[0].Moving() == [Episode(name)]
    ensures AllRevalidated(Before(name), OneMove(name))
  {
    assert MovingMembers([Episode(name)]) == [Episode(name)] by { assert MovingMembers([]) == []; }
    forall g, m | OneMove(name).Has(g, m)
      ensures g == 0 && m == Episode(name)
    {
    }
  }

  function KeyFor(name: string): Key {
    MemberKey("g", Episode(name))
  }

  function Moved(name: string): Files {
    Relocate(Before(name), Episode(name).source, Episode(name).destination)
  }

  const KEY := KeyFor(NAME)
  const MOVED := Moved(NAME)
  const BEGUN: seq<Line> := [Line(1, RunStarted)]
  const SORTED: seq<Line> := BEGUN + [Line(2, GroupStarted("g"))]

  function Started(name: string): seq<Line> {
    SORTED + [Line(3, MemberStarted(KeyFor(name)))]
  }

  const STARTED := Started(NAME)
  const RECORDED: seq<Line> := STARTED + [Line(4, MemberCompleted(KEY))]
  const UNDOING: seq<Line> := RECORDED + [Line(5, RollbackStarted(KEY))]

  lemma PlainNames()
    ensures !HasBreak("g") && !KeyBreaks(KEY)
  {
  }

  lemma StateOfEmpty()
    ensures StateOf([]) == JournalState({}, {}, {}, false)
  {
  }

  lemma StateOfBegun()
    ensures StateOf(BEGUN) == JournalState({}, {}, {}, false)
  {
    hide StateOf;
    StateOfEmpty();
    var none: seq<Line> := [];
    StateOfAppend(none, Line(1, RunStarted));
    assert none + BEGUN == BEGUN;
  }

  // ---------- the beginning of a run ----------

  lemma BeginsWell(name: string, n: nat, rest: seq<Fault>)
    requires n >= 2
    ensures Begin(OneMove(name), NothingDone(name), false, After(n, rest)) == (Process(Before(name), BEGUN, After(n - 2, rest)), Fine)
  {
    hide AllRevalidated;
    OneMoveIsFine(name);
    Checks(Launch(NothingDone(name), After(n, rest)), n, rest);
    AfterStep(n - 1, rest);
    var none: seq<Line> := [];
    assert none + BEGUN == BEGUN;
  }

  lemma SortsFresh(name: string, w: ApplyWorld)
    ensures Sort(w, "g", JournalState({}, {}, {}, false), [Episode(name)], [], [], 0) == Sorting(w, Fine, [], [Episode(name)], 0)
  {
    assert [Episode(name)][1..] == [] && [] + [Episode(name)] == [Episode(name)];
    assert Sort(w, "g", JournalState({}, {}, {}, false), [], [], [Episode(name)], 0) == Sorting(w, Fine, [], [Episode(name)], 0);
  }

  lemma NoDirectories(w: ApplyWorld, name: string)
    ensures EnsureDirectories(w, "g", Parents(Episode(name).destination)) == (w, Fine)
  {
    var at := Episode(name).destination;
    assert ParentsWithin(at, 0) == [] && ParentsWithin(at, 1) == [] && ParentsWithin(at, 2) == [];
    assert ParentsWithin(at, 3) == [] && ParentsWithin(at, 4) == [] && ParentsWithin(at, 5) == [];
  }

  lemma IsReady(name: string)
    ensures Revalidate(Before(name), Episode(name))
    ensures forall m | m in [Episode(name)] :: Revalidate(Before(name), m)
    ensures VerifyDestination(Moved(name), Episode(name)) && !Revalidate(Moved(name), Episode(name))
    ensures CanRename(Before(name), Episode(name).source, Episode(name).destination)
  {
  }

  /** A fresh run comes to the guarded part of its one group, and ends as this part ends. */
  lemma RunsFresh(name: string, n: nat, rest: seq<Fault>)
    requires n >= 3
    ensures
      var p := TryGroup(Process(Before(name), SORTED, After(n - 3, rest)), "g", [Episode(name)], [], 0);
      && (p.signal == Halted ==> Execute(OneMove(name), NothingDone(name), false, After(n, rest)) == (p.world, Crashed(false)))
      && (p.signal == Raised ==> Execute(OneMove(name), NothingDone(name), false, After(n, rest)) == Handle(p.world, "g", p.completed))
  {
    hide Begin, Sort, TryGroup, Handle, StateOf, AllVerified, MovingMembers, Append;
    OneMoveIsFine(name);
    BeginsWell(name, n, rest);
    StateOfBegun();
    var w := Process(Before(name), BEGUN, After(n - 2, rest));
    SortsFresh(name, w);
    PlainNames();
    Appends(Before(name), BEGUN, GroupStarted("g"), n - 2, rest);
  }

  /** The member is announced. */
  lemma AnnouncesWell(name: string, n: nat, rest: seq<Fault>)
    requires n >= 2 && !KeyBreaks(KeyFor(name))
    ensures Announce(Process(Before(name), SORTED, After(n, rest)), "g", Episode(name))
            == (Process(Before(name), Started(name), After(n - 2, rest)), Fine)
  {
    hide EnsureDirectories, Append, Check, Revalidate, KeyBreaks;
    var w := Process(Before(name), SORTED, After(n, rest));
    NoDirectories(w, name);
    IsReady(name);
    Checks(w, n, rest);
    Appends(Before(name), SORTED, MemberStarted(KeyFor(name)), n - 1, rest);
  }

  lemma TriesWell(name: string, w: ApplyWorld, n: nat, rest: seq<Fault>)
    requires n >= 1 && w.files == Before(name) && w.faults == After(n, rest)
    ensures TryGroup(w, "g", [Episode(name)], [], 0) == MoveAll(w.(faults := After(n - 1, rest)), "g", [Episode(name)], [], 0)
  {
    hide MoveAll, Check, Revalidate;
    IsReady(name);
    Checks(w, n, rest);
  }

  /** A first move that does not go through ends the guarded part. */
  lemma MoveEnds(name: string, w: ApplyWorld)
    requires MoveOne(w, "g", Episode(name), [], 0).signal != Fine
    ensures MoveAll(w, "g", [Episode(name)], [], 0) == MoveOne(w, "g", Episode(name), [], 0)
  {
    hide MoveOne;
  }

  lemma MovesWell(n: nat, rest: seq<Fault>)
    requires n >= 5
    ensures MoveOne(Process(BEFORE, SORTED, After(n, rest)), "g", EPISODE, [], 0)
            == Progress(Process(MOVED, RECORDED, After(n - 5, rest)), Fine, [EPISODE], 1)
  {
    hide Announce, Append, Check, VerifyDestination;
    PlainNames();
    AnnouncesWell(NAME, n, rest);
    IsReady(NAME);
    AfterStep(n - 2, rest);
    Checks(Process(MOVED, STARTED, After(n - 3, rest)), n - 3, rest);
    Appends(MOVED, STARTED, MemberCompleted(KEY), n - 4, rest);
  }

  // ---------- a completion that is not taken back ----------

  /** The move succeeds, recording the completed group fails, the file is restored, and
      then `last` meets the line that would take the completion back. */
  function LateFailure(last: Fault): seq<Fault> {
    After(9, [Fail] + After(4, [last]))
  }

  lemma StaleMove(last: Fault)
    ensures TryGroup(Process(BEFORE, SORTED, After(6, [Fail] + After(4, [last]))), "g", [EPISODE], [], 0)
            == Progress(Process(MOVED, RECORDED, After(4, [last])), Raised, [EPISODE], 1)
  {
    hide MoveOne;
    var rest := [Fail] + After(4, [last]);
    TriesWell(NAME, Process(BEFORE, SORTED, After(6, rest)), 6, rest);
    MovesWell(5, rest);
    StaleGroupLine(last);
    assert [EPISODE][1..] == [];
  }

  /** The line that would complete the group meets the failure. */
  lemma StaleGroupLine(last: Fault)
    ensures MoveAll(Process(MOVED, RECORDED, [Fail] + After(4, [last])), "g", [], [EPISODE], 1)
            == Progress(Process(MOVED, RECORDED, After(4, [last])), Raised, [EPISODE], 1)
  {
  }

  lemma StaleUndo(last: Fault)
    requires last == Stop || last == Fail
    ensures UndoOne(Process(MOVED, RECORDED, After(4, [last])), "g", EPISODE, [])
            == Undo(Process(BEFORE, UNDOING, []), last == Stop, [])
  {
    hide Check, Append, VerifyDestination, VerifySource;
    PlainNames();
    IsReady(NAME);
    Appends(MOVED, RECORDED, RollbackStarted(KEY), 4, [last]);
    Checks(Process(MOVED, UNDOING, After(3, [last])), 3, [last]);
    AfterStep(2, [last]);
    assert Relocate(MOVED, EPISODE.destination, EPISODE.source) == BEFORE;
    assert VerifySource(BEFORE, EPISODE) by { RestoredNow(); }
    Checks(Process(BEFORE, UNDOING, After(1, [last])), 1, [last]);
    LastLineFails(last);
  }

  lemma RestoredNow()
    ensures VerifySource(BEFORE, EPISODE)
  {
  }

  lemma LastLineFails(last: Fault)
    requires last == Stop || last == Fail
    ensures Append(Process(BEFORE, UNDOING, After(0, [last])), RollbackCompleted(KEY))
            == (Process(BEFORE, UNDOING, []), if last == Stop then Halted else Raised)
  {
    assert After(0, [last]) == [last] && [last][1..] == [];
  }

  lemma StaleHandle(last: Fault)
    requires last == Stop || last == Fail
    ensures Handle(Process(MOVED, RECORDED, After(4, [last])), "g", [EPISODE])
            == if last == Stop then (Process(BEFORE, UNDOING, []), Crashed(true))
               else (Process(BEFORE, UNDOING + [Line(6, GroupFailed("g"))], []), RolledBackSafely("g"))
  {
    hide UndoOne;
    StaleUndo(last);
    PlainNames();
    var done := Process(BEFORE, UNDOING, []);
    assert UndoAll(done, "g", [], []) == Undo(done, false, []);
    assert [EPISODE][..0] == [];
  }

  lemma StaleJournal(last: Fault)
    requires last == Stop || last == Fail
    ensures
      var (next, outcome) := Execute(ONE_MOVE, NothingDone(NAME), false, LateFailure(last));
      && outcome == (if last == Stop then Crashed(true) else RolledBackSafely("g"))
      && next.files == BEFORE
      && KEY in StateOf(next.lines).completedMembers
  {
    hide Execute, TryGroup, Handle, StateOf;
    RunsFresh(NAME, 9, [Fail] + After(4, [last]));
    StaleMove(last);
    StaleHandle(last);
    StateOfAppend(BEGUN, Line(2, GroupStarted("g")));
    StateOfAppend(SORTED, Line(3, MemberStarted(KEY)));
    StateOfAppend(STARTED, Line(4, MemberCompleted(KEY)));
    StateOfAppend(RECORDED, Line(5, RollbackStarted(KEY)));
    StateOfAppend(UNDOING, Line(6, GroupFailed("g")));
  }

  /** Neither a stop between restoring a file and recording it, nor a swallowed failure to
      record it (where the run even reports a safe rollback), can be resumed from. */
  lemma StaleJournalBlocksResume(last: Fault, faults: seq<Fault>)
    requires last == Stop || last == Fail
    ensures
      var d := Execute(ONE_MOVE, NothingDone(NAME), false, LateFailure(last)).0.Durable();
      var (next, outcome) := Execute(ONE_MOVE, d, true, faults);
      next.files == BEFORE && outcome.Declined()
  {
    hide Execute, StateOf;
    OneMoveIsFine(NAME);
    StaleJournal(last);
    var d := Execute(ONE_MOVE, NothingDone(NAME), false, LateFailure(last)).0.Durable();
    RunIsLawful(ONE_MOVE, BEFORE, NothingDone(NAME), false, LateFailure(last));
    StateOfEmpty();
    assert !Agrees(ONE_MOVE, d.files, StateOf(d.lines)) by {
      var g := 0;
      assert EPISODE in ONE_MOVE.groups[g].Moving() && Vouches(StateOf(d.lines), ONE_MOVE.groups[g].id, EPISODE);
      assert !VerifyDestination(d.files, EPISODE);
    }
    DisagreementFailsClosed(ONE_MOVE, BEFORE, d, faults);
  }

  // ---------- a line that is there unnoticed ----------

  /** The start of the member is on the disk, but the process is told that it is not. */
  const UNACKNOWLEDGED: seq<Fault> := After(5, [Unacknowledged])

  /** The run reports a safe rollback, and leaves two lines with one number: no later run,
      however often it is repeated, gets anywhere. */
  lemma UnacknowledgedLineIsFinal(runs: seq<Run>, again: Run)
    ensures
      var (next, outcome) := Execute(ONE_MOVE, NothingDone(NAME), false, UNACKNOWLEDGED);
      && outcome == RolledBackSafely("g") && next.files == BEFORE && !Readable(next.lines)
      && Campaign(ONE_MOVE, next.Durable(), runs) == next.Durable()
      && Execute(ONE_MOVE, next.Durable(), again.resume, again.faults).1.Declined()
  {
    hide Execute, TryGroup, Handle, Readable, Campaign;
    RunsFresh(NAME, 5, [Unacknowledged]);
    UnacknowledgedEnd();
    var next := Execute(ONE_MOVE, NothingDone(NAME), false, UNACKNOWLEDGED).0;
    UnusableJournalIsFinal(ONE_MOVE, next.Durable(), runs, again.resume, again.faults);
  }

  lemma UnacknowledgedEnd()
    ensures
      var p := TryGroup(Process(BEFORE, SORTED, After(2, [Unacknowledged])), "g", [EPISODE], [], 0);
      var (next, outcome) := Handle(p.world, "g", p.completed);
      && p.signal == Raised && outcome == RolledBackSafely("g") && next.files == BEFORE && !Readable(next.lines)
  {
    hide EnsureDirectories, MoveOne, HasBreak;
    var w := Process(BEFORE, SORTED, After(2, [Unacknowledged]));
    TriesWell(NAME, w, 2, [Unacknowledged]);
    UnacknowledgedMove();
    MoveEnds(NAME, Process(BEFORE, SORTED, After(1, [Unacknowledged])));
    var behind := Process(BEFORE, SORTED, []).(lines := STARTED);
    assert UndoAll(behind, "g", [], []) == Undo(behind, false, []);
    OutOfStepIsFatal(behind, GroupFailed("g"));
  }

  lemma UnacknowledgedMove()
    ensures MoveOne(Process(BEFORE, SORTED, After(1, [Unacknowledged])), "g", EPISODE, [], 0)
            == Progress(Process(BEFORE, SORTED, []).(lines := STARTED), Raised, [], 0)
  {
    hide EnsureDirectories, Revalidate, Check;
    var w := Process(BEFORE, SORTED, After(1, [Unacknowledged]));
    NoDirectories(w, NAME);
    IsReady(NAME);
    Checks(w, 1, [Unacknowledged]);
    PlainNames();
  }

  // ---------- members that a rollback does not know of ----------

  /** The rename took effect, but an interrupt arrived before the member was listed: the run
      reports a safe rollback with the file at its destination. */
  lemma LostRenameStays()
    ensures
      var (next, outcome) := Execute(ONE_MOVE, NothingDone(NAME), false, After(6, [Unacknowledged]));
      outcome == RolledBackSafely("g") && next.files == MOVED && VerifyDestination(next.files, EPISODE)
  {
    hide Execute, TryGroup, Handle;
    RunsFresh(NAME, 6, [Unacknowledged]);
    LostRename();
    NothingToUndo(Process(MOVED, STARTED, []));
    IsReady(NAME);
  }

  lemma LostRename()
    ensures TryGroup(Process(BEFORE, SORTED, After(3, [Unacknowledged])), "g", [EPISODE], [], 0)
            == Progress(Process(MOVED, STARTED, []), Raised, [], 0)
  {
    hide Announce, MoveAll;
    PlainNames();
    TriesWell(NAME, Process(BEFORE, SORTED, After(3, [Unacknowledged])), 3, [Unacknowledged]);
    AnnouncesWell(NAME, 2, [Unacknowledged]);
    IsReady(NAME);
    MoveEnds(NAME, Process(BEFORE, SORTED, After(2, [Unacknowledged])));
  }

  lemma NothingToUndo(w: ApplyWorld)
    requires w.faults == []
    ensures
      var (next, outcome) := Handle(w, "g", []);
      outcome == RolledBackSafely("g") && next.files == w.files
  {
    assert UndoAll(w, "g", [], []) == Undo(w, false, []);
  }

  /** The process stops right after the rename. */
  lemma StoppedAfterRename(name: string)
    requires !KeyBreaks(KeyFor(name))
    ensures Execute(OneMove(name), NothingDone(name), false, After(7, [Stop]))
            == (Process(Moved(name), Started(name), []), Crashed(false))
  {
    hide Execute, Announce, MoveAll, Handle, KeyBreaks;
    RunsFresh(name, 7, [Stop]);
    TriesWell(name, Process(Before(name), SORTED, After(4, [Stop])), 4, [Stop]);
    AnnouncesWell(name, 3, [Stop]);
    IsReady(name);
    MoveEnds(name, Process(Before(name), SORTED, After(3, [Stop])));
  }

  /** Resumed, it cannot read the moved file and takes it for a pending one: the run reports
      a safe rollback with the file at its destination. */
  lemma MisjudgedMemberStays()
    ensures
      var d := Execute(ONE_MOVE, NothingDone(NAME), false, After(7, [Stop])).0.Durable();
      var (next, outcome) := Execute(ONE_MOVE, d, true, After(1, [Fail]));
      outcome == RolledBackSafely("g") && next.files == MOVED && VerifyDestination(next.files, EPISODE)
  {
    hide Execute, StateOf, TryGroup, Handle, KeyBreaks;
    PlainNames();
    StoppedAfterRename(NAME);
    OneMoveIsFine(NAME);
    IsReady(NAME);
    var d := Disk(MOVED, STARTED, Ended, {});
    var w := Process(MOVED, STARTED, [Fail]);
    StartedIsReadable();
    Checks(Launch(d, After(1, [Fail])), 1, [Fail]);
    assert Begin(ONE_MOVE, d, true, After(1, [Fail])) == (w, Fine);
    StateOfStarted();
    Misjudged();
    ResumeEnds(d);
  }

  lemma StartedIsReadable()
    ensures Readable(STARTED) && STARTED != []
  {
    assert STARTED == [Line(1, RunStarted), Line(2, GroupStarted("g")), Line(3, MemberStarted(KEY))];
  }

  lemma StateOfStarted()
    ensures StateOf(STARTED) == JournalState({}, {}, {KEY}, false)
  {
    hide StateOf;
    StateOfBegun();
    StateOfAppend(BEGUN, Line(2, GroupStarted("g")));
    StateOfAppend(SORTED, Line(3, MemberStarted(KEY)));
  }

  lemma Misjudged()
    ensures Sort(Process(MOVED, STARTED, [Fail]), "g", JournalState({}, {}, {KEY}, false), [EPISODE], [], [], 0)
            == Sorting(Process(MOVED, STARTED, []), Fine, [], [EPISODE], 0)
  {
    IsReady(NAME);
    assert [EPISODE][1..] == [] && [] + [EPISODE] == [EPISODE];
    var w := Process(MOVED, STARTED, []);
    assert Sort(w, "g", JournalState({}, {}, {KEY}, false), [], [], [EPISODE], 0) == Sorting(w, Fine, [], [EPISODE], 0);
  }

  lemma ResumeEnds(d: Disk)
    requires Begin(ONE_MOVE, d, true, After(1, [Fail])) == (Process(MOVED, STARTED, [Fail]), Fine)
    ensures
      var (next, outcome) := Execute(ONE_MOVE, d, true, After(1, [Fail]));
      outcome == RolledBackSafely("g") && next.files == MOVED
  {
    hide Begin, Sort, StateOf, MoveAll, Handle, Append, MovingMembers;
    PlainNames();
    OneMoveIsFine(NAME);
    StateOfStarted();
    Misjudged();
    var w1 := Process(MOVED, STARTED + [Line(4, GroupStarted("g"))], []);
    Resorted();
    IsReady(NAME);
    assert EPISODE in [EPISODE];
    assert TryGroup(w1, "g", [EPISODE], [], 0) == Progress(w1, Raised, [], 0);
    NothingToUndo(w1);
  }

  lemma Resorted()
    ensures Append(Process(MOVED, STARTED, []), GroupStarted("g")) == (Process(MOVED, STARTED + [Line(4, GroupStarted("g"))], []), Fine)
  {
    PlainNames();
  }

  // ---------- a line break in a path ----------

  /** A line separator in a file name that no rule of the planner forbids. */
  const BROKEN_NAME := "a\U{2028}.mkv"

  /** The run is stopped after the file was moved; its journal falls into pieces at the line
      separator, and no later run, however often it is repeated, completes or undoes the move. */
  lemma LineBreakIsFinal(runs: seq<Run>, again: Run)
    ensures
      var c := OneMove(BROKEN_NAME);
      var next := Execute(c, NothingDone(BROKEN_NAME), false, After(7, [Stop])).0;
      && next.files == Moved(BROKEN_NAME) && Readable(next.lines) && !Printable(next.lines)
      && Campaign(c, next.Durable(), runs) == next.Durable()
      && Execute(c, next.Durable(), again.resume, again.faults).1.Declined()
  {
    hide Execute, TryGroup, Handle, Campaign, Readable, Printable;
    RunsFresh(BROKEN_NAME, 7, [Stop]);
    BrokenMove();
    BrokenLines();
    var next := Execute(OneMove(BROKEN_NAME), NothingDone(BROKEN_NAME), false, After(7, [Stop])).0;
    UnusableJournalIsFinal(OneMove(BROKEN_NAME), next.Durable(), runs, again.resume, again.faults);
  }

  lemma BrokenLines()
    ensures Readable(Started(BROKEN_NAME)) && !Printable(Started(BROKEN_NAME))
    ensures KeyBreaks(KeyFor(BROKEN_NAME))
  {
    assert IsBreak(BROKEN_NAME[1]);
    var lines := Started(BROKEN_NAME);
    assert lines == [Line(1, RunStarted), Line(2, GroupStarted("g")), Line(3, MemberStarted(KeyFor(BROKEN_NAME)))];
    assert Breaks(lines[2].event);
  }

  lemma BrokenMove()
    ensures TryGroup(Process(Before(BROKEN_NAME), SORTED, After(4, [Stop])), "g", [Episode(BROKEN_NAME)], [], 0)
            == Progress(Process(Moved(BROKEN_NAME), Started(BROKEN_NAME), []).(shape := Garbled), Halted, [Episode(BROKEN_NAME)], 0)
  {
    hide EnsureDirectories, MoveAll, KeyBreaks;
    BrokenLines();
    IsReady(BROKEN_NAME);
    TriesWell(BROKEN_NAME, Process(Before(BROKEN_NAME), SORTED, After(4, [Stop])), 4, [Stop]);
    NoDirectories(Process(Before(BROKEN_NAME), SORTED, After(3, [Stop])), BROKEN_NAME);
    Checks(Process(Before(BROKEN_NAME), SORTED, After(3, [Stop])), 3, [Stop]);
    AfterStep(2, [Stop]);
    AfterStep(1, [Stop]);
    MoveEnds(BROKEN_NAME, Process(Before(BROKEN_NAME), SORTED, After(3, [Stop])));
  }
}
