/** A run that reports a complete rollback although a loser stayed in quarantine. Which runs
    end like that is settled, of any plan, by `QuarantineTheorems.FailedAttemptIsUndone`. */
module QuarantineWitness {
  import opened MediaStore
  import opened QuarantineModel
  import opened QuarantineExecution
  import opened QuarantineTheorems
  import opened Schedules

  const COPY := Loser(Location("shows", "b.mkv"), Location("away", "b.mkv"), "b.mkv", Fingerprint(7, 11, None))
  const KEPT := Winner(Location("shows", "a.mkv"), Location("library", "a.mkv"), Fingerprint(7, 12, None))
  const ONE_LOSER := Plan([LoserGroup("g", KEPT, [COPY])])
  const BEFORE: Files := map[Location("shows", "b.mkv") := File(0, 7, 11, ""), Location("library", "a.mkv") := File(1, 7, 12, "")]
  const AWAY := Relocate(BEFORE, COPY.source, COPY.quarantine)
  const FIRST := Unjournaled(BEFORE, {})

  const KEY := KeyOf("g", COPY)
  const BEGUN: seq<Line> := [Line(1, RunStarted)]
  const SORTED: seq<Line> := BEGUN + [Line(2, GroupStarted("g"))]
  const STARTED: seq<Line> := SORTED + [Line(3, MemberStarted(KEY))]
  const ENDED: seq<Line> := STARTED + [Line(4, GroupFailed("g"))]

  /** The look that follows the rename fails, or an interrupt arrives during it. */
  const LOOK_FAILS: seq<Fault> := After(9, [Fail])

  lemma States()
    ensures StateOfLoser(BEFORE, COPY) == AtHome && StateOfLoser(AWAY, COPY) == Quarantined
    ensures StateOfWinner(BEFORE, KEPT) == Organized && CanRename(BEFORE, COPY.source, COPY.quarantine)
    ensures MayStart(BEFORE, ONE_LOSER)
    ensures !HasBreak("g") && !KeyBreaks(KEY)
  {
  }

  lemma PlanIsSound()
    ensures Sound(ONE_LOSER)
  {
    forall g, m | ONE_LOSER.Has(g, m)
      ensures g == 0 && m == COPY
    {
    }
  }

  lemma StateOfBegun()
    ensures StateOf(BEGUN) == JournalState({}, {}, {}, false)
  {
    hide StateOf;
    StateOfNothing();
    var none: seq<Line> := [];
    StateOfAppend(none, Line(1, RunStarted));
    assert none + BEGUN == BEGUN;
  }

  lemma Begins()
    ensures Begin(ONE_LOSER, FIRST, false, LOOK_FAILS) == (Process(BEFORE, BEGUN, After(7, [Fail])), Fine)
  {
    hide MayStart;
    States();
    Checks(Launch(FIRST, LOOK_FAILS), 9, [Fail]);
    AfterStep(8, [Fail]);
    var none: seq<Line> := [];
    assert none + BEGUN == BEGUN;
  }

  lemma Sorts(w: QuarantineWorld)
    requires w == Process(BEFORE, BEGUN, After(6, [Fail]))
    ensures Sort(w, "g", JournalState({}, {}, {}, false), [COPY], [], 0)
            == Sorting(Process(BEFORE, BEGUN, After(5, [Fail])), Fine, [COPY], 0)
  {
    hide StateOfLoser, Check;
    States();
    Checks(w, 6, [Fail]);
    assert [COPY][1..] == [] && [] + [COPY] == [COPY];
  }

  lemma NoDirectories(w: QuarantineWorld)
    ensures EnsureDirectories(w, "g", Parents(COPY.quarantine)) == (w, Fine)
  {
    var at := COPY.quarantine;
    assert ParentsWithin(at, 0) == [] && ParentsWithin(at, 1) == [] && ParentsWithin(at, 2) == [];
    assert ParentsWithin(at, 3) == [] && ParentsWithin(at, 4) == [] && ParentsWithin(at, 5) == [];
  }

  lemma MoveStops()
    ensures MoveOne(Process(BEFORE, SORTED, After(3, [Fail])), "g", COPY, [])
            == Progress(Process(AWAY, STARTED, []), Raised, [])
  {
    hide EnsureDirectories, Append, StateOfLoser, KeyBreaks;
    States();
    var w := Process(BEFORE, SORTED, After(3, [Fail]));
    NoDirectories(w);
    Appends(BEFORE, SORTED, MemberStarted(KEY), 3, [Fail]);
    Checks(Process(BEFORE, STARTED, After(2, [Fail])), 2, [Fail]);
    AfterStep(1, [Fail]);
    assert After(0, [Fail]) == [Fail] && [Fail][1..] == [];
  }

  lemma TriesOnce()
    ensures TryGroup(Process(BEFORE, SORTED, After(4, [Fail])), "g", [COPY]) == Progress(Process(AWAY, STARTED, []), Raised, [])
  {
    hide MoveOne, StateOfLoser, Check;
    States();
    Checks(Process(BEFORE, SORTED, After(4, [Fail])), 4, [Fail]);
    MoveStops();
    assert forall m | m in [COPY] :: StateOfLoser(BEFORE, m) == AtHome;
  }

  lemma HandlesNothing()
    ensures Handle(Process(AWAY, STARTED, []), "g", []) == (Process(AWAY, ENDED, []), Interrupted("g", true))
  {
    States();
    assert UndoAll(Process(AWAY, STARTED, []), "g", [], []) == Undo(Process(AWAY, STARTED, []), false, []);
  }

  /** The run reports that everything was put back, and the loser is in quarantine. */
  lemma FailedLookStrandsLoser()
    ensures Sound(ONE_LOSER) && MayStart(BEFORE, ONE_LOSER)
    ensures
      var (next, outcome) := Execute(ONE_LOSER, FIRST, false, LOOK_FAILS);
      && outcome == Interrupted("g", true) && next.files == AWAY
      && StateOfLoser(BEFORE, COPY) == AtHome && StateOfLoser(next.files, COPY) == Quarantined
  {
    hide Begin, Sort, TryGroup, Handle, StateOf, StateOfLoser, StateOfWinner, Append, MayStart, Check, KeyBreaks;
    States();
    PlanIsSound();
    Begins();
    StateOfBegun();
    Checks(Process(BEFORE, BEGUN, After(7, [Fail])), 7, [Fail]);
    Sorts(Process(BEFORE, BEGUN, After(6, [Fail])));
    Appends(BEFORE, BEGUN, GroupStarted("g"), 5, [Fail]);
    TriesOnce();
    HandlesNothing();
  }
}
