/** What `execute_quarantine` guarantees over whole runs and any sequence of runs. */
module QuarantineTheorems {
  import opened MediaStore
  import opened QuarantineModel
  import opened QuarantineExecution
  import opened QuarantineInvariant
  import opened QuarantineSafety
  import opened QuarantineConservation
  import opened JournalFacts

  /** The disks that quarantine runs can leave behind, from `start` and no journal. */
  ghost predicate Lawful(p: Plan, start: Files, d: Disk) {
    if d.lines == [] then d.files == start
    else MayStart(start, p) && Invariant(p, start, d.files, StateOf(d.lines))
  }

  ghost predicate Sound(p: Plan) {
    p.WellFormed() && p.RootsApart() && p.WinnersApart()
  }

  lemma BeginKeeps(p: Plan, start: Files, d: Disk, resume: bool, faults: seq<Fault>)
    requires Sound(p) && Lawful(p, start, d)
    ensures
      var (w, signal) := Begin(p, d, resume, faults);
      && Lawful(p, start, w.Durable())
      && (signal == Fine ==> InSync(w) && w.lines != [] && Good(p, start, w))
      && (signal == Fine && !resume ==> StateOf(w.lines) == JournalState({}, {}, {}, false) && w.files == start)
      && (signal == Fine && resume ==> w == Abreast(d, w.faults))
      && (faults == [] && resume && d.lines != [] && d.IsReadable() ==> signal == Fine && w == Abreast(d, []))
  {
    hide Invariant, Plan.WellFormed, Plan.RootsApart, Plan.WinnersApart, StateOfLoser, StateOfWinner, StateOf,
      Disk.IsReadable, Breaks;
    if !resume && !d.HasJournal() && MayStart(d.files, p) {
      InvariantAtStart(p, start);
      StateOfAppend([], Line(1, RunStarted));
      StateOfAppend([], Broken);
      StateOfNothing();
    }
  }

  lemma RunIsLawful(p: Plan, start: Files, d: Disk, resume: bool, faults: seq<Fault>)
    requires Sound(p) && Lawful(p, start, d)
    ensures Lawful(p, start, Execute(p, d, resume, faults).0.Durable())
  {
    hide Invariant, StateOf, RunGroups, AllHold;
    BeginKeeps(p, start, d, resume, faults);
    var (w, signal) := Begin(p, d, resume, faults);
    if signal == Fine && !StateOf(w.entries).runCompleted {
      RunGroupsKeep(p, start, w, 0, StateOf(w.entries).completedGroups, 0, 0);
      TermsPermit(p, false);
      RunGroupsEvolve(TermsOf(p, false), w, p, 0, StateOf(w.entries).completedGroups, 0, 0);
    }
  }

  lemma {:induction false} CampaignIsLawful(p: Plan, start: Files, d: Disk, runs: seq<Run>)
    requires Sound(p) && Lawful(p, start, d)
    ensures Lawful(p, start, Campaign(p, d, runs))
    decreases |runs|
  {
    hide Execute, Lawful;
    if runs != [] {
      RunIsLawful(p, start, d, runs[0].resume, runs[0].faults);
      CampaignIsLawful(p, start, Execute(p, d, runs[0].resume, runs[0].faults).0.Durable(), runs[1..]);
    }
  }

  /** In every reachable state, over failures, stops and resumes: every loser's own file is
      at home or in quarantine, quarantined files have the approved attributes and are announced, nothing else changed, every
      winner's approved file is still the one at its organized place and nowhere else, and a journaled completion means that every loser is
      in quarantine. */
  lemma CampaignIsSafe(p: Plan, start: Files, directories: set<Location>, runs: seq<Run>)
    requires Sound(p)
    ensures
      var d := Campaign(p, Unjournaled(start, directories), runs);
      if d.lines == [] then d.files == start
      else
        && Conserved(p, start, d.files)
        && (forall g :: 0 <= g < |p.groups| ==>
              var w := p.groups[g].winner;
              && w.organized in start && StandsOrganized(d.files, w) && d.files[w.organized] == start[w.organized])
        && (forall g, m :: p.Has(g, m) && Away(start, d.files, m) ==>
              && HasAttributes(start[m.source], m.fingerprint)
              && KeyOf(p.groups[g].id, m) in StateOf(d.lines).startedMembers + StateOf(d.lines).completedMembers)
        && (StateOf(d.lines).runCompleted ==> forall g, m :: p.Has(g, m) ==> Away(start, d.files, m))
  {
    CampaignIsLawful(p, start, Unjournaled(start, directories), runs);
    var d := Campaign(p, Unjournaled(start, directories), runs);
    if d.lines != [] {
      forall g | 0 <= g < |p.groups|
        ensures
          var w := p.groups[g].winner;
          && w.organized in start && StandsOrganized(d.files, w) && d.files[w.organized] == start[w.organized]
      {
        WinnersStay(p, start, d.files, StateOf(d.lines), g);
      }
      forall g, m | p.Has(g, m) && Away(start, d.files, m)
        ensures HasAttributes(start[m.source], m.fingerprint)
      {
        LoserFacts(p, start, d.files, StateOf(d.lines), g, m);
      }
    }
  }

  // ---------- journals that no run can use ----------

  /** An existing empty journal file, and a journal that cannot be read, are for good: every
      later run, fresh or resumed, ends with an error and changes nothing. */
  lemma {:induction false} UnusableJournalIsFinal(p: Plan, d: Disk, runs: seq<Run>, resume: bool,
                                                  faults: seq<Fault>)
    requires d.HasUnusableJournal()
    ensures Campaign(p, d, runs) == d
    ensures Execute(p, d, resume, faults).1.Declined() && Execute(p, d, resume, faults).0.Durable() == d
    decreases |runs|
  {
    hide Execute, Disk.HasUnusableJournal;
    UnusableJournalDeclines(p, d, resume, faults);
    if runs != [] {
      UnusableJournalIsFinal(p, d, runs[1..], runs[0].resume, runs[0].faults);
    }
  }

  lemma UnusableJournalDeclines(p: Plan, d: Disk, resume: bool, faults: seq<Fault>)
    requires d.HasUnusableJournal()
    ensures Execute(p, d, resume, faults).1.Declined() && Execute(p, d, resume, faults).0.Durable() == d
  {
    hide RunGroups, Disk.IsReadable, Disk.HasUnusableJournal, MayStart;
    UnusableIsInTheWay(d);
  }

  /** The first line of any quarantine can spoil its journal before a file has moved. */
  lemma FirstLineCanSpoil(p: Plan, start: Files, directories: set<Location>, fault: Fault, runs: seq<Run>, again: Run)
    requires MayStart(start, p) && (fault == Bare || fault == Tear)
    ensures
      var d := Campaign(p, Unjournaled(start, directories), [Run(false, [Proceed, fault])] + runs);
      && d.files == start && d.HasUnusableJournal() && (fault == Bare ==> d.HasEmptyJournal())
      && Execute(p, d, again.resume, again.faults).1.Declined()
  {
    hide MayStart, Readable, RunGroups;
    var first := Unjournaled(start, directories);
    var run := Run(false, [Proceed, fault]);
    FirstLineSpoils(p, start, directories, fault);
    var d := Execute(p, first, false, [Proceed, fault]).0.Durable();
    UnusableJournalIsFinal(p, d, runs, again.resume, again.faults);
    assert ([run] + runs)[0] == run && ([run] + runs)[1..] == runs;
  }

  lemma FirstLineSpoils(p: Plan, start: Files, directories: set<Location>, fault: Fault)
    requires MayStart(start, p) && (fault == Bare || fault == Tear)
    ensures Execute(p, Unjournaled(start, directories), false, [Proceed, fault]).0.Durable()
            == Disk(start, if fault == Bare then [] else [Broken], Ended, directories)
    ensures !Readable([Broken])
  {
    hide MayStart, Readable, RunGroups;
    var torn: seq<Line> := [Broken];
    assert Unjournaled(start, directories).lines + torn == torn;
    assert [Proceed, fault][1..] == [fault];
    BrokenIsUnreadable();
  }

  /** A last line that lost only its end can still be read; but the first line that a later
      run writes runs together with it, and the journal is unusable from then on. */
  lemma CutLineIsFinal(p: Plan, d: Disk, resume: bool, faults: seq<Fault>, runs: seq<Run>, again: Run)
    requires d.shape == Unended && Execute(p, d, resume, faults).0.lines != d.lines
    ensures
      var after := Execute(p, d, resume, faults).0.Durable();
      && after.shape == Garbled && Campaign(p, after, runs) == after
      && Execute(p, after, again.resume, again.faults).1.Declined()
  {
    hide Execute, Campaign, Readable, Printable;
    ExecuteEvolves(false, p, d, resume, faults);
    UnusableJournalIsFinal(p, Execute(p, d, resume, faults).0.Durable(), runs, again.resume, again.faults);
  }

  lemma BrokenIsUnreadable()
    ensures !Readable([Broken])
  {
    var lines: seq<Line> := [Broken];
    assert !lines[0].Line?;
  }

  // ---------- an attempt that fails is taken back ----------

  /** The files after quarantining these losers one by one. */
  ghost predicate Shifted(base: Files, files: Files, moved: seq<Loser>)
    decreases |moved|
  {
    if moved == [] then files == base
    else
      var m := moved[|moved| - 1];
      && CanRename(files, m.quarantine, m.source)
      && Shifted(base, Relocate(files, m.quarantine, m.source), moved[..|moved| - 1])
  }

  /** Those files, and one more loser that is not in the list. */
  ghost predicate OneAstray(base: Files, files: Files, moved: seq<Loser>) {
    exists before: Files, m: Loser ::
      Shifted(base, before, moved) && CanRename(before, m.source, m.quarantine) && files == Relocate(before, m.source, m.quarantine)
  }

  lemma ShiftedNext(base: Files, files: Files, moved: seq<Loser>, m: Loser)
    requires Shifted(base, files, moved) && CanRename(files, m.source, m.quarantine)
    ensures Shifted(base, Relocate(files, m.source, m.quarantine), moved + [m])
  {
    var after := Relocate(files, m.source, m.quarantine);
    assert Relocate(after, m.quarantine, m.source) == files;
    assert (moved + [m])[..|moved|] == moved;
  }

  /** Taking back is as determined as moving: from given files it leads to one base, and from
      a base the moves lead to the same files. */
  lemma {:induction false} ShiftedIsExact(a: Files, f: Files, b: Files, g: Files, moved: seq<Loser>)
    requires Shifted(a, f, moved) && Shifted(b, g, moved)
    ensures a == b <==> f == g
    decreases |moved|
  {
    if moved != [] {
      var m := moved[|moved| - 1];
      ShiftedIsExact(a, Relocate(f, m.quarantine, m.source), b, Relocate(g, m.quarantine, m.source), moved[..|moved| - 1]);
      assert Relocate(Relocate(f, m.quarantine, m.source), m.source, m.quarantine) == f;
      assert Relocate(Relocate(g, m.quarantine, m.source), m.source, m.quarantine) == g;
    }
  }

  /** The rename takes effect, but it raises, or the look that follows it does: the loser does
      not get into the list of those to take back. */
  predicate StrandsLoser(w: QuarantineWorld, group: string, m: Loser) {
    var (w1, s1) := Announce(w, group, m);
    var (w2, s2) := RenameNoReplace(w1, m.source, m.quarantine);
    && s1 == Fine
    && (NextFault(w1.faults) == Unacknowledged ||
        (s2 == Fine && Check(w2, StateOfLoser(w2.files, m) == Quarantined).1 == Raised))
  }

  predicate Strands(w: QuarantineWorld, group: string, todo: seq<Loser>, moved: seq<Loser>)
    decreases |todo|
  {
    todo != [] &&
    (StrandsLoser(w, group, todo[0]) ||
     (var r := MoveOne(w, group, todo[0], moved);
      r.signal == Fine && Strands(r.world, group, todo[1..], r.moved)))
  }

  lemma MoveOneShifts(base: Files, w: QuarantineWorld, group: string, m: Loser, moved: seq<Loser>)
    requires Shifted(base, w.files, moved)
    ensures
      var r := MoveOne(w, group, m, moved);
      && (r.signal == Fine ==> !StrandsLoser(w, group, m))
      && (r.signal != Halted ==>
        if StrandsLoser(w, group, m) then OneAstray(base, r.world.files, r.moved) else Shifted(base, r.world.files, r.moved))
  {
    hide Shifted, Append, Announce, StateOfLoser, Relocate;
    AnnounceEvolves(TermsFor([m]), w, group, m);
    var (w1, s1) := Announce(w, group, m);
    HomeIsHere(w1.files, m);
    if s1 == Fine {
      ShiftedNext(base, w.files, moved, m);
      HomeMoves(w.files, m);
      var (w2, s2) := RenameNoReplace(w1, m.source, m.quarantine);
      var w3 := Check(w2, StateOfLoser(w2.files, m) == Quarantined).0;
      AppendEvolves(Still, w3, MemberCompleted(KeyOf(group, m)));
    }
  }

  lemma {:induction false} MoveAllShifts(base: Files, w: QuarantineWorld, group: string, todo: seq<Loser>,
                                         moved: seq<Loser>)
    requires Shifted(base, w.files, moved)
    ensures
      var t := MoveAll(w, group, todo, moved);
      t.signal == Raised ==>
        if Strands(w, group, todo, moved) then OneAstray(base, t.world.files, t.moved)
        else Shifted(base, t.world.files, t.moved)
    decreases |todo|
  {
    hide Shifted, OneAstray, MoveOne, StrandsLoser, Append;
    if todo == [] {
      AppendEvolves(Still, w, GroupCompleted(group));
    } else {
      MoveOneShifts(base, w, group, todo[0], moved);
      var r := MoveOne(w, group, todo[0], moved);
      if r.signal == Fine {
        MoveAllShifts(base, r.world, group, todo[1..], r.moved);
      }
    }
  }

  lemma HomeIsHere(files: Files, m: Loser)
    ensures StateOfLoser(files, m) == AtHome ==> CanRename(files, m.source, m.quarantine)
    ensures StateOfLoser(files, m) == Quarantined ==> m.source !in files && m.quarantine in files
  {
  }

  /** The look after a quarantine move finds the loser in quarantine, if it does not fail. */
  lemma HomeMoves(files: Files, m: Loser)
    requires StateOfLoser(files, m) == AtHome
    ensures StateOfLoser(Relocate(files, m.source, m.quarantine), m) == Quarantined
  {
  }

  /** A rollback without failures takes back what is listed, and nothing else. */
  lemma {:induction false} UndoAllUnshifts(w: QuarantineWorld, group: string, members: seq<Loser>, failures: seq<Loser>)
    ensures
      var u := UndoAll(w, group, members, failures);
      !u.halted && u.failures == [] ==> Shifted(u.world.files, w.files, members)
    decreases |members|
  {
    hide Append, StateOfLoser, Relocate;
    if members != [] {
      var last := |members| - 1;
      var m := members[last];
      FailuresStay(w, group, members, failures);
      HomeIsHere(w.files, m);
      var u := UndoOne(w, group, m, failures);
      var w0 := Check(w, StateOfLoser(w.files, m) == Quarantined).0;
      AppendEvolves(Still, w0, RollbackStarted(KeyOf(group, m)));
      var w1 := Append(w0, RollbackStarted(KeyOf(group, m))).0;
      var w2 := RenameNoReplace(w1, m.quarantine, m.source).0;
      var w3 := Check(w2, StateOfLoser(w2.files, m) == AtHome).0;
      AppendEvolves(Still, w3, RollbackCompleted(KeyOf(group, m)));
      if !u.halted {
        FailuresStay(u.world, group, members[..last], u.failures);
        if u.failures == failures {
          UndoAllUnshifts(u.world, group, members[..last], u.failures);
        }
      }
    }
  }

  lemma {:induction false} FailuresStay(w: QuarantineWorld, group: string, members: seq<Loser>, failures: seq<Loser>)
    ensures failures <= UndoAll(w, group, members, failures).failures
    decreases |members|
  {
    hide Append, StateOfLoser, RenameNoReplace, Check;
    if members != [] {
      var u := UndoOne(w, group, members[|members| - 1], failures);
      FailuresStay(u.world, group, members[..|members| - 1], u.failures);
    }
  }

  /** The attempt at a group moves a loser that its rollback does not know of. */
  predicate GroupStrands(w: QuarantineWorld, g: LoserGroup, recovered: nat) {
    var r := Sort(w, g.id, StateOf(w.entries), g.members, [], recovered);
    var (w1, s1) := Append(r.world, GroupStarted(g.id));
    var (w2, s2) := Check(w1, forall m | m in r.pending :: StateOfLoser(w1.files, m) == AtHome);
    r.signal == Fine && s1 == Fine && s2 == Fine && Strands(w2, g.id, r.pending, [])
  }

  /** A group attempt that fails and reports its rollback complete leaves the files exactly
      as the attempt found them, of any plan, unless a rename took effect and was not
      acknowledged, or the look that follows it failed; then it never does. */
  lemma FailedAttemptIsUndone(w: QuarantineWorld, g: LoserGroup, moved: nat, recovered: nat)
    ensures
      var r := RunGroup(w, g, moved, recovered);
      r.End? && r.outcome.Interrupted? && r.outcome.undone ==>
        (r.world.files == w.files <==> !GroupStrands(w, g, recovered))
  {
    hide Append, StateOfLoser, Sort, MoveAll, UndoAll, StateOf, Strands, OneAstray, Shifted, Evolves, Covers;
    SortingMovesNothing(w, g, recovered);
    NothingShifted(w.files);
    var sorting := Sort(w, g.id, StateOf(w.entries), g.members, [], recovered);
    AppendEvolves(Still, sorting.world, GroupStarted(g.id));
    var w1 := Append(sorting.world, GroupStarted(g.id)).0;
    var t := TryGroup(w1, g.id, sorting.pending);
    var w2 := Check(w1, forall m | m in sorting.pending :: StateOfLoser(w1.files, m) == AtHome).0;
    MoveAllShifts(w.files, w2, g.id, sorting.pending, []);
    if t.signal == Raised {
      var u := UndoAll(t.world, g.id, t.moved, []);
      UndoAllUnshifts(t.world, g.id, t.moved, []);
      AppendEvolves(Still, u.world, GroupFailed(g.id));
      if !u.halted && u.failures == [] {
        TakenBackExactly(w.files, t.world.files, u.world.files, t.moved);
      }
    }
  }

  lemma SortingMovesNothing(w: QuarantineWorld, g: LoserGroup, recovered: nat)
    ensures Sort(w, g.id, StateOf(w.entries), g.members, [], recovered).world.files == w.files
  {
    hide Sort, Evolves;
    SortEvolves(TermsFor(g.members), w, g.id, StateOf(w.entries), g.members, [], recovered);
  }

  lemma NothingShifted(files: Files)
    ensures Shifted(files, files, [])
  {
  }

  lemma TakenBackExactly(base: Files, files: Files, after: Files, moved: seq<Loser>)
    requires Shifted(after, files, moved)
    ensures Shifted(base, files, moved) ==> after == base
    ensures OneAstray(base, files, moved) ==> after != base
  {
    if Shifted(base, files, moved) {
      ShiftedIsExact(after, files, base, files, moved);
    }
    if OneAstray(base, files, moved) {
      var before: Files, m: Loser :|
        Shifted(base, before, moved) && CanRename(before, m.source, m.quarantine) && files == Relocate(before, m.source, m.quarantine);
      ShiftedIsExact(after, files, base, before, moved);
      assert m.quarantine in files && m.quarantine !in before;
    }
  }
}
