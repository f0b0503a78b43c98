/** What completed runs of quarantine and restore count. */
module QuarantineCounts {
  import opened MediaStore
  import opened QuarantineModel
  import opened QuarantineExecution
  import opened QuarantineInvariant
  import opened QuarantineSafety
  import opened QuarantineTheorems
  import opened QuarantineResume
  import opened QuarantineConservation
  import opened JournalFacts
  import R = QuarantineRestore

  ghost predicate Counted(before: seq<Line>, moved: nat, recovered: nat, after: seq<Line>, moved': nat,
                          recovered': nat) {
    && TallyOf(after).announced - TallyOf(before).announced == moved' - moved
    && TallyOf(after).finished - TallyOf(before).finished == moved' - moved + recovered' - recovered
  }

  lemma {:induction false} SortCounts(w: QuarantineWorld, group: string, state: JournalState, todo: seq<Loser>,
                                      pending: seq<Loser>, recovered: nat)
    requires forall m :: m in todo ==> StateOfLoser(w.files, m) != AlreadyAbsent
    ensures
      var r := Sort(w, group, state, todo, pending, recovered);
      r.signal == Fine ==> Counted(w.lines, 0, recovered, r.world.lines, 0, r.recovered)
    decreases |todo|
  {
    hide Append, TallyOf, StateOfLoser;
    if todo != [] {
      var m := todo[0];
      var key := KeyOf(group, m);
      var now := StateOfLoser(w.files, m);
      var w1 := Check(w, now != Ambiguous).0;
      if key in state.completedMembers {
        SortCounts(w1, group, state, todo[1..], pending, recovered);
      } else if key in state.startedMembers && now == Quarantined {
        TallyNext(w1, MemberCompleted(key));
        AppendKeepsFiles(w1, MemberCompleted(key));
        SortCounts(Append(w1, MemberCompleted(key)).0, group, state, todo[1..], pending, recovered + 1);
      } else {
        SortCounts(w1, group, state, todo[1..], pending + [m], recovered);
      }
    }
  }

  lemma AppendKeepsFiles(w: QuarantineWorld, event: Event)
    ensures Append(w, event).0.files == w.files
  {
  }

  lemma {:induction false} MoveAllCounts(w: QuarantineWorld, group: string, todo: seq<Loser>, moved: seq<Loser>)
    ensures
      var p := MoveAll(w, group, todo, moved);
      p.signal == Fine ==> Counted(w.lines, |moved|, 0, p.world.lines, |p.moved|, 0)
    decreases |todo|
  {
    hide Append, TallyOf, StateOfLoser, EnsureDirectories;
    if todo == [] {
      TallyNext(w, GroupCompleted(group));
    } else {
      var m := todo[0];
      var key := KeyOf(group, m);
      DirectoriesTally(w, group, Parents(m.quarantine));
      var w1 := EnsureDirectories(w, group, Parents(m.quarantine)).0;
      TallyNext(w1, MemberStarted(key));
      var w2 := Append(w1, MemberStarted(key)).0;
      var w3 := Check(w2, StateOfLoser(w2.files, m) == AtHome).0;
      var w4 := RenameNoReplace(w3, m.source, m.quarantine).0;
      TallyNext(Check(w4, StateOfLoser(w4.files, m) == Quarantined).0, MemberCompleted(key));
      var p := MoveOne(w, group, m, moved);
      if p.signal == Fine {
        MoveAllCounts(p.world, group, todo[1..], p.moved);
      }
    }
  }

  lemma RunGroupCounts(w: QuarantineWorld, g: LoserGroup, moved: nat, recovered: nat)
    requires forall m :: m in g.members ==> StateOfLoser(w.files, m) != AlreadyAbsent
    ensures
      var r := RunGroup(w, g, moved, recovered);
      r.GoOn? ==> Counted(w.lines, moved, recovered, r.world.lines, r.moved, r.recovered)
  {
    hide Append, TallyOf, Sort, MoveAll, UndoAll, StateOf, StateOfLoser;
    var sorting := Sort(w, g.id, StateOf(w.entries), g.members, [], recovered);
    SortCounts(w, g.id, StateOf(w.entries), g.members, [], recovered);
    TallyNext(sorting.world, GroupStarted(g.id));
    var w1 := Append(sorting.world, GroupStarted(g.id)).0;
    var next := Check(w1, forall m | m in sorting.pending :: StateOfLoser(w1.files, m) == AtHome).0;
    MoveAllCounts(next, g.id, sorting.pending, []);
  }

  lemma NoneIsAbsent(p: Plan, start: Files, w: QuarantineWorld, g: int)
    requires Good(p, start, w) && NonePast(p, start) && 0 <= g < |p.groups|
    ensures forall m :: m in p.groups[g].members ==> StateOfLoser(w.files, m) != AlreadyAbsent
  {
    hide Setting, Invariant, StateOf, StateOfLoser;
    forall m | m in p.groups[g].members
      ensures StateOfLoser(w.files, m) != AlreadyAbsent
    {
      LoserFacts(p, start, w.files, StateOf(w.lines), g, m);
    }
  }

  lemma {:induction false} RunGroupsCount(p: Plan, start: Files, w: QuarantineWorld, i: nat, done: set<string>, moved: nat,
                                          recovered: nat)
    requires Good(p, start, w) && InSync(w) && !StateOf(w.lines).runCompleted && i <= |p.groups|
    requires NonePast(p, start)
    ensures
      var (next, outcome) := RunGroups(w, p, i, done, moved, recovered);
      outcome.Completed? ==> Counted(w.lines, moved, recovered, next.lines, outcome.moved, outcome.recovered)
    decreases |p.groups| - i
  {
    hide Good, StateOf, RunGroup, GroupHolds, AllHold, StateOfWinner, StateOfLoser, Elsewhere, Append, TallyOf,
      Check, NonePast;
    if i == |p.groups| {
      var (w1, s1) := Check(w, AllHold(w.files, p, false));
      CheckEvolves(Still, w, AllHold(w.files, p, false));
      TallyNext(w1, RunCompleted);
    } else {
      var g := p.groups[i];
      var holds := if g.id in done then GroupHolds(w.files, g, false) else StateOfWinner(w.files, g.winner) == Organized;
      CheckKept(p, start, i, w, holds);
      CheckEvolves(Still, w, holds);
      var (w1, s1) := Check(w, holds);
      if s1 == Fine {
        if g.id in done {
          RunGroupsCount(p, start, w1, i + 1, done, moved, recovered);
        } else {
          NoneIsAbsent(p, start, w1, i);
          RunGroupKeeps(p, start, i, w1, moved, recovered);
          RunGroupCounts(w1, g, moved, recovered);
          var r := RunGroup(w1, g, moved, recovered);
          if r.GoOn? {
            RunGroupsCount(p, start, r.world, i + 1, done + {g.id}, r.moved, r.recovered);
          }
        }
      }
    }
  }

  /** A completed run counts as moved the losers that it announced, and as recovered the others
      that it recorded as being in quarantine. */
  lemma CountsAreExact(p: Plan, start: Files, d: Disk, resume: bool, faults: seq<Fault>)
    requires Sound(p) && Lawful(p, start, d)
    ensures
      var (next, outcome) := Execute(p, d, resume, faults);
      outcome.Completed? ==>
        && TallyOf(next.lines).announced == TallyOf(d.lines).announced + outcome.moved
        && TallyOf(next.lines).finished == TallyOf(d.lines).finished + outcome.moved + outcome.recovered
  {
    hide Append, RunGroups, AllHold, MayStart, StateOf, Readable, TallyOf, Invariant, Plan.WellFormed, Plan.RootsApart,
      Plan.WinnersApart, NonePast;
    BeginKeeps(p, start, d, resume, faults);
    var (w, signal) := Begin(p, d, resume, faults);
    TallyNext(Check(Launch(d, faults), !d.HasJournal() && MayStart(d.files, p)).0, RunStarted);
    if signal == Fine && !StateOf(w.entries).runCompleted && Execute(p, d, resume, faults).1.Completed? {
      TermsPermit(p, false);
      RunGroupsEvolve(TermsOf(p, false), w, p, 0, StateOf(w.entries).completedGroups, 0, 0);
      NoneWasPast(p, start, d, resume, faults);
      RunGroupsCount(p, start, w, 0, StateOf(w.entries).completedGroups, 0, 0);
    }
  }

  lemma NoneWasPast(p: Plan, start: Files, d: Disk, resume: bool, faults: seq<Fault>)
    requires Sound(p) && Lawful(p, start, d) && Execute(p, d, resume, faults).1.Completed?
    requires Execute(p, d, resume, faults).0.lines != []
    ensures NonePast(p, start)
  {
    hide Execute, StateOf, Invariant, Plan.WellFormed, Plan.RootsApart, Plan.WinnersApart, StateOfLoser;
    CompletedRunsAreWhole(p, start, d, resume, faults);
    RunIsLawful(p, start, d, resume, faults);
    var next := Execute(p, d, resume, faults).0;
    forall g, m | 0 <= g < |p.groups| && m in p.groups[g].members
      ensures StateOfLoser(start, m) != AlreadyAbsent
    {
      assert p.Has(g, m) && GroupHolds(next.files, p.groups[g], false);
      LoserFacts(p, start, next.files, StateOf(next.lines), g, m);
    }
  }

  // ---------- restore ----------

  lemma {:induction false} RestoreSortCounts(w: QuarantineWorld, group: string, state: JournalState, todo: seq<Loser>,
                                             pending: seq<Loser>, recovered: nat)
    ensures
      var r := R.Sort(w, group, state, todo, pending, recovered);
      r.signal == Fine ==> Counted(w.lines, 0, recovered, r.world.lines, 0, r.recovered)
    decreases |todo|
  {
    hide Append, TallyOf, R.StateOfRestore;
    if todo != [] {
      var last := |todo| - 1;
      var m := todo[last];
      var key := KeyOf(group, m);
      var now := R.StateOfRestore(w.files, m);
      var w1 := Check(w, now != R.Unknown).0;
      if key !in state.completedMembers && key in state.startedMembers && now == R.Restored {
        TallyNext(w1, MemberCompleted(key));
        RestoreSortCounts(Append(w1, MemberCompleted(key)).0, group, state, todo[..last], pending, recovered + 1);
      } else {
        RestoreSortCounts(w1, group, state, todo[..last], if key in state.completedMembers then pending else pending + [m], recovered);
      }
    }
  }

  lemma {:induction false} RestoreAllCounts(w: QuarantineWorld, group: string, todo: seq<Loser>, restored: nat)
    ensures
      var t := R.RestoreAll(w, group, todo, restored);
      t.signal == Fine ==> Counted(w.lines, restored, 0, t.world.lines, t.restored, 0)
    decreases |todo|
  {
    hide Append, TallyOf, R.StateOfRestore;
    if todo == [] {
      TallyNext(w, GroupCompleted(group));
    } else {
      var m := todo[0];
      var key := KeyOf(group, m);
      var w0 := Check(w, R.StateOfRestore(w.files, m) == R.ToRestore).0;
      TallyNext(w0, MemberStarted(key));
      var w2 := RenameNoReplace(Append(w0, MemberStarted(key)).0, m.quarantine, m.source).0;
      TallyNext(Check(w2, R.StateOfRestore(w2.files, m) == R.Restored).0, MemberCompleted(key));
      var t := R.RestoreOne(w, group, m, restored);
      if t.signal == Fine {
        RestoreAllCounts(t.world, group, todo[1..], t.restored);
      }
    }
  }

  lemma RestoreGroupCounts(w: QuarantineWorld, g: LoserGroup, restored: nat, recovered: nat)
    ensures
      var r := R.RunGroup(w, g, restored, recovered);
      if r.GoOn? then Counted(w.lines, restored, recovered, r.world.lines, r.restored, r.recovered) else !r.outcome.Completed?
  {
    hide Append, TallyOf, R.Sort, R.RestoreAll, StateOf;
    var sorting := R.Sort(w, g.id, StateOf(w.entries), g.members, [], recovered);
    RestoreSortCounts(w, g.id, StateOf(w.entries), g.members, [], recovered);
    TallyNext(sorting.world, GroupStarted(g.id));
    RestoreAllCounts(Append(sorting.world, GroupStarted(g.id)).0, g.id, sorting.pending, restored);
  }

  lemma {:induction false} RestoreGroupsCount(w: QuarantineWorld, p: Plan, i: nat, done: set<string>, restored: nat,
                                              recovered: nat)
    requires i <= |p.groups|
    ensures
      var (next, outcome) := R.RunGroups(w, p, i, done, restored, recovered);
      outcome.Completed? ==> Counted(w.lines, restored, recovered, next.lines, outcome.restored, outcome.recovered)
    decreases i
  {
    hide Append, TallyOf, R.RunGroup, R.AllAre, R.StateOfRestore;
    if i == 0 {
      TallyNext(Check(w, R.AllAre(w.files, p, R.Restored)).0, RunCompleted);
    } else {
      var g := p.groups[i - 1];
      if g.id in done {
        var holds := forall m | m in g.members :: R.StateOfRestore(w.files, m) == R.Restored;
        RestoreGroupsCount(Check(w, holds).0, p, i - 1, done, restored, recovered);
      } else {
        RestoreGroupCounts(w, g, restored, recovered);
        var r := R.RunGroup(w, g, restored, recovered);
        if r.GoOn? {
          RestoreGroupsCount(r.world, p, i - 1, done + {g.id}, r.restored, r.recovered);
        }
      }
    }
  }

  /** The same of a completed restore of any plan. */
  lemma RestoreCountsAreExact(p: Plan, approved: JournalFile, d: Disk, resume: bool, faults: seq<Fault>)
    ensures
      var (next, outcome) := R.Execute(p, approved, d, resume, faults);
      outcome.Completed? ==>
        && TallyOf(next.lines).announced == TallyOf(d.lines).announced + outcome.restored
        && TallyOf(next.lines).finished == TallyOf(d.lines).finished + outcome.restored + outcome.recovered
  {
    hide Append, R.RunGroups, R.AllAre, R.DescribesCompletedRun, StateOf, Readable, TallyOf;
    var (w, signal) := R.Begin(p, approved, d, resume, faults);
    var (w1, s1) := Check(Launch(d, faults), R.DescribesCompletedRun(p, approved));
    TallyNext(Check(w1, !d.HasJournal() && R.AllAre(d.files, p, R.ToRestore)).0, RunStarted);
    if signal == Fine && !StateOf(w.entries).runCompleted {
      RestoreGroupsCount(w, p, |p.groups|, StateOf(w.entries).completedGroups, 0, 0);
    }
  }
}
