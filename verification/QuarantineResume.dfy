/** Exactly when a quarantine run can be finished by one quiet resume. */
module QuarantineResume {
  import opened MediaStore
  import opened QuarantineModel
  import opened QuarantineExecution
  import opened QuarantineInvariant
  import opened QuarantineSafety
  import opened QuarantineTheorems
  import opened JournalFacts
  import opened QuarantineApproval

  predicate Vouches(s: JournalState, group: string, m: Loser) {
    group in s.completedGroups || KeyOf(group, m) in s.completedMembers
  }

  /** No loser of the group that the journal calls completed is back at home. */
  predicate GroupAgrees(files: Files, s: JournalState, g: LoserGroup) {
    forall m | m in g.members :: Vouches(s, g.id, m) ==> StateOfLoser(files, m) != AtHome
  }

  predicate Agrees(p: Plan, files: Files, s: JournalState) {
    forall g | 0 <= g < |p.groups| :: GroupAgrees(files, s, p.groups[g])
  }

  /** No loser was already gone before the run. */
  predicate NonePast(p: Plan, files: Files) {
    forall g, m | 0 <= g < |p.groups| && m in p.groups[g].members :: StateOfLoser(files, m) != AlreadyAbsent
  }

  ghost predicate Quiet(w: QuarantineWorld) {
    w.entries == w.lines && w.faults == []
  }

  ghost predicate Distinct(s: seq<Loser>) {
    forall i, j :: 0 <= i < j < |s| ==> s[i] != s[j]
  }

  lemma DropMiddle(a: seq<Loser>, x: Loser, b: seq<Loser>)
    requires Distinct(a + [x] + b)
    ensures Distinct(a + b)
  {
    var s := a + [x] + b;
    forall i, j | 0 <= i < j < |a + b|
      ensures (a + b)[i] != (a + b)[j]
    {
      var i' := if i < |a| then i else i + 1;
      var j' := if j < |a| then j else j + 1;
      assert s[i'] == (a + b)[i] && s[j'] == (a + b)[j];
    }
  }

  lemma {:induction false} SortQuietly(p: Plan, start: Files, g: int, w: QuarantineWorld, state: JournalState, todo: seq<Loser>,
                                       pending: seq<Loser>, recovered: nat)
    requires Good(p, start, w) && !StateOf(w.lines).runCompleted && Quiet(w) && 0 <= g < |p.groups|
    requires forall m :: m in todo ==> p.Has(g, m)
    requires Distinct(pending + todo)
    requires forall m :: m in todo && KeyOf(p.groups[g].id, m) in state.completedMembers ==> StateOfLoser(w.files, m) != AtHome
    requires forall m :: m in todo && StateOfLoser(w.files, m) == Quarantined ==>
               KeyOf(p.groups[g].id, m) in state.completedMembers + state.startedMembers
    ensures
      var r := Sort(w, p.groups[g].id, state, todo, pending, recovered);
      r.signal == Fine && Quiet(r.world) && Distinct(r.pending) && (w.IsWhole() ==> r.world.IsWhole())
    decreases |todo|
  {
    hide Setting, Invariant, StateOf, StateOfLoser;
    if todo == [] {
      assert pending + todo == pending;
    } else {
      var m := todo[0];
      var id := p.groups[g].id;
      var key := KeyOf(id, m);
      assert p.Has(g, m) && todo == [m] + todo[1..];
      assert pending + todo == pending + [m] + todo[1..];
      DropMiddle(pending, m, todo[1..]);
      LoserFacts(p, start, w.files, StateOf(w.lines), g, m);
      var now := StateOfLoser(w.files, m);
      if key in state.completedMembers {
        SortQuietly(p, start, g, w, state, todo[1..], pending, recovered);
      } else if (key in state.startedMembers && now == Quarantined) || now == AlreadyAbsent {
        AppendAboutLoser(p, start, w, g, m, MemberCompleted(key));
        AppendQuietly(w, MemberCompleted(key));
        SortQuietly(p, start, g, Append(w, MemberCompleted(key)).0, state, todo[1..], pending, if now == Quarantined then recovered + 1 else recovered);
      } else {
        SortQuietly(p, start, g, w, state, todo[1..], pending + [m], recovered);
      }
    }
  }

  lemma MoveOneQuietly(w: QuarantineWorld, group: string, m: Loser, moved: seq<Loser>)
    requires Quiet(w) && StateOfLoser(w.files, m) == AtHome
    ensures
      var r := MoveOne(w, group, m, moved);
      r.signal == Fine && Quiet(r.world) && (w.IsWhole() ==> r.world.IsWhole())
  {
    hide StateOfLoser, EnsureDirectories, Append;
    HomeIsHere(w.files, m);
    HomeMoves(w.files, m);
    DirectoriesEvolve(Still, w, group, Parents(m.quarantine));
    DirectoriesAreClean(w, group, Parents(m.quarantine));
    var w1 := EnsureDirectories(w, group, Parents(m.quarantine)).0;
    AppendQuietly(w1, MemberStarted(KeyOf(group, m)));
    var w2 := Announce(w, group, m).0;
    AppendQuietly(RenameNoReplace(w2, m.source, m.quarantine).0, MemberCompleted(KeyOf(group, m)));
  }

  lemma {:induction false} MoveAllQuietly(p: Plan, start: Files, g: int, w: QuarantineWorld, todo: seq<Loser>,
                                          moved: seq<Loser>)
    requires Good(p, start, w) && !StateOf(w.lines).runCompleted && Quiet(w) && 0 <= g < |p.groups|
    requires forall m :: m in todo ==> p.Has(g, m) && StateOfLoser(w.files, m) == AtHome
    requires Distinct(todo)
    ensures
      var r := MoveAll(w, p.groups[g].id, todo, moved);
      r.signal == Fine && Quiet(r.world) && (w.IsWhole() ==> r.world.IsWhole())
    decreases |todo|
  {
    hide Setting, Invariant, StateOf, StateOfLoser, MoveOne, Elsewhere;
    if todo == [] {
      AppendQuietly(w, GroupCompleted(p.groups[g].id));
    } else {
      var m := todo[0];
      MoveOneKeeps(p, start, g, w, m, moved);
      MoveOneQuietly(w, p.groups[g].id, m, moved);
      var r := MoveOne(w, p.groups[g].id, m, moved);
      forall n | n in todo[1..]
        ensures p.Has(g, n) && StateOfLoser(r.world.files, n) == AtHome
      {
        var k :| 0 <= k < |todo[1..]| && todo[1..][k] == n;
        assert todo[k + 1] == n && n != m;
      }
      MoveAllQuietly(p, start, g, r.world, todo[1..], r.moved);
    }
  }

  lemma MembersDistinct(p: Plan, start: Files, g: int)
    requires Setting(p, start) && 0 <= g < |p.groups|
    ensures Distinct(p.groups[g].members)
  {
  }

  lemma RunGroupQuietly(p: Plan, start: Files, g: int, w: QuarantineWorld, moved: nat, recovered: nat)
    requires Good(p, start, w) && !StateOf(w.lines).runCompleted && Quiet(w) && 0 <= g < |p.groups|
    requires GroupAgrees(w.files, StateOf(w.lines), p.groups[g])
    ensures
      var r := RunGroup(w, p.groups[g], moved, recovered);
      && r.GoOn? && Quiet(r.world) && (w.IsWhole() ==> r.world.IsWhole())
      && forall m :: p.Has(g, m) ==> StateOfLoser(r.world.files, m) != AtHome
  {
    hide Setting, Invariant, StateOf, StateOfLoser, Elsewhere, Sort, MoveAll, Append;
    var group := p.groups[g];
    var state := StateOf(w.entries);
    MembersDistinct(p, start, g);
    assert [] + group.members == group.members;
    forall m | m in group.members
      ensures StateOfLoser(w.files, m) == Quarantined ==> KeyOf(group.id, m) in state.completedMembers + state.startedMembers
    {
      LoserFacts(p, start, w.files, state, g, m);
    }
    SortKeeps(p, start, g, w, state, group.members, [], recovered);
    SortQuietly(p, start, g, w, state, group.members, [], recovered);
    var sorting := Sort(w, group.id, state, group.members, [], recovered);
    AppendAboutGroup(p, start, sorting.world, g, GroupStarted(group.id));
    AppendQuietly(sorting.world, GroupStarted(group.id));
    var w1 := Append(sorting.world, GroupStarted(group.id)).0;
    MoveAllKeeps(p, start, g, w1, sorting.pending, []);
    MoveAllQuietly(p, start, g, w1, sorting.pending, []);
    var t := MoveAll(w1, group.id, sorting.pending, []);
    forall m | p.Has(g, m)
      ensures StateOfLoser(t.world.files, m) != AtHome
    {
      if StateOfLoser(w.files, m) == AtHome {
        assert m in sorting.pending;
      } else {
        LoserFacts(p, start, w.files, StateOf(w.lines), g, m);
        LoserFacts(p, start, t.world.files, StateOf(t.world.lines), g, m);
      }
    }
  }

  lemma AppendQuietly(w: QuarantineWorld, event: Event)
    requires Quiet(w)
    ensures
      var (next, signal) := Append(w, event);
      signal == Fine && Quiet(next) && (w.IsWhole() ==> next.IsWhole()) && next.files == w.files
  {
    AppendIsClean(w, event);
  }

  lemma {:induction false} RunGroupsQuietly(p: Plan, start: Files, w: QuarantineWorld, i: nat, done: set<string>,
                                            moved: nat, recovered: nat)
    requires Good(p, start, w) && !StateOf(w.lines).runCompleted && Quiet(w) && i <= |p.groups|
    requires done == StateOf(w.lines).completedGroups
    requires forall h :: i <= h < |p.groups| ==> GroupAgrees(w.files, StateOf(w.lines), p.groups[h])
    requires forall h, m :: 0 <= h < i && p.Has(h, m) ==> StateOfLoser(w.files, m) == Quarantined
    requires NonePast(p, start)
    ensures RunGroups(w, p, i, done, moved, recovered).1.Completed?
    ensures w.IsWhole() ==> RunGroups(w, p, i, done, moved, recovered).0.IsWhole()
    decreases |p.groups| - i
  {
    hide Setting, Invariant, StateOf, StateOfLoser, RunGroup, StateOfWinner, Readable, Append;
    if i == |p.groups| {
      forall g | 0 <= g < |p.groups|
        ensures GroupHolds(w.files, p.groups[g], false)
      {
        WinnersStay(p, start, w.files, StateOf(w.lines), g);
        forall m | m in p.groups[g].members ensures StateOfLoser(w.files, m) == Quarantined { assert p.Has(g, m); }
      }
      AppendQuietly(w, RunCompleted);
    } else {
      var g := p.groups[i];
      WinnersStay(p, start, w.files, StateOf(w.lines), i);
      if g.id in done {
        forall m | p.Has(i, m)
          ensures StateOfLoser(w.files, m) == Quarantined
        {
          LoserFacts(p, start, w.files, StateOf(w.lines), i, m);
        }
        assert GroupHolds(w.files, g, false) by {
          forall m | m in g.members ensures StateOfLoser(w.files, m) == Quarantined { assert p.Has(i, m); }
        }
        RunGroupsQuietly(p, start, w, i + 1, done, moved, recovered);
      } else {
        RunGroupKeeps(p, start, i, w, moved, recovered);
        RunGroupQuietly(p, start, i, w, moved, recovered);
        var r := RunGroup(w, g, moved, recovered);
        forall h, m | 0 <= h < i + 1 && p.Has(h, m)
          ensures StateOfLoser(r.world.files, m) == Quarantined
        {
          LoserFacts(p, start, r.world.files, StateOf(r.world.lines), h, m);
        }
        forall h | i + 1 <= h < |p.groups|
          ensures GroupAgrees(r.world.files, StateOf(r.world.lines), p.groups[h])
        {
          assert GroupAgrees(w.files, StateOf(w.lines), p.groups[h]);
          forall m | m in p.groups[h].members && Vouches(StateOf(r.world.lines), p.groups[h].id, m)
            ensures StateOfLoser(r.world.files, m) != AtHome
          {
            assert p.Has(h, m);
          }
        }
        RunGroupsQuietly(p, start, r.world, i + 1, done + {g.id}, r.moved, r.recovered);
      }
    }
  }

  // ---------- the other direction ----------

  lemma {:induction false} SortDetects(w: QuarantineWorld, group: string, state: JournalState,
                                       todo: seq<Loser>, pending: seq<Loser>, recovered: nat, m: Loser)
    requires m in todo && KeyOf(group, m) in state.completedMembers && StateOfLoser(w.files, m) == AtHome
    ensures Sort(w, group, state, todo, pending, recovered).signal != Fine
    decreases |todo|
  {
    hide StateOfLoser, Append;
    var key := KeyOf(group, todo[0]);
    var now := StateOfLoser(w.files, todo[0]);
    var w1 := Check(w, now != Ambiguous).0;
    if todo[0] != m {
      assert m in todo[1..];
      AppendEvolves(Still, w1, MemberCompleted(key));
      SortDetects(w1, group, state, todo[1..], pending, recovered, m);
      SortDetects(w1, group, state, todo[1..], pending + [todo[0]], recovered, m);
      SortDetects(Append(w1, MemberCompleted(key)).0, group, state, todo[1..], pending, if now == Quarantined then recovered + 1 else recovered, m);
    }
  }

  lemma {:induction false} RunGroupsDetect(p: Plan, start: Files, w: QuarantineWorld, i: nat, done: set<string>,
                                           moved: nat, recovered: nat, g: int, m: Loser)
    requires Good(p, start, w) && InSync(w) && !StateOf(w.lines).runCompleted && i <= g && p.Has(g, m)
    requires done == StateOf(w.lines).completedGroups
    requires Vouches(StateOf(w.lines), p.groups[g].id, m) && StateOfLoser(w.files, m) == AtHome
    ensures !RunGroups(w, p, i, done, moved, recovered).1.Completed?
    decreases |p.groups| - i
  {
    hide Setting, Invariant, StateOf, StateOfLoser, StateOfWinner, Sort, TryGroup, UndoAll, Append;
    var group := p.groups[i];
    if group.id in done {
      if i < g {
        RunGroupsDetect(p, start, Check(w, GroupHolds(w.files, group, false)).0, i + 1, done, moved, recovered, g, m);
      }
    } else {
      var w1 := Check(w, StateOfWinner(w.files, group.winner) == Organized).0;
      RunGroupKeeps(p, start, i, w1, moved, recovered);
      var r := RunGroup(w1, group, moved, recovered);
      if i == g {
        SortDetects(w1, group.id, StateOf(w.entries), group.members, [], recovered, m);
      } else if r.GoOn? {
        RunGroupsDetect(p, start, r.world, i + 1, done + {group.id}, r.moved, r.recovered, g, m);
      }
    }
  }

  /** A run that reports completion has every loser in quarantine and every winner at its
      approved place, whatever faults it met. */
  lemma CompletedRunsAreWhole(p: Plan, start: Files, d: Disk, resume: bool, faults: seq<Fault>)
    requires Sound(p) && Lawful(p, start, d)
    ensures
      var (next, outcome) := Execute(p, d, resume, faults);
      outcome.Completed? ==>
        && AllHold(next.files, p, false)
        && (forall g :: 0 <= g < |p.groups| ==> StandsOrganized(next.files, p.groups[g].winner))
        && (forall g, m :: p.Has(g, m) ==> StandsAway(next.files, m))
  {
    hide Invariant, StateOf, RunGroups, StateOfLoser, Plan.WellFormed, Plan.RootsApart, Plan.WinnersApart;
    BeginKeeps(p, start, d, resume, faults);
    HoldingExactly(Execute(p, d, resume, faults).0.files, p, false);
    var (w, signal) := Begin(p, d, resume, faults);
    if signal == Fine {
      if StateOf(w.entries).runCompleted {
        forall g | 0 <= g < |p.groups|
          ensures GroupHolds(w.files, p.groups[g], false)
        {
          WinnersStay(p, start, w.files, StateOf(w.lines), g);
          forall m | m in p.groups[g].members
            ensures StateOfLoser(w.files, m) == Quarantined
          {
            LoserFacts(p, start, w.files, StateOf(w.lines), g, m);
          }
        }
      } else {
        CompletedHolds(w, p, 0, StateOf(w.entries).completedGroups, 0, 0);
      }
    }
  }

  /** A resume that meets no fault completes exactly when the journal can be read, no loser
      it calls completed is back at home, and no loser was already gone at the start. */
  lemma ResumeCompletesExactly(p: Plan, start: Files, d: Disk)
    requires Sound(p) && Lawful(p, start, d) && d.lines != []
    ensures Execute(p, d, true, []).1.Completed? <==>
            d.IsReadable() && Agrees(p, d.files, StateOf(d.lines)) && NonePast(p, d.files)
  {
    hide Invariant, StateOf, RunGroups, StateOfLoser, StateOfWinner, Readable, Plan.WellFormed, Plan.RootsApart,
      Plan.WinnersApart, MayStart;
    var s := StateOf(d.lines);
    var (w, signal) := Begin(p, d, true, []);
    BeginKeeps(p, start, d, true, []);
    forall g, m | p.Has(g, m)
      ensures StateOfLoser(d.files, m) == AlreadyAbsent <==> StateOfLoser(start, m) == AlreadyAbsent
    {
      LoserFacts(p, start, d.files, s, g, m);
    }
    if d.IsReadable() {
      if s.runCompleted {
        assert AllHold(d.files, p, true) && Agrees(p, d.files, s) && NonePast(p, d.files) by { FinishedHolds(p, start, d); }
      } else {
        if Execute(p, d, true, []).1.Completed? {
          CompletedMeans(p, start, d);
        }
        if Agrees(p, d.files, s) && NonePast(p, d.files) {
          assert NonePast(p, start) by {
            forall g, m | 0 <= g < |p.groups| && m in p.groups[g].members
              ensures StateOfLoser(start, m) != AlreadyAbsent
            { assert p.Has(g, m); }
          }
          RunGroupsQuietly(p, start, w, 0, s.completedGroups, 0, 0);
        }
      }
    }
  }

  lemma FinishedHolds(p: Plan, start: Files, d: Disk)
    requires Sound(p) && Lawful(p, start, d) && d.lines != [] && StateOf(d.lines).runCompleted
    ensures AllHold(d.files, p, true) && Agrees(p, d.files, StateOf(d.lines)) && NonePast(p, d.files)
  {
    hide Invariant, StateOf, StateOfLoser, StateOfWinner, Plan.WellFormed, Plan.RootsApart, Plan.WinnersApart, MayStart;
    forall g, m | 0 <= g < |p.groups| && m in p.groups[g].members
      ensures StateOfLoser(d.files, m) == Quarantined
    {
      LoserFacts(p, start, d.files, StateOf(d.lines), g, m);
    }
    forall g | 0 <= g < |p.groups|
      ensures StateOfWinner(d.files, p.groups[g].winner) == Organized
    {
      WinnersStay(p, start, d.files, StateOf(d.lines), g);
    }
  }

  lemma CompletedMeans(p: Plan, start: Files, d: Disk)
    requires Sound(p) && Lawful(p, start, d) && d.lines != [] && d.IsReadable() && !StateOf(d.lines).runCompleted
    requires Execute(p, d, true, []).1.Completed?
    ensures Agrees(p, d.files, StateOf(d.lines)) && NonePast(p, d.files)
  {
    hide Invariant, StateOf, RunGroups, StateOfLoser, StateOfWinner, Readable, Plan.WellFormed, Plan.RootsApart,
      Plan.WinnersApart, MayStart;
    var s := StateOf(d.lines);
    BeginKeeps(p, start, d, true, []);
    var w := Begin(p, d, true, []).0;
    if !Agrees(p, d.files, s) {
      var g :| 0 <= g < |p.groups| && !GroupAgrees(d.files, s, p.groups[g]);
      var m :| m in p.groups[g].members && Vouches(s, p.groups[g].id, m) && StateOfLoser(d.files, m) == AtHome;
      RunGroupsDetect(p, start, w, 0, s.completedGroups, 0, 0, g, m);
    }
    CompletedRunsAreWhole(p, start, d, true, []);
    RunIsLawful(p, start, d, true, []);
    var next := Execute(p, d, true, []).0;
    RunGroupsKeep(p, start, w, 0, s.completedGroups, 0, 0);
    forall g, m | 0 <= g < |p.groups| && m in p.groups[g].members
      ensures StateOfLoser(d.files, m) != AlreadyAbsent
    {
      assert GroupHolds(next.files, p.groups[g], false);
      LoserFacts(p, start, d.files, s, g, m);
      LoserFacts(p, start, next.files, StateOf(next.lines), g, m);
    }
  }

  /** A loser that was already gone at the start keeps every run, fresh or resumed, from
      ever completing, and keeps the completion event out of the journal. */
  lemma AbsentLoserBlocks(p: Plan, start: Files, directories: set<Location>, runs: seq<Run>, resume: bool,
                          faults: seq<Fault>, g: int, m: Loser)
    requires Sound(p) && p.Has(g, m) && StateOfLoser(start, m) == AlreadyAbsent
    ensures
      var d := Campaign(p, Unjournaled(start, directories), runs);
      !StateOf(d.lines).runCompleted && !Execute(p, d, resume, faults).1.Completed?
  {
    hide Invariant, StateOf, Execute, StateOfLoser, StateOfWinner, Plan.WellFormed, Plan.RootsApart,
      Plan.WinnersApart, MayStart;
    CampaignIsLawful(p, start, Unjournaled(start, directories), runs);
    var d := Campaign(p, Unjournaled(start, directories), runs);
    CompletedRunsAreWhole(p, start, d, resume, faults);
    RunIsLawful(p, start, d, resume, faults);
    var next := Execute(p, d, resume, faults).0;
    if d.lines != [] {
      LoserFacts(p, start, d.files, StateOf(d.lines), g, m);
    } else {
      StateOfNothing();
    }
    if next.lines != [] {
      LoserFacts(p, start, next.files, StateOf(next.lines), g, m);
    }
    if AllHold(next.files, p, false) {
      assert GroupHolds(next.files, p.groups[g], false);
    }
  }
}
