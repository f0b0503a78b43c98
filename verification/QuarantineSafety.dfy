/** Every quarantine run keeps the invariant; a group's attempt touches only that group. */
module QuarantineSafety {
  import opened MediaStore
  import opened QuarantineModel
  import opened QuarantineExecution
  import opened QuarantineInvariant
  import opened JournalFacts

  ghost predicate Good(p: Plan, start: Files, w: QuarantineWorld) {
    Setting(p, start) && Invariant(p, start, w.files, StateOf(w.lines))
  }

  ghost predicate Elsewhere(p: Plan, g: int, w: QuarantineWorld, after: QuarantineWorld) {
    && (forall h, m :: p.Has(h, m) && h != g ==>
          && StateOfLoser(after.files, m) == StateOfLoser(w.files, m)
          && (KeyOf(p.groups[h].id, m) in StateOf(after.lines).completedMembers
              <==> KeyOf(p.groups[h].id, m) in StateOf(w.lines).completedMembers))
    && (forall h :: 0 <= h < |p.groups| && h != g ==>
          (p.groups[h].id in StateOf(after.lines).completedGroups <==> p.groups[h].id in StateOf(w.lines).completedGroups))
  }

  /** A stretch of an unfinished run that works on group `g`. */
  ghost predicate Kept(p: Plan, start: Files, g: int, w: QuarantineWorld, after: QuarantineWorld, signal: Signal) {
    && Good(p, start, after)
    && !StateOf(after.lines).runCompleted
    && Elsewhere(p, g, w, after)
    && (signal == Fine && InSync(w) ==> InSync(after))
  }

  lemma KeptTransitive(p: Plan, start: Files, g: int, a: QuarantineWorld, b: QuarantineWorld, c: QuarantineWorld,
                       signal: Signal)
    requires Kept(p, start, g, a, b, Fine) && Kept(p, start, g, b, c, signal)
    ensures Kept(p, start, g, a, c, signal)
  {
    hide Good, StateOf;
  }

  lemma KeptAtFirst(p: Plan, start: Files, g: int, w: QuarantineWorld)
    requires Good(p, start, w) && !StateOf(w.lines).runCompleted
    ensures Kept(p, start, g, w, w, Fine)
  {
  }

  /** After an append the journal says what it said before, or the line as well. */
  lemma AppendRecords(w: QuarantineWorld, event: Event)
    ensures
      var (next, signal) := Append(w, event);
      var recorded := Record(StateOf(w.lines), Line(|w.entries| + 1, event));
      && next.files == w.files
      && (StateOf(next.lines) == StateOf(w.lines) || StateOf(next.lines) == recorded)
      && (signal == Fine ==> StateOf(next.lines) == recorded && (InSync(w) ==> InSync(next)))
  {
    hide StateOf;
    StateOfAppend(w.lines, Line(|w.entries| + 1, event));
    StateOfAppend(w.lines, Broken);
  }

  lemma AppendAboutLoser(p: Plan, start: Files, w: QuarantineWorld, g: int, m: Loser, event: Event)
    requires Good(p, start, w) && !StateOf(w.lines).runCompleted && p.Has(g, m)
    requires
      var key := KeyOf(p.groups[g].id, m);
      || event == MemberStarted(key) || event == RollbackStarted(key) || event == MemberCompleted(key)
      || (event == RollbackCompleted(key) && !Away(start, w.files, m))
    ensures
      var (next, signal) := Append(w, event);
      && Kept(p, start, g, w, next, signal) && next.files == w.files
      && StateOf(next.lines).completedGroups == StateOf(w.lines).completedGroups
      && (signal == Fine ==> StateOf(next.lines) == Record(StateOf(w.lines), Line(|w.entries| + 1, event)))
  {
    hide Setting, Invariant, StateOf, StateOfLoser, Append;
    var line := Line(|w.entries| + 1, event);
    AppendRecords(w, event);
    LineKeeps(p, start, w.files, StateOf(w.lines), line, g, m);
    forall h, n | p.Has(h, n) && h != g
      ensures KeyOf(p.groups[h].id, n) != KeyOf(p.groups[g].id, m)
    {
      if KeyOf(p.groups[h].id, n) == KeyOf(p.groups[g].id, m) { KeysIdentify(p, start, h, n, g, m); }
    }
  }

  lemma AppendAboutGroup(p: Plan, start: Files, w: QuarantineWorld, g: int, event: Event)
    requires Good(p, start, w) && !StateOf(w.lines).runCompleted && 0 <= g < |p.groups|
    requires event.GroupStarted? || event.GroupFailed? || event == GroupCompleted(p.groups[g].id)
    ensures
      var (next, signal) := Append(w, event);
      && Kept(p, start, g, w, next, signal) && next.files == w.files
      && (signal == Fine ==> StateOf(next.lines) == Record(StateOf(w.lines), Line(|w.entries| + 1, event)))
  {
    hide Setting, Invariant, StateOf, StateOfLoser, KeyOf, GroupIds, MayStart, Append;
    var line := Line(|w.entries| + 1, event);
    AppendRecords(w, event);
    GroupIdsApart(p, start, g);
    GroupLineKeeps(p, start, w.files, StateOf(w.lines), line);
  }

  lemma GroupIdsApart(p: Plan, start: Files, g: int)
    requires Setting(p, start) && 0 <= g < |p.groups|
    ensures p.groups[g].id in GroupIds(p)
    ensures forall h :: 0 <= h < |p.groups| && h != g ==> p.groups[h].id != p.groups[g].id
  {
  }

  lemma RenameKeeps(p: Plan, start: Files, w: QuarantineWorld, g: int, m: Loser, after: QuarantineWorld)
    requires Good(p, start, w) && !StateOf(w.lines).runCompleted && p.Has(g, m)
    requires
      || (Home(start, w.files, m) && after.files == Relocate(w.files, m.source, m.quarantine)
          && KeyOf(p.groups[g].id, m) in StateOf(w.lines).startedMembers)
      || (Away(start, w.files, m) && after.files == Relocate(w.files, m.quarantine, m.source))
    requires after.lines == w.lines && after.entries == w.entries
    ensures Kept(p, start, g, w, after, Fine)
    ensures StateOfLoser(after.files, m) == if Home(start, w.files, m) then Quarantined else AtHome
    ensures forall n :: p.Has(g, n) && n != m ==> StateOfLoser(after.files, n) == StateOfLoser(w.files, n)
  {
    hide Setting, Invariant, StateOf, StateOfLoser;
    var s := StateOf(w.lines);
    if Home(start, w.files, m) {
      LoserLeaves(p, start, w.files, s, g, m);
    } else {
      LoserReturns(p, start, w.files, s, g, m);
    }
    LoserFacts(p, start, after.files, s, g, m);
    OthersStay(p, start, w.files, g, m, after.files);
    forall h, n | p.Has(h, n) && (h != g || n != m)
      ensures StateOfLoser(after.files, n) == StateOfLoser(w.files, n)
    {
      LoserFacts(p, start, w.files, s, h, n);
      LoserFacts(p, start, after.files, s, h, n);
    }
  }

  lemma CheckKept(p: Plan, start: Files, g: int, w: QuarantineWorld, holds: bool)
    requires Good(p, start, w) && !StateOf(w.lines).runCompleted
    ensures
      var (next, signal) := Check(w, holds);
      && Kept(p, start, g, w, next, signal)
      && next == w.(faults := LaterFaults(w.faults)) && (signal == Fine ==> holds)
  {
    hide Setting, Invariant, StateOf, StateOfLoser;
  }

  /** A rename out of or back into the library, acknowledged or not. */
  lemma RenameStepKept(p: Plan, start: Files, g: int, w: QuarantineWorld, m: Loser, leaving: bool)
    requires Good(p, start, w) && !StateOf(w.lines).runCompleted && p.Has(g, m)
    requires StateOfLoser(w.files, m) == if leaving then AtHome else Quarantined
    requires leaving ==> KeyOf(p.groups[g].id, m) in StateOf(w.lines).startedMembers
    ensures
      var (next, signal) := if leaving then RenameNoReplace(w, m.source, m.quarantine) else RenameNoReplace(w, m.quarantine, m.source);
      && Kept(p, start, g, w, next, signal) && next.lines == w.lines && next.entries == w.entries
      && (signal == Fine ==> StateOfLoser(next.files, m) == if leaving then Quarantined else AtHome)
      && (forall n :: p.Has(g, n) && n != m ==> StateOfLoser(next.files, n) == StateOfLoser(w.files, n))
  {
    hide Setting, Invariant, StateOf, StateOfLoser, Elsewhere, Home, Away, Relocate;
    LoserFacts(p, start, w.files, StateOf(w.lines), g, m);
    HomeOrAway(start, w.files, m);
    var (next, signal) := if leaving then RenameNoReplace(w, m.source, m.quarantine) else RenameNoReplace(w, m.quarantine, m.source);
    if next.files == w.files && signal != Fine {
      SameFilesKept(p, start, g, w, next, signal);
    } else {
      RenameKeeps(p, start, w, g, m, next);
    }
  }

  lemma HomeOrAway(start: Files, files: Files, m: Loser)
    ensures Home(start, files, m) ==> m.source in files && m.quarantine !in files && !Away(start, files, m)
    ensures Away(start, files, m) ==> m.quarantine in files && m.source !in files
  {
  }

  lemma SameFilesKept(p: Plan, start: Files, g: int, w: QuarantineWorld, next: QuarantineWorld, signal: Signal)
    requires Good(p, start, w) && !StateOf(w.lines).runCompleted && signal != Fine
    requires next.files == w.files && next.lines == w.lines
    ensures Kept(p, start, g, w, next, signal)
  {
    hide Setting, Invariant, StateOf, StateOfLoser;
  }

  lemma {:induction false} SortKeeps(p: Plan, start: Files, g: int, w: QuarantineWorld, state: JournalState, todo: seq<Loser>,
                                     pending: seq<Loser>, recovered: nat)
    requires Good(p, start, w) && !StateOf(w.lines).runCompleted && 0 <= g < |p.groups|
    requires forall m :: m in todo ==> p.Has(g, m)
    requires forall m :: m in pending ==> p.Has(g, m) && StateOfLoser(w.files, m) == AtHome
    ensures
      var r := Sort(w, p.groups[g].id, state, todo, pending, recovered);
      && Kept(p, start, g, w, r.world, r.signal) && r.world.files == w.files
      && StateOf(r.world.lines).completedGroups == StateOf(w.lines).completedGroups
      && (forall m :: m in r.pending ==> p.Has(g, m) && StateOfLoser(w.files, m) == AtHome)
      && (r.signal == Fine ==> forall m :: m in pending || (m in todo && StateOfLoser(w.files, m) == AtHome) ==> m in r.pending)
    decreases |todo|
  {
    hide Setting, Invariant, StateOf, StateOfLoser, Append, Elsewhere, Check, Good;
    if todo == [] {
      KeptAtFirst(p, start, g, w);
    } else {
      var m := todo[0];
      var id := p.groups[g].id;
      var key := KeyOf(id, m);
      assert p.Has(g, m) && todo == [m] + todo[1..];
      var now := StateOfLoser(w.files, m);
      var r := Sort(w, id, state, todo, pending, recovered);
      CheckKept(p, start, g, w, now != Ambiguous);
      var (w1, s1) := Check(w, now != Ambiguous);
      if s1 == Fine {
        if key in state.completedMembers {
          if now != AtHome {
            SortKeeps(p, start, g, w1, state, todo[1..], pending, recovered);
            KeptTransitive(p, start, g, w, w1, r.world, r.signal);
          } else {
            KeptThen(p, start, g, w, w1, Raised);
          }
        } else if (key in state.startedMembers && now == Quarantined) || now == AlreadyAbsent {
          AppendAboutLoser(p, start, w1, g, m, MemberCompleted(key));
          var (next, signal) := Append(w1, MemberCompleted(key));
          KeptTransitive(p, start, g, w, w1, next, signal);
          if signal == Fine {
            SortKeeps(p, start, g, next, state, todo[1..], pending, if now == Quarantined then recovered + 1 else recovered);
            KeptTransitive(p, start, g, w, next, r.world, r.signal);
          }
        } else if now == AtHome {
          SortKeeps(p, start, g, w1, state, todo[1..], pending + [m], recovered);
          KeptTransitive(p, start, g, w, w1, r.world, r.signal);
        } else {
          KeptThen(p, start, g, w, w1, Raised);
        }
      }
    }
  }

  lemma KeptThen(p: Plan, start: Files, g: int, w: QuarantineWorld, next: QuarantineWorld, signal: Signal)
    requires Kept(p, start, g, w, next, Fine)
    ensures Kept(p, start, g, w, next, signal)
  {
  }

  lemma AnnounceKeeps(p: Plan, start: Files, g: int, w: QuarantineWorld, m: Loser)
    requires Good(p, start, w) && !StateOf(w.lines).runCompleted && p.Has(g, m)
    ensures
      var (next, signal) := Announce(w, p.groups[g].id, m);
      && Kept(p, start, g, w, next, signal) && next.files == w.files
      && StateOf(next.lines).completedGroups == StateOf(w.lines).completedGroups
      && (signal == Fine ==>
        StateOfLoser(w.files, m) == AtHome && KeyOf(p.groups[g].id, m) in StateOf(next.lines).startedMembers)
  {
    hide Setting, Invariant, StateOf, StateOfLoser, Append, Elsewhere, EnsureDirectories, Check;
    var key := KeyOf(p.groups[g].id, m);
    var (w1, s1) := EnsureDirectories(w, p.groups[g].id, Parents(m.quarantine));
    DirectoriesKept(p, start, g, w, Parents(m.quarantine));
    if s1 == Fine {
      AppendAboutLoser(p, start, w1, g, m, MemberStarted(key));
      var (w2, s2) := Append(w1, MemberStarted(key));
      KeptTransitive(p, start, g, w, w1, w2, s2);
      if s2 == Fine {
        CheckKept(p, start, g, w2, StateOfLoser(w2.files, m) == AtHome);
        var (w3, s3) := Check(w2, StateOfLoser(w2.files, m) == AtHome);
        KeptTransitive(p, start, g, w, w2, w3, s3);
      }
    }
  }

  lemma MoveOneKeeps(p: Plan, start: Files, g: int, w: QuarantineWorld, m: Loser, moved: seq<Loser>)
    requires Good(p, start, w) && !StateOf(w.lines).runCompleted && p.Has(g, m)
    ensures
      var r := MoveOne(w, p.groups[g].id, m, moved);
      && Kept(p, start, g, w, r.world, r.signal)
      && StateOf(r.world.lines).completedGroups == StateOf(w.lines).completedGroups
      && (r.signal == Fine ==> StateOfLoser(r.world.files, m) == Quarantined && r.moved == moved + [m])
      && (r.moved == moved || (r.moved == moved + [m] && StateOfLoser(r.world.files, m) == Quarantined))
      && (forall n :: p.Has(g, n) && n != m ==> StateOfLoser(r.world.files, n) == StateOfLoser(w.files, n))
  {
    hide Setting, Invariant, StateOf, StateOfLoser, Append, Elsewhere, Announce, Check, RenameNoReplace;
    var key := KeyOf(p.groups[g].id, m);
    AnnounceKeeps(p, start, g, w, m);
    var (w1, s1) := Announce(w, p.groups[g].id, m);
    if s1 == Fine {
      RenameStepKept(p, start, g, w1, m, true);
      var (w2, s2) := RenameNoReplace(w1, m.source, m.quarantine);
      KeptTransitive(p, start, g, w, w1, w2, s2);
      if s2 == Fine {
        CheckKept(p, start, g, w2, StateOfLoser(w2.files, m) == Quarantined);
        var (w3, s3) := Check(w2, StateOfLoser(w2.files, m) == Quarantined);
        KeptTransitive(p, start, g, w, w2, w3, s3);
        if s3 == Fine {
          AppendAboutLoser(p, start, w3, g, m, MemberCompleted(key));
          KeptTransitive(p, start, g, w, w3, Append(w3, MemberCompleted(key)).0, Append(w3, MemberCompleted(key)).1);
        }
      }
    }
  }

  lemma DirectoriesKept(p: Plan, start: Files, g: int, w: QuarantineWorld, todo: seq<Location>)
    requires Good(p, start, w) && !StateOf(w.lines).runCompleted && 0 <= g < |p.groups|
    ensures
      var (next, signal) := EnsureDirectories(w, p.groups[g].id, todo);
      && Kept(p, start, g, w, next, signal) && next.files == w.files
      && StateOf(next.lines) == StateOf(w.lines)
  {
    hide Setting, Invariant, StateOf, StateOfLoser, EnsureDirectories;
    DirectoriesEvolve(Still, w, p.groups[g].id, todo);
    DirectoriesAreSilent(w, p.groups[g].id, todo);
    DirectoriesAreClean(w, p.groups[g].id, todo);
  }

  lemma {:induction false} MoveAllKeeps(p: Plan, start: Files, g: int, w: QuarantineWorld, todo: seq<Loser>,
                                        moved: seq<Loser>)
    requires Good(p, start, w) && !StateOf(w.lines).runCompleted && 0 <= g < |p.groups|
    requires forall m :: m in todo ==> p.Has(g, m)
    ensures
      var r := MoveAll(w, p.groups[g].id, todo, moved);
      && Kept(p, start, g, w, r.world, r.signal)
      && (r.signal == Fine ==>
        && StateOf(r.world.lines).completedGroups == StateOf(w.lines).completedGroups + {p.groups[g].id}
        && (forall n :: p.Has(g, n) && StateOfLoser(w.files, n) == Quarantined ==> StateOfLoser(r.world.files, n) == Quarantined)
        && (forall n :: n in todo ==> StateOfLoser(r.world.files, n) == Quarantined))
      && (forall m :: m in r.moved ==> m in moved || m in todo)
    decreases |todo|
  {
    hide Setting, Invariant, StateOf, StateOfLoser, Append, Elsewhere, MoveOne;
    var id := p.groups[g].id;
    if todo == [] {
      AppendAboutGroup(p, start, w, g, GroupCompleted(id));
    } else {
      MoveOneKeeps(p, start, g, w, todo[0], moved);
      var r := MoveOne(w, id, todo[0], moved);
      if r.signal == Fine {
        MoveAllKeeps(p, start, g, r.world, todo[1..], r.moved);
        KeptTransitive(p, start, g, w, r.world, MoveAll(w, id, todo, moved).world, MoveAll(w, id, todo, moved).signal);
      }
    }
  }

  lemma UndoOneKeeps(p: Plan, start: Files, g: int, w: QuarantineWorld, m: Loser, failures: seq<Loser>)
    requires Good(p, start, w) && !StateOf(w.lines).runCompleted && p.Has(g, m)
    ensures
      var u := UndoOne(w, p.groups[g].id, m, failures);
      && Kept(p, start, g, w, u.world, Raised)
      && (forall n :: p.Has(g, n) && n != m ==> StateOfLoser(u.world.files, n) == StateOfLoser(w.files, n))
  {
    hide Setting, Invariant, StateOf, StateOfLoser, Append, Elsewhere, Home, Away, Check, RenameNoReplace;
    var key := KeyOf(p.groups[g].id, m);
    CheckKept(p, start, g, w, StateOfLoser(w.files, m) == Quarantined);
    var (w0, s0) := Check(w, StateOfLoser(w.files, m) == Quarantined);
    if s0 == Fine {
      AppendAboutLoser(p, start, w0, g, m, RollbackStarted(key));
      var (w1, s1) := Append(w0, RollbackStarted(key));
      KeptTransitive(p, start, g, w, w0, w1, s1);
      if s1 == Fine {
        RenameStepKept(p, start, g, w1, m, false);
        var (w2, s2) := RenameNoReplace(w1, m.quarantine, m.source);
        KeptTransitive(p, start, g, w, w1, w2, s2);
        if s2 == Fine {
          CheckKept(p, start, g, w2, StateOfLoser(w2.files, m) == AtHome);
          var (w3, s3) := Check(w2, StateOfLoser(w2.files, m) == AtHome);
          KeptTransitive(p, start, g, w, w2, w3, s3);
          if s3 == Fine {
            LoserFacts(p, start, w3.files, StateOf(w3.lines), g, m);
            HomeOrAway(start, w3.files, m);
            AppendAboutLoser(p, start, w3, g, m, RollbackCompleted(key));
            KeptTransitive(p, start, g, w, w3, Append(w3, RollbackCompleted(key)).0, Append(w3, RollbackCompleted(key)).1);
          }
        }
      }
    }
  }

  lemma {:induction false} UndoAllKeeps(p: Plan, start: Files, g: int, w: QuarantineWorld, members: seq<Loser>,
                                        failures: seq<Loser>)
    requires Good(p, start, w) && !StateOf(w.lines).runCompleted && 0 <= g < |p.groups|
    requires forall m :: m in members ==> p.Has(g, m)
    ensures Kept(p, start, g, w, UndoAll(w, p.groups[g].id, members, failures).world, Raised)
    decreases |members|
  {
    hide Setting, Invariant, StateOf, Elsewhere, UndoOne, InSync;
    if members == [] {
      KeptAtFirst(p, start, g, w);
    } else {
      var last := |members| - 1;
      UndoOneKeeps(p, start, g, w, members[last], failures);
      var u := UndoOne(w, p.groups[g].id, members[last], failures);
      if !u.halted {
        UndoAllKeeps(p, start, g, u.world, members[..last], u.failures);
        ElsewhereTransitive(p, g, w, u.world, UndoAll(w, p.groups[g].id, members, failures).world);
      }
    }
  }

  lemma ElsewhereTransitive(p: Plan, g: int, a: QuarantineWorld, b: QuarantineWorld, c: QuarantineWorld)
    requires Elsewhere(p, g, a, b) && Elsewhere(p, g, b, c)
    ensures Elsewhere(p, g, a, c)
  {
    hide StateOf, StateOfLoser;
  }

  lemma TryGroupKeeps(p: Plan, start: Files, g: int, w: QuarantineWorld, pending: seq<Loser>)
    requires Good(p, start, w) && !StateOf(w.lines).runCompleted && 0 <= g < |p.groups|
    requires forall m :: m in pending ==> p.Has(g, m)
    ensures
      var t := TryGroup(w, p.groups[g].id, pending);
      && Kept(p, start, g, w, t.world, t.signal)
      && (t.signal == Fine ==> StateOf(t.world.lines).completedGroups == StateOf(w.lines).completedGroups + {p.groups[g].id})
      && (forall m :: m in t.moved ==> m in pending)
  {
    hide Setting, Invariant, StateOf, StateOfLoser, Elsewhere, MoveAll, Check;
    var ready := forall m | m in pending :: StateOfLoser(w.files, m) == AtHome;
    CheckKept(p, start, g, w, ready);
    var next := Check(w, ready).0;
    if Check(w, ready).1 == Fine {
      MoveAllKeeps(p, start, g, next, pending, []);
      KeptTransitive(p, start, g, w, next, MoveAll(next, p.groups[g].id, pending, []).world, MoveAll(next, p.groups[g].id, pending, []).signal);
    }
  }

  /** Running a group whose winner is organized: the group is done, or the run ends. */
  ghost predicate GroupResultOk(p: Plan, start: Files, g: int, w: QuarantineWorld, r: GroupResult)
    requires 0 <= g < |p.groups|
  {
    && Good(p, start, r.world) && !StateOf(r.world.lines).runCompleted
    && Elsewhere(p, g, w, r.world)
    && (r.GoOn? ==>
      && InSync(r.world)
      && StateOf(r.world.lines).completedGroups == StateOf(w.lines).completedGroups + {p.groups[g].id})
    && (r.End? ==> !r.outcome.Completed?)
  }

  lemma RunGroupKeeps(p: Plan, start: Files, g: int, w: QuarantineWorld, moved: nat, recovered: nat)
    requires Good(p, start, w) && InSync(w) && !StateOf(w.lines).runCompleted && 0 <= g < |p.groups|
    ensures GroupResultOk(p, start, g, w, RunGroup(w, p.groups[g], moved, recovered))
  {
    hide Setting, Invariant, StateOf, StateOfLoser, Elsewhere, Sort, TryGroup, UndoAll, Append, Good;
    var group := p.groups[g];
    SortKeeps(p, start, g, w, StateOf(w.entries), group.members, [], recovered);
    var sorting := Sort(w, group.id, StateOf(w.entries), group.members, [], recovered);
    if sorting.signal == Fine {
      AppendAboutGroup(p, start, sorting.world, g, GroupStarted(group.id));
      var (w1, s1) := Append(sorting.world, GroupStarted(group.id));
      KeptTransitive(p, start, g, w, sorting.world, w1, s1);
      if s1 == Fine {
        TryGroupKeeps(p, start, g, w1, sorting.pending);
        var t := TryGroup(w1, group.id, sorting.pending);
        KeptTransitive(p, start, g, w, w1, t.world, t.signal);
        if t.signal == Raised {
          UndoAllKeeps(p, start, g, t.world, t.moved, []);
          var u := UndoAll(t.world, group.id, t.moved, []);
          ElsewhereTransitive(p, g, w, t.world, u.world);
          AppendAboutGroup(p, start, u.world, g, GroupFailed(group.id));
          ElsewhereTransitive(p, g, w, u.world, Append(u.world, GroupFailed(group.id)).0);
        }
      }
    }
  }

  lemma {:induction false} RunGroupsKeep(p: Plan, start: Files, w: QuarantineWorld, i: nat, done: set<string>,
                                         moved: nat, recovered: nat)
    requires Good(p, start, w) && InSync(w) && !StateOf(w.lines).runCompleted && i <= |p.groups|
    ensures Good(p, start, RunGroups(w, p, i, done, moved, recovered).0)
    decreases |p.groups| - i
  {
    hide Setting, Invariant, StateOf, RunGroup, GroupHolds, AllHold, Elsewhere, StateOfWinner, Check;
    if i == |p.groups| {
      ConcludeKeeps(p, start, w, |done|, moved, recovered);
    } else {
      var g := p.groups[i];
      var holds := if g.id in done then GroupHolds(w.files, g, false) else StateOfWinner(w.files, g.winner) == Organized;
      CheckKept(p, start, i, w, holds);
      var (w1, s1) := Check(w, holds);
      if s1 == Fine {
        if g.id in done {
          RunGroupsKeep(p, start, w1, i + 1, done, moved, recovered);
        } else {
          RunGroupKeeps(p, start, i, w1, moved, recovered);
          var r := RunGroup(w1, g, moved, recovered);
          if r.GoOn? {
            RunGroupsKeep(p, start, r.world, i + 1, done + {g.id}, r.moved, r.recovered);
          }
        }
      }
    }
  }

  lemma ConcludeKeeps(p: Plan, start: Files, w: QuarantineWorld, groups: nat, moved: nat, recovered: nat)
    requires Good(p, start, w) && InSync(w) && !StateOf(w.lines).runCompleted
    ensures Good(p, start, Conclude(w, p, groups, moved, recovered).0)
  {
    hide Setting, Invariant, StateOf, AllHold;
    if AllHold(w.files, p, false) {
      AllAway(p, start, w);
      StateOfAppend(w.lines, Line(|w.entries| + 1, RunCompleted));
      StateOfAppend(w.lines, Broken);
      GroupLineKeeps(p, start, w.files, StateOf(w.lines), Line(|w.entries| + 1, RunCompleted));
      GroupLineKeeps(p, start, w.files, StateOf(w.lines), Broken);
    }
  }

  lemma AllAway(p: Plan, start: Files, w: QuarantineWorld)
    requires Good(p, start, w) && AllHold(w.files, p, false)
    ensures forall g, m :: p.Has(g, m) ==> Away(start, w.files, m)
  {
    hide Setting, Invariant, StateOf, StateOfLoser;
    forall g, m | p.Has(g, m)
      ensures Away(start, w.files, m)
    {
      assert GroupHolds(w.files, p.groups[g], false);
      LoserFacts(p, start, w.files, StateOf(w.lines), g, m);
    }
  }
}
