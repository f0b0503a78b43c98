/** Facts about every quarantine run of every plan, sound or not: the journal only grows,
    and the files are only ever permuted among places. */
module QuarantineConservation {
  import opened MediaStore
  import opened QuarantineModel
  import opened QuarantineExecution
  import opened JournalFacts

  ghost predicate Covers(t: Terms, group: string, members: seq<Loser>) {
    && (t.plain ==> PlainGroup(group, members))
    && (forall m :: m in members ==> MoveOf(m) in t.moves)
  }

  ghost predicate Permits(t: Terms, p: Plan) {
    forall g :: 0 <= g < |p.groups| ==> Covers(t, p.groups[g].id, p.groups[g].members)
  }

  lemma TermsPermit(p: Plan, plain: bool)
    requires plain ==> p.IsPlain()
    ensures Permits(TermsOf(p, plain), p)
  {
    hide HasBreak;
  }

  lemma {:induction false} SortEvolves(t: Terms, w: QuarantineWorld, group: string, state: JournalState,
                                       todo: seq<Loser>, pending: seq<Loser>, recovered: nat)
    requires Covers(t, group, todo)
    ensures
      var r := Sort(w, group, state, todo, pending, recovered);
      && Evolves(t, w, r.world) && r.world.files == w.files
      && (forall m :: m in r.pending ==> m in pending || m in todo)
    decreases |todo|
  {
    hide Append, StateOfLoser, Evolves, Check, HasBreak;
    EvolvesNot(t, w);
    if todo != [] {
      var m := todo[0];
      var key := KeyOf(group, m);
      var now := StateOfLoser(w.files, m);
      var r := Sort(w, group, state, todo, pending, recovered);
      CheckEvolves(t, w, now != Ambiguous);
      var (w1, s1) := Check(w, now != Ambiguous);
      if s1 == Fine {
        if key in state.completedMembers {
          if now != AtHome {
            SortEvolves(t, w1, group, state, todo[1..], pending, recovered);
            EvolvesTransitive(t, w, w1, r.world);
          }
        } else if (key in state.startedMembers && now == Quarantined) || now == AlreadyAbsent {
          assert m in todo;
          AppendEvolves(t, w1, MemberCompleted(key));
          var (next, signal) := Append(w1, MemberCompleted(key));
          EvolvesTransitive(t, w, w1, next);
          if signal == Fine {
            SortEvolves(t, next, group, state, todo[1..], pending, if now == Quarantined then recovered + 1 else recovered);
            EvolvesTransitive(t, w, next, r.world);
          }
        } else if now == AtHome {
          SortEvolves(t, w1, group, state, todo[1..], pending + [m], recovered);
          EvolvesTransitive(t, w, w1, r.world);
        }
      }
    }
  }

  lemma AnnounceEvolves(t: Terms, w: QuarantineWorld, group: string, m: Loser)
    requires Covers(t, group, [m])
    ensures
      var (next, signal) := Announce(w, group, m);
      && Evolves(t, w, next) && next.files == w.files
      && (signal == Fine ==> StateOfLoser(w.files, m) == AtHome)
  {
    hide Append, EnsureDirectories, Evolves, Check, StateOfLoser, HasBreak;
    if t.plain {
      assert IsPlainLoser([m][0]);
      ParentsPrint(m.quarantine, |m.quarantine.path|);
    }
    DirectoriesEvolve(t, w, group, Parents(m.quarantine));
    var w1 := EnsureDirectories(w, group, Parents(m.quarantine)).0;
    AppendEvolves(t, w1, MemberStarted(KeyOf(group, m)));
    var w2 := Append(w1, MemberStarted(KeyOf(group, m))).0;
    CheckEvolves(t, w2, StateOfLoser(w2.files, m) == AtHome);
    EvolvesTransitive(t, w, w1, w2);
    EvolvesTransitive(t, w, w2, Check(w2, StateOfLoser(w2.files, m) == AtHome).0);
  }

  lemma MoveOneEvolves(t: Terms, w: QuarantineWorld, group: string, m: Loser, moved: seq<Loser>)
    requires Covers(t, group, [m])
    ensures
      var r := MoveOne(w, group, m, moved);
      Evolves(t, w, r.world) && (r.moved == moved || r.moved == moved + [m])
  {
    hide Append, Announce, RenameNoReplace, StateOfLoser, Evolves, Check, HasBreak;
    AnnounceEvolves(t, w, group, m);
    var (w1, s1) := Announce(w, group, m);
    var w2 := RenameNoReplace(w1, m.source, m.quarantine).0;
    if s1 == Fine {
      assert m in [m];
      StateIsApproved(t, w1.files, m);
      RenameEvolves(t, w1, m.source, m.quarantine);
      EvolvesTransitive(t, w, w1, w2);
    }
    CheckEvolves(t, w2, StateOfLoser(w2.files, m) == Quarantined);
    var w3 := Check(w2, StateOfLoser(w2.files, m) == Quarantined).0;
    if t.plain { assert IsPlainLoser([m][0]); }
    AppendEvolves(t, w3, MemberCompleted(KeyOf(group, m)));
    if s1 == Fine {
      EvolvesTransitive(t, w, w2, w3);
      EvolvesTransitive(t, w, w3, Append(w3, MemberCompleted(KeyOf(group, m))).0);
    }
  }

  lemma {:induction false} MoveAllEvolves(t: Terms, w: QuarantineWorld, group: string, todo: seq<Loser>,
                                          moved: seq<Loser>)
    requires Covers(t, group, todo)
    ensures
      var r := MoveAll(w, group, todo, moved);
      && Evolves(t, w, r.world)
      && (forall m :: m in r.moved ==> m in moved || m in todo)
    decreases |todo|
  {
    hide Append, MoveOne, Evolves, HasBreak;
    if todo == [] {
      AppendEvolves(t, w, GroupCompleted(group));
    } else {
      MoveOneEvolves(t, w, group, todo[0], moved);
      var r := MoveOne(w, group, todo[0], moved);
      if r.signal == Fine {
        MoveAllEvolves(t, r.world, group, todo[1..], r.moved);
        EvolvesTransitive(t, w, r.world, MoveAll(w, group, todo, moved).world);
      }
    }
  }

  lemma UndoOneEvolves(t: Terms, w: QuarantineWorld, group: string, m: Loser, failures: seq<Loser>)
    requires Covers(t, group, [m])
    ensures Evolves(t, w, UndoOne(w, group, m, failures).world)
  {
    hide Append, RenameNoReplace, StateOfLoser, Evolves, Check, HasBreak;
    if t.plain { assert IsPlainLoser([m][0]); }
    CheckEvolves(t, w, StateOfLoser(w.files, m) == Quarantined);
    var (w0, s0) := Check(w, StateOfLoser(w.files, m) == Quarantined);
    if s0 == Fine {
      RollbackEvolves(t, w, w0, group, m);
    }
  }

  lemma RollbackEvolves(t: Terms, w: QuarantineWorld, w0: QuarantineWorld, group: string, m: Loser)
    requires Covers(t, group, [m])
    requires Evolves(t, w, w0) && StateOfLoser(w0.files, m) == Quarantined
    ensures
      var w1 := Append(w0, RollbackStarted(KeyOf(group, m))).0;
      var w2 := RenameNoReplace(w1, m.quarantine, m.source).0;
      var w3 := Check(w2, StateOfLoser(w2.files, m) == AtHome).0;
      && Evolves(t, w, w1) && Evolves(t, w, w2) && Evolves(t, w, w3)
      && Evolves(t, w, Append(w3, RollbackCompleted(KeyOf(group, m))).0)
  {
    hide Append, RenameNoReplace, StateOfLoser, Evolves, Check, HasBreak;
    assert m in [m] && (t.plain ==> IsPlainLoser([m][0]));
    AppendEvolves(t, w0, RollbackStarted(KeyOf(group, m)));
    var w1 := Append(w0, RollbackStarted(KeyOf(group, m))).0;
    StateIsApproved(t, w1.files, m);
    RenameEvolves(t, w1, m.quarantine, m.source);
    var w2 := RenameNoReplace(w1, m.quarantine, m.source).0;
    CheckEvolves(t, w2, StateOfLoser(w2.files, m) == AtHome);
    var w3 := Check(w2, StateOfLoser(w2.files, m) == AtHome).0;
    AppendEvolves(t, w3, RollbackCompleted(KeyOf(group, m)));
    EvolvesTransitive(t, w, w0, w1);
    EvolvesTransitive(t, w, w1, w2);
    EvolvesTransitive(t, w, w2, w3);
    EvolvesTransitive(t, w, w3, Append(w3, RollbackCompleted(KeyOf(group, m))).0);
  }

  lemma {:induction false} UndoAllEvolves(t: Terms, w: QuarantineWorld, group: string, members: seq<Loser>,
                                          failures: seq<Loser>)
    requires Covers(t, group, members)
    ensures Evolves(t, w, UndoAll(w, group, members, failures).world)
    decreases |members|
  {
    hide UndoOne, Evolves, HasBreak;
    if members == [] {
      EvolvesNot(t, w);
    } else {
      var last := |members| - 1;
      UndoOneEvolves(t, w, group, members[last], failures);
      var u := UndoOne(w, group, members[last], failures);
      if !u.halted {
        UndoAllEvolves(t, u.world, group, members[..last], u.failures);
        EvolvesTransitive(t, w, u.world, UndoAll(w, group, members, failures).world);
      }
    }
  }

  lemma HandleEvolves(t: Terms, w: QuarantineWorld, group: string, moved: seq<Loser>)
    requires Covers(t, group, moved)
    ensures Evolves(t, w, Handle(w, group, moved).0)
  {
    hide Append, UndoAll, Evolves, HasBreak;
    UndoAllEvolves(t, w, group, moved, []);
    var u := UndoAll(w, group, moved, []);
    AppendEvolves(t, u.world, GroupFailed(group));
    EvolvesTransitive(t, w, u.world, Append(u.world, GroupFailed(group)).0);
  }

  lemma TryGroupEvolves(t: Terms, w: QuarantineWorld, group: string, pending: seq<Loser>)
    requires Covers(t, group, pending)
    ensures
      var r := TryGroup(w, group, pending);
      && Evolves(t, w, r.world)
      && (forall m :: m in r.moved ==> m in pending)
  {
    hide MoveAll, Evolves, Check, StateOfLoser, HasBreak;
    var ready := forall m | m in pending :: StateOfLoser(w.files, m) == AtHome;
    CheckEvolves(t, w, ready);
    var next := Check(w, ready).0;
    MoveAllEvolves(t, next, group, pending, []);
    EvolvesTransitive(t, w, next, MoveAll(next, group, pending, []).world);
  }

  lemma RunGroupEvolves(t: Terms, w: QuarantineWorld, g: LoserGroup, moved: nat, recovered: nat)
    requires Covers(t, g.id, g.members)
    ensures Evolves(t, w, RunGroup(w, g, moved, recovered).world)
  {
    hide Append, Sort, TryGroup, Handle, StateOf, Evolves, HasBreak;
    SortEvolves(t, w, g.id, StateOf(w.entries), g.members, [], recovered);
    var sorting := Sort(w, g.id, StateOf(w.entries), g.members, [], recovered);
    AppendEvolves(t, sorting.world, GroupStarted(g.id));
    var w1 := Append(sorting.world, GroupStarted(g.id)).0;
    EvolvesTransitive(t, w, sorting.world, w1);
    TryGroupEvolves(t, w1, g.id, sorting.pending);
    var r := TryGroup(w1, g.id, sorting.pending);
    EvolvesTransitive(t, w, w1, r.world);
    HandleEvolves(t, r.world, g.id, r.moved);
    EvolvesTransitive(t, w, r.world, Handle(r.world, g.id, r.moved).0);
  }

  lemma ConcludeEvolves(t: Terms, w: QuarantineWorld, p: Plan, groups: nat, moved: nat, recovered: nat)
    ensures Evolves(t, w, Conclude(w, p, groups, moved, recovered).0)
  {
    hide Append, Evolves, Check, AllHold;
    CheckEvolves(t, w, AllHold(w.files, p, false));
    var w1 := Check(w, AllHold(w.files, p, false)).0;
    AppendEvolves(t, w1, RunCompleted);
    EvolvesTransitive(t, w, w1, Append(w1, RunCompleted).0);
  }

  lemma {:induction false} RunGroupsEvolve(t: Terms, w: QuarantineWorld, p: Plan, i: nat, done: set<string>,
                                           moved: nat, recovered: nat)
    requires i <= |p.groups| && Permits(t, p)
    ensures Evolves(t, w, RunGroups(w, p, i, done, moved, recovered).0)
    decreases |p.groups| - i
  {
    hide Append, RunGroup, Conclude, Evolves, Check, StateOfWinner, GroupHolds, PlainGroup;
    if i == |p.groups| {
      ConcludeEvolves(t, w, p, |done|, moved, recovered);
    } else {
      var g := p.groups[i];
      var end := RunGroups(w, p, i, done, moved, recovered).0;
      var holds := if g.id in done then GroupHolds(w.files, g, false) else StateOfWinner(w.files, g.winner) == Organized;
      CheckEvolves(t, w, holds);
      var (w1, s1) := Check(w, holds);
      if s1 == Fine {
        if g.id in done {
          RunGroupsEvolve(t, w1, p, i + 1, done, moved, recovered);
          EvolvesTransitive(t, w, w1, end);
        } else {
          RunGroupEvolves(t, w1, g, moved, recovered);
          var r := RunGroup(w1, g, moved, recovered);
          EvolvesTransitive(t, w, w1, r.world);
          if r.GoOn? {
            RunGroupsEvolve(t, r.world, p, i + 1, done + {g.id}, r.moved, r.recovered);
            EvolvesTransitive(t, w, r.world, end);
          }
        }
      }
    }
  }

  lemma BeginEvolves(t: Terms, p: Plan, d: Disk, resume: bool, faults: seq<Fault>)
    ensures Evolves(t, Abreast(d, faults), Begin(p, d, resume, faults).0)
    ensures Begin(p, d, resume, faults).1 == Fine ==> InSync(Begin(p, d, resume, faults).0)
  {
    hide MayStart, Append, Printable, Permuted, Disk.IsReadable;
    var w := Abreast(d, faults);
    if resume {
      CheckEvolves(t, w, d.lines != [] && d.IsReadable());
    } else {
      CheckEvolves(t, w, !d.HasJournal() && MayStart(d.files, p));
      var (next, signal) := Check(Launch(d, faults), !d.HasJournal() && MayStart(d.files, p));
      if signal == Fine {
        AppendEvolves(t, next, RunStarted);
        AppendIsClean(next, RunStarted);
        EvolvesTransitive(t, w, next, Append(next, RunStarted).0);
      }
    }
  }

  lemma ExecuteEvolves(plain: bool, p: Plan, d: Disk, resume: bool, faults: seq<Fault>)
    requires plain ==> p.IsPlain()
    ensures Evolves(TermsOf(p, plain), Abreast(d, faults), Execute(p, d, resume, faults).0)
  {
    hide RunGroups, StateOf, AllHold, Begin, Check, Evolves, Plan.IsPlain;
    var t := TermsOf(p, plain);
    TermsPermit(p, plain);
    BeginEvolves(t, p, d, resume, faults);
    var (w, signal) := Begin(p, d, resume, faults);
    if signal == Fine {
      var state := StateOf(w.entries);
      if state.runCompleted {
        CheckEvolves(t, w, AllHold(w.files, p, true));
        EvolvesTransitive(t, Abreast(d, faults), w, Check(w, AllHold(w.files, p, true)).0);
      } else {
        RunGroupsEvolve(t, w, p, 0, state.completedGroups, 0, 0);
        EvolvesTransitive(t, Abreast(d, faults), w, RunGroups(w, p, 0, state.completedGroups, 0, 0).0);
      }
    }
  }

  /** No plan, even one whose winners are losers of other groups, and no sequence of faults
      makes a run lose or overwrite a file, or rewrite a journal line. */
  lemma NoFileIsLost(p: Plan, d: Disk, resume: bool, faults: seq<Fault>)
    ensures
      var after := Execute(p, d, resume, faults).0.Durable();
      d.lines <= after.lines && Permuted(d.files, after.files)
  {
    hide Execute, Permuted, Printable;
    ExecuteEvolves(false, p, d, resume, faults);
  }

  lemma {:induction false} NoFileIsEverLost(p: Plan, d: Disk, runs: seq<Run>)
    ensures
      var after := Campaign(p, d, runs);
      d.lines <= after.lines && Permuted(d.files, after.files)
    decreases |runs|
  {
    hide Execute;
    if runs != [] {
      NoFileIsLost(p, d, runs[0].resume, runs[0].faults);
      NoFileIsEverLost(p, Execute(p, d, runs[0].resume, runs[0].faults).0.Durable(), runs[1..]);
    }
  }
}
