/** The same of every restore run of every plan, whatever journal it was approved for. */
module RestoreConservation {
  import opened MediaStore
  import opened QuarantineModel
  import opened QuarantineRestore
  import opened JournalFacts

  ghost predicate Covers(t: Terms, group: string, members: seq<Loser>) {
    && (t.plain ==> PlainNames(group, members))
    && (forall m :: m in members ==> MoveOf(m) in t.moves)
  }

  ghost predicate Permits(t: Terms, p: Plan) {
    forall g :: 0 <= g < |p.groups| ==> Covers(t, p.groups[g].id, p.groups[g].members)
  }

  lemma TermsPermit(p: Plan, plain: bool)
    requires plain ==> p.HasPlainNames()
    ensures Permits(TermsOf(p, plain), p)
  {
    hide HasBreak;
  }

  lemma {:induction false} SortEvolves(t: Terms, w: QuarantineWorld, group: string, state: JournalState,
                                       todo: seq<Loser>, pending: seq<Loser>, recovered: nat)
    requires Covers(t, group, todo)
    ensures
      var r := Sort(w, group, state, todo, pending, recovered);
      && Evolves(t, w, r.world)
      && (forall m :: m in r.pending ==> m in pending || m in todo)
    decreases |todo|
  {
    hide Append, StateOfRestore, Evolves, Check, HasBreak;
    EvolvesNot(t, w);
    if todo != [] {
      var last := |todo| - 1;
      var m := todo[last];
      var key := KeyOf(group, m);
      var now := StateOfRestore(w.files, m);
      var r := Sort(w, group, state, todo, pending, recovered);
      CheckEvolves(t, w, now != Unknown);
      var (w1, s1) := Check(w, now != Unknown);
      if s1 == Fine {
        if key in state.completedMembers {
          if now == Restored {
            SortEvolves(t, w1, group, state, todo[..last], pending, recovered);
            EvolvesTransitive(t, w, w1, r.world);
          }
        } else if key in state.startedMembers && now == Restored {
          assert m in todo;
          AppendEvolves(t, w1, MemberCompleted(key));
          var (next, signal) := Append(w1, MemberCompleted(key));
          EvolvesTransitive(t, w, w1, next);
          if signal == Fine {
            SortEvolves(t, next, group, state, todo[..last], pending, recovered + 1);
            EvolvesTransitive(t, w, next, r.world);
          }
        } else if now == ToRestore {
          SortEvolves(t, w1, group, state, todo[..last], pending + [m], recovered);
          EvolvesTransitive(t, w, w1, r.world);
        }
      }
    }
  }

  lemma RestoreOneEvolves(t: Terms, w: QuarantineWorld, group: string, m: Loser, restored: nat)
    requires Covers(t, group, [m])
    ensures Evolves(t, w, RestoreOne(w, group, m, restored).world)
  {
    hide Append, RenameNoReplace, StateOfRestore, Evolves, Check, HasBreak;
    CheckEvolves(t, w, StateOfRestore(w.files, m) == ToRestore);
    var (w0, s0) := Check(w, StateOfRestore(w.files, m) == ToRestore);
    if s0 == Fine {
      RestoringEvolves(t, w, w0, group, m);
    }
  }

  lemma RestoringEvolves(t: Terms, w: QuarantineWorld, w0: QuarantineWorld, group: string, m: Loser)
    requires Covers(t, group, [m])
    requires Evolves(t, w, w0) && StateOfRestore(w0.files, m) == ToRestore
    ensures
      var w1 := Append(w0, MemberStarted(KeyOf(group, m))).0;
      var w2 := RenameNoReplace(w1, m.quarantine, m.source).0;
      var w3 := Check(w2, StateOfRestore(w2.files, m) == Restored).0;
      && Evolves(t, w, w1) && Evolves(t, w, w2) && Evolves(t, w, w3)
      && Evolves(t, w, Append(w3, MemberCompleted(KeyOf(group, m))).0)
  {
    hide Append, RenameNoReplace, StateOfLoser, Evolves, Check, HasBreak;
    assert m in [m] && (t.plain ==> !HasBreak([m][0].sourceKey));
    AppendEvolves(t, w0, MemberStarted(KeyOf(group, m)));
    var w1 := Append(w0, MemberStarted(KeyOf(group, m))).0;
    StateIsApproved(t, w1.files, m);
    RenameEvolves(t, w1, m.quarantine, m.source);
    var w2 := RenameNoReplace(w1, m.quarantine, m.source).0;
    CheckEvolves(t, w2, StateOfRestore(w2.files, m) == Restored);
    var w3 := Check(w2, StateOfRestore(w2.files, m) == Restored).0;
    AppendEvolves(t, w3, MemberCompleted(KeyOf(group, m)));
    EvolvesTransitive(t, w, w0, w1);
    EvolvesTransitive(t, w, w1, w2);
    EvolvesTransitive(t, w, w2, w3);
    EvolvesTransitive(t, w, w3, Append(w3, MemberCompleted(KeyOf(group, m))).0);
  }

  lemma {:induction false} RestoreAllEvolves(t: Terms, w: QuarantineWorld, group: string, todo: seq<Loser>,
                                             restored: nat)
    requires Covers(t, group, todo)
    ensures Evolves(t, w, RestoreAll(w, group, todo, restored).world)
    decreases |todo|
  {
    hide Append, RestoreOne, Evolves, HasBreak;
    if todo == [] {
      AppendEvolves(t, w, GroupCompleted(group));
    } else {
      RestoreOneEvolves(t, w, group, todo[0], restored);
      var r := RestoreOne(w, group, todo[0], restored);
      if r.signal == Fine {
        RestoreAllEvolves(t, r.world, group, todo[1..], r.restored);
        EvolvesTransitive(t, w, r.world, RestoreAll(w, group, todo, restored).world);
      }
    }
  }

  lemma RunGroupEvolves(t: Terms, w: QuarantineWorld, g: LoserGroup, restored: nat, recovered: nat)
    requires Covers(t, g.id, g.members)
    ensures Evolves(t, w, RunGroup(w, g, restored, recovered).world)
  {
    hide Append, Sort, RestoreAll, StateOf, Evolves, HasBreak;
    SortEvolves(t, w, g.id, StateOf(w.entries), g.members, [], recovered);
    var sorting := Sort(w, g.id, StateOf(w.entries), g.members, [], recovered);
    AppendEvolves(t, sorting.world, GroupStarted(g.id));
    var w1 := Append(sorting.world, GroupStarted(g.id)).0;
    EvolvesTransitive(t, w, sorting.world, w1);
    RestoreAllEvolves(t, w1, g.id, sorting.pending, restored);
    var r := RestoreAll(w1, g.id, sorting.pending, restored);
    EvolvesTransitive(t, w, w1, r.world);
    AppendEvolves(t, r.world, GroupFailed(g.id));
    EvolvesTransitive(t, w, r.world, Append(r.world, GroupFailed(g.id)).0);
  }

  lemma ConcludeEvolves(t: Terms, w: QuarantineWorld, p: Plan, groups: nat, restored: nat, recovered: nat)
    ensures Evolves(t, w, Conclude(w, p, groups, restored, recovered).0)
  {
    hide Append, Evolves, Check, AllAre;
    CheckEvolves(t, w, AllAre(w.files, p, Restored));
    var w1 := Check(w, AllAre(w.files, p, Restored)).0;
    AppendEvolves(t, w1, RunCompleted);
    EvolvesTransitive(t, w, w1, Append(w1, RunCompleted).0);
  }

  lemma {:induction false} RunGroupsEvolve(t: Terms, w: QuarantineWorld, p: Plan, i: nat, done: set<string>,
                                           restored: nat, recovered: nat)
    requires i <= |p.groups| && Permits(t, p)
    ensures Evolves(t, w, RunGroups(w, p, i, done, restored, recovered).0)
    decreases i
  {
    hide Append, RunGroup, Conclude, Evolves, Check, StateOfRestore, PlainNames;
    if i == 0 {
      ConcludeEvolves(t, w, p, |done|, restored, recovered);
    } else {
      var g := p.groups[i - 1];
      var end := RunGroups(w, p, i, done, restored, recovered).0;
      if g.id in done {
        var holds := forall m | m in g.members :: StateOfRestore(w.files, m) == Restored;
        CheckEvolves(t, w, holds);
        var (w1, s1) := Check(w, holds);
        if s1 == Fine {
          RunGroupsEvolve(t, w1, p, i - 1, done, restored, recovered);
          EvolvesTransitive(t, w, w1, end);
        }
      } else {
        RunGroupEvolves(t, w, g, restored, recovered);
        var r := RunGroup(w, g, restored, recovered);
        if r.GoOn? {
          RunGroupsEvolve(t, r.world, p, i - 1, done + {g.id}, r.restored, r.recovered);
          EvolvesTransitive(t, w, r.world, end);
        }
      }
    }
  }

  lemma BeginEvolves(t: Terms, p: Plan, approved: JournalFile, d: Disk, resume: bool, faults: seq<Fault>)
    ensures Evolves(t, Abreast(d, faults), Begin(p, approved, d, resume, faults).0)
    ensures Begin(p, approved, d, resume, faults).1 == Fine ==> InSync(Begin(p, approved, d, resume, faults).0)
  {
    hide AllAre, DescribesCompletedRun, Append, Evolves, Disk.IsReadable;
    var w := Abreast(d, faults);
    var approves := DescribesCompletedRun(p, approved);
    CheckEvolves(t, w, approves);
    var (w1, s1) := Check(w, approves);
    var (launched, s1') := Check(Launch(d, faults), approves);
    assert launched == w1.(entries := []);
    OutOfTouchEvolves(t, w, w1);
    if s1 == Fine {
      var ready := if resume then d.lines != [] && d.IsReadable() else !d.HasJournal() && AllAre(d.files, p, ToRestore);
      CheckEvolves(t, w1, ready);
      var (w2, s2) := Check(w1, ready);
      EvolvesTransitive(t, w, w1, w2);
      OutOfTouchEvolves(t, w, w2);
      if s2 == Fine && !resume {
        assert d.lines == [] by { assert !d.HasJournal(); }
        AppendEvolves(t, w2, RunStarted);
        AppendIsClean(w2, RunStarted);
        EvolvesTransitive(t, w, w2, Append(w2, RunStarted).0);
      }
    }
  }

  /** A process that has not read its journal is not in step with it. */
  lemma OutOfTouchEvolves(t: Terms, w: QuarantineWorld, next: QuarantineWorld)
    requires Evolves(t, w, next) && InSync(w) && next.lines == w.lines
    ensures Evolves(t, w, next.(entries := []))
  {
    hide Printable, Readable, Permuted;
  }

  lemma ExecuteEvolves(plain: bool, p: Plan, approved: JournalFile, d: Disk, resume: bool, faults: seq<Fault>)
    requires plain ==> p.HasPlainNames()
    ensures Evolves(TermsOf(p, plain), Abreast(d, faults), Execute(p, approved, d, resume, faults).0)
  {
    hide RunGroups, StateOf, AllAre, Begin, Check, Evolves, Plan.HasPlainNames;
    var t := TermsOf(p, plain);
    TermsPermit(p, plain);
    BeginEvolves(t, p, approved, d, resume, faults);
    var (w, signal) := Begin(p, approved, d, resume, faults);
    if signal == Fine {
      var state := StateOf(w.entries);
      if state.runCompleted {
        CheckEvolves(t, w, AllAre(w.files, p, Restored));
        EvolvesTransitive(t, Abreast(d, faults), w, Check(w, AllAre(w.files, p, Restored)).0);
      } else {
        RunGroupsEvolve(t, w, p, |p.groups|, state.completedGroups, 0, 0);
        EvolvesTransitive(t, Abreast(d, faults), w, RunGroups(w, p, |p.groups|, state.completedGroups, 0, 0).0);
      }
    }
  }

  lemma NoFileIsLost(p: Plan, approved: JournalFile, d: Disk, resume: bool, faults: seq<Fault>)
    ensures
      var after := Execute(p, approved, d, resume, faults).0.Durable();
      d.lines <= after.lines && Permuted(d.files, after.files)
  {
    hide Execute, Permuted, Printable;
    ExecuteEvolves(false, p, approved, d, resume, faults);
  }

  lemma {:induction false} NoFileIsEverLost(p: Plan, approved: JournalFile, d: Disk, runs: seq<Run>)
    ensures
      var after := Campaign(p, approved, d, runs);
      d.lines <= after.lines && Permuted(d.files, after.files)
    decreases |runs|
  {
    hide Execute;
    if runs != [] {
      NoFileIsLost(p, approved, d, runs[0].resume, runs[0].faults);
      NoFileIsEverLost(p, approved, Execute(p, approved, d, runs[0].resume, runs[0].faults).0.Durable(), runs[1..]);
    }
  }
}
