/** Facts about every run of every contract, well formed or not: the journal only grows,
    and the files are only ever permuted among places. */
module ApplyConservation {
  import opened MediaStore
  import opened ApplyContract
  import opened ApplyExecution
  import opened JournalFacts

  function MoveOf(m: Member): Move {
    Move(m.source, m.destination, m.fingerprint)
  }

  function MovesOf(c: Contract): set<Move> {
    set g, m | 0 <= g < |c.groups| && m in c.groups[g].Moving() :: MoveOf(m)
  }

  function TermsOf(c: Contract, plain: bool): Terms {
    Terms(plain, MovesOf(c))
  }

  ghost predicate Covers(t: Terms, group: string, members: seq<Member>) {
    && (t.plain ==> PlainGroup(group, members))
    && (forall m :: m in members ==> MoveOf(m) in t.moves)
  }

  ghost predicate Permits(t: Terms, c: Contract) {
    forall g :: 0 <= g < |c.groups| ==> Covers(t, c.groups[g].id, c.groups[g].Moving())
  }

  lemma TermsPermit(c: Contract, plain: bool)
    requires plain ==> c.IsPlain()
    ensures Permits(TermsOf(c, plain), c)
  {
    hide MovingMembers, HasBreak;
  }

  lemma HeldIsApproved(t: Terms, files: Files, m: Member, at: Location)
    requires MoveOf(m) in t.moves && Holds(files, at, m.fingerprint)
    ensures Approved(t.moves, m.source, files[at]) && Approved(t.moves, m.destination, files[at])
  {
    assert MoveOf(m).fingerprint == m.fingerprint;
  }

  lemma {:induction false} SortEvolves(t: Terms, w: ApplyWorld, group: string, state: JournalState, todo: seq<Member>,
                                       completed: seq<Member>, pending: seq<Member>, recovered: nat)
    requires Covers(t, group, todo)
    ensures
      var r := Sort(w, group, state, todo, completed, pending, recovered);
      && Evolves(t, w, r.world)
      && (forall m :: m in r.completed || m in r.pending ==> m in completed || m in pending || m in todo)
    decreases |todo|
  {
    hide Append, Evolves, Check, VerifyDestination, Holds, HasBreak;
    EvolvesNot(t, w);
    if todo != [] {
      var m := todo[0];
      var key := MemberKey(group, m);
      var r := Sort(w, group, state, todo, completed, pending, recovered);
      if key in state.completedMembers {
        CheckEvolves(t, w, VerifyDestination(w.files, m));
        var (next, signal) := Check(w, VerifyDestination(w.files, m));
        if signal == Fine {
          SortEvolves(t, next, group, state, todo[1..], completed + [m], pending, recovered);
          EvolvesTransitive(t, w, next, r.world);
        }
      } else if key in state.startedMembers && m.source !in w.files {
        CheckEvolves(t, w, Holds(w.files, m.destination, m.fingerprint));
        var (w1, s1) := Check(w, Holds(w.files, m.destination, m.fingerprint));
        if s1 == Raised {
          SortEvolves(t, w1, group, state, todo[1..], completed, pending + [m], recovered);
          EvolvesTransitive(t, w, w1, r.world);
        } else if s1 == Fine {
          assert m in todo;
          AppendEvolves(t, w1, MemberCompleted(key));
          var (next, signal) := Append(w1, MemberCompleted(key));
          EvolvesTransitive(t, w, w1, next);
          if signal == Fine {
            SortEvolves(t, next, group, state, todo[1..], completed + [m], pending, recovered + 1);
            EvolvesTransitive(t, w, next, r.world);
          }
        }
      } else {
        SortEvolves(t, w, group, state, todo[1..], completed, pending + [m], recovered);
      }
    }
  }

  lemma AnnounceEvolves(t: Terms, w: ApplyWorld, group: string, m: Member)
    requires Covers(t, group, [m])
    ensures
      var (next, signal) := Announce(w, group, m);
      && Evolves(t, w, next) && next.files == w.files
      && (signal == Fine ==> Revalidate(w.files, m))
  {
    hide Append, EnsureDirectories, Evolves, Check, Revalidate, HasBreak;
    if t.plain {
      assert IsPlainMember([m][0]);
      ParentsPrint(m.destination, |m.destination.path|);
    }
    DirectoriesEvolve(t, w, group, Parents(m.destination));
    var w1 := EnsureDirectories(w, group, Parents(m.destination)).0;
    CheckEvolves(t, w1, Revalidate(w1.files, m));
    var w2 := Check(w1, Revalidate(w1.files, m)).0;
    AppendEvolves(t, w2, MemberStarted(MemberKey(group, m)));
    EvolvesTransitive(t, w, w1, w2);
    EvolvesTransitive(t, w, w2, Append(w2, MemberStarted(MemberKey(group, m))).0);
  }

  lemma MoveOneEvolves(t: Terms, w: ApplyWorld, group: string, m: Member, completed: seq<Member>, moved: nat)
    requires Covers(t, group, [m])
    ensures
      var p := MoveOne(w, group, m, completed, moved);
      Evolves(t, w, p.world) && (p.completed == completed || p.completed == completed + [m])
  {
    hide Append, Announce, RenameNoReplace, Evolves, Check, VerifyDestination, HasBreak;
    AnnounceEvolves(t, w, group, m);
    var (w1, s1) := Announce(w, group, m);
    var w2 := RenameNoReplace(w1, m.source, m.destination).0;
    if s1 == Fine {
      assert m in [m] && Holds(w1.files, m.source, m.fingerprint) by { assert Revalidate(w1.files, m); }
      HeldIsApproved(t, w1.files, m, m.source);
      RenameEvolves(t, w1, m.source, m.destination);
      EvolvesTransitive(t, w, w1, w2);
    }
    CheckEvolves(t, w2, VerifyDestination(w2.files, m));
    var w3 := Check(w2, VerifyDestination(w2.files, m)).0;
    if t.plain { assert IsPlainMember([m][0]); }
    AppendEvolves(t, w3, MemberCompleted(MemberKey(group, m)));
    var w4 := Append(w3, MemberCompleted(MemberKey(group, m))).0;
    if s1 == Fine {
      EvolvesTransitive(t, w, w2, w3);
      EvolvesTransitive(t, w, w3, w4);
    }
  }

  lemma {:induction false} MoveAllEvolves(t: Terms, w: ApplyWorld, group: string, todo: seq<Member>,
                                          completed: seq<Member>, moved: nat)
    requires Covers(t, group, todo)
    ensures
      var p := MoveAll(w, group, todo, completed, moved);
      && Evolves(t, w, p.world)
      && (forall m :: m in p.completed ==> m in completed || m in todo)
    decreases |todo|
  {
    hide Append, MoveOne, Evolves, HasBreak;
    if todo == [] {
      AppendEvolves(t, w, GroupCompleted(group));
    } else {
      MoveOneEvolves(t, w, group, todo[0], completed, moved);
      var p := MoveOne(w, group, todo[0], completed, moved);
      if p.signal == Fine {
        MoveAllEvolves(t, p.world, group, todo[1..], p.completed, p.moved);
        EvolvesTransitive(t, w, p.world, MoveAll(w, group, todo, completed, moved).world);
      }
    }
  }

  lemma UndoOneEvolves(t: Terms, w: ApplyWorld, group: string, m: Member, failures: seq<Member>)
    requires Covers(t, group, [m])
    ensures Evolves(t, w, UndoOne(w, group, m, failures).world)
  {
    hide Append, RenameNoReplace, Evolves, Check, VerifyDestination, VerifySource, HasBreak;
    if t.plain { assert IsPlainMember([m][0]); }
    AppendEvolves(t, w, RollbackStarted(MemberKey(group, m)));
    var w1 := Append(w, RollbackStarted(MemberKey(group, m))).0;
    CheckEvolves(t, w1, VerifyDestination(w1.files, m));
    var (w2, s2) := Check(w1, VerifyDestination(w1.files, m));
    EvolvesTransitive(t, w, w1, w2);
    if s2 == Fine {
      RollbackEvolves(t, w, w2, group, m);
    }
  }

  lemma RollbackEvolves(t: Terms, w: ApplyWorld, w2: ApplyWorld, group: string, m: Member)
    requires Covers(t, group, [m])
    requires Evolves(t, w, w2) && VerifyDestination(w2.files, m)
    ensures
      var w3 := RenameNoReplace(w2, m.destination, m.source).0;
      var w4 := Check(w3, VerifySource(w3.files, m)).0;
      && Evolves(t, w, w3) && Evolves(t, w, w4)
      && Evolves(t, w, Append(w4, RollbackCompleted(MemberKey(group, m))).0)
  {
    hide Append, RenameNoReplace, Evolves, Check, VerifySource, HasBreak;
    assert m in [m];
    HeldIsApproved(t, w2.files, m, m.destination);
    RenameEvolves(t, w2, m.destination, m.source);
    var w3 := RenameNoReplace(w2, m.destination, m.source).0;
    CheckEvolves(t, w3, VerifySource(w3.files, m));
    var w4 := Check(w3, VerifySource(w3.files, m)).0;
    AppendEvolves(t, w4, RollbackCompleted(MemberKey(group, m)));
    EvolvesTransitive(t, w, w2, w3);
    EvolvesTransitive(t, w, w3, w4);
    EvolvesTransitive(t, w, w4, Append(w4, RollbackCompleted(MemberKey(group, m))).0);
  }

  lemma {:induction false} UndoAllEvolves(t: Terms, w: ApplyWorld, group: string, members: seq<Member>,
                                          failures: seq<Member>)
    requires Covers(t, group, members)
    ensures Evolves(t, w, UndoAll(w, group, members, failures).world)
    decreases |members|
  {
    hide UndoOne, Evolves, HasBreak;
    if members == [] {
      EvolvesNot(t, w);
    } else {
      var last := |members| - 1;
      UndoOneEvolves(t, w, group, members[last], failures);
      var u := UndoOne(w, group, members[last], failures);
      if !u.halted {
        UndoAllEvolves(t, u.world, group, members[..last], u.failures);
        EvolvesTransitive(t, w, u.world, UndoAll(w, group, members, failures).world);
      }
    }
  }

  lemma HandleEvolves(t: Terms, w: ApplyWorld, group: string, completed: seq<Member>)
    requires Covers(t, group, completed)
    ensures Evolves(t, w, Handle(w, group, completed).0)
  {
    hide Append, UndoAll, Evolves, HasBreak;
    UndoAllEvolves(t, w, group, completed, []);
    var u := UndoAll(w, group, completed, []);
    AppendEvolves(t, u.world, GroupFailed(group));
    EvolvesTransitive(t, w, u.world, Append(u.world, GroupFailed(group)).0);
  }

  lemma TryGroupEvolves(t: Terms, w: ApplyWorld, group: string, pending: seq<Member>, completed: seq<Member>,
                        moved: nat)
    requires Covers(t, group, pending)
    ensures
      var p := TryGroup(w, group, pending, completed, moved);
      && Evolves(t, w, p.world)
      && (forall m :: m in p.completed ==> m in completed || m in pending)
  {
    hide MoveAll, Evolves, Check, Revalidate, HasBreak;
    var ready := forall m | m in pending :: Revalidate(w.files, m);
    CheckEvolves(t, w, ready);
    var next := Check(w, ready).0;
    MoveAllEvolves(t, next, group, pending, completed, moved);
    EvolvesTransitive(t, w, next, MoveAll(next, group, pending, completed, moved).world);
  }

  lemma RunGroupEvolves(t: Terms, w: ApplyWorld, g: Group, moved: nat, recovered: nat)
    requires Covers(t, g.id, g.Moving())
    ensures Evolves(t, w, RunGroup(w, g, moved, recovered).world)
  {
    hide Append, Sort, TryGroup, Handle, StateOf, Evolves, HasBreak;
    SortEvolves(t, w, g.id, StateOf(w.entries), g.Moving(), [], [], recovered);
    var sorting := Sort(w, g.id, StateOf(w.entries), g.Moving(), [], [], recovered);
    AppendEvolves(t, sorting.world, GroupStarted(g.id));
    var w1 := Append(sorting.world, GroupStarted(g.id)).0;
    EvolvesTransitive(t, w, sorting.world, w1);
    TryGroupEvolves(t, w1, g.id, sorting.pending, sorting.completed, moved);
    var p := TryGroup(w1, g.id, sorting.pending, sorting.completed, moved);
    EvolvesTransitive(t, w, w1, p.world);
    HandleEvolves(t, p.world, g.id, p.completed);
    EvolvesTransitive(t, w, p.world, Handle(p.world, g.id, p.completed).0);
  }

  lemma ConcludeEvolves(t: Terms, w: ApplyWorld, c: Contract, groups: nat, moved: nat, recovered: nat)
    ensures Evolves(t, w, Conclude(w, c, groups, moved, recovered).0)
  {
    hide Append, Evolves, Check, AllVerified;
    CheckEvolves(t, w, AllVerified(w.files, c));
    var w1 := Check(w, AllVerified(w.files, c)).0;
    AppendEvolves(t, w1, RunCompleted);
    EvolvesTransitive(t, w, w1, Append(w1, RunCompleted).0);
  }

  lemma {:induction false} RunGroupsEvolve(t: Terms, w: ApplyWorld, c: Contract, i: nat, done: set<string>, moved: nat,
                                           recovered: nat)
    requires i <= |c.groups| && Permits(t, c)
    ensures Evolves(t, w, RunGroups(w, c, i, done, moved, recovered).0)
    decreases |c.groups| - i
  {
    hide Append, RunGroup, Conclude, Evolves, Check, VerifyDestination, PlainGroup, MovingMembers;
    if i == |c.groups| {
      ConcludeEvolves(t, w, c, |done|, moved, recovered);
    } else {
      var g := c.groups[i];
      if g.id in done {
        var verified := forall m | m in g.Moving() :: VerifyDestination(w.files, m);
        CheckEvolves(t, w, verified);
        var (next, signal) := Check(w, verified);
        if signal == Fine {
          RunGroupsEvolve(t, next, c, i + 1, done, moved, recovered);
          EvolvesTransitive(t, w, next, RunGroups(next, c, i + 1, done, moved, recovered).0);
        }
      } else {
        RunGroupEvolves(t, w, g, moved, recovered);
        var r := RunGroup(w, g, moved, recovered);
        if r.GoOn? {
          RunGroupsEvolve(t, r.world, c, i + 1, done + {g.id}, r.moved, r.recovered);
          EvolvesTransitive(t, w, r.world, RunGroups(w, c, i, done, moved, recovered).0);
        }
      }
    }
  }

  lemma BeginEvolves(t: Terms, c: Contract, d: Disk, resume: bool, faults: seq<Fault>)
    ensures Evolves(t, Abreast(d, faults), Begin(c, d, resume, faults).0)
    ensures Begin(c, d, resume, faults).1 == Fine ==> InSync(Begin(c, d, resume, faults).0)
  {
    hide AllRevalidated, Append, Printable, Permuted, Disk.IsReadable;
    var w := Abreast(d, faults);
    if resume {
      CheckEvolves(t, w, d.lines != [] && d.IsReadable());
    } else {
      CheckEvolves(t, w, !d.HasJournal() && AllRevalidated(d.files, c));
      var (next, signal) := Check(Launch(d, faults), !d.HasJournal() && AllRevalidated(d.files, c));
      if signal == Fine {
        AppendEvolves(t, next, RunStarted);
        AppendIsClean(next, RunStarted);
        EvolvesTransitive(t, w, next, Append(next, RunStarted).0);
      }
    }
  }

  lemma ExecuteEvolves(plain: bool, c: Contract, d: Disk, resume: bool, faults: seq<Fault>)
    requires plain ==> c.IsPlain()
    ensures Evolves(TermsOf(c, plain), Abreast(d, faults), Execute(c, d, resume, faults).0)
  {
    hide RunGroups, StateOf, AllVerified, Begin, Check, Evolves, Contract.IsPlain;
    var t := TermsOf(c, plain);
    TermsPermit(c, plain);
    BeginEvolves(t, c, d, resume, faults);
    var (w, signal) := Begin(c, d, resume, faults);
    if signal == Fine {
      var state := StateOf(w.entries);
      if state.runCompleted {
        CheckEvolves(t, w, AllVerified(w.files, c));
        EvolvesTransitive(t, Abreast(d, faults), w, Check(w, AllVerified(w.files, c)).0);
      } else {
        RunGroupsEvolve(t, w, c, 0, state.completedGroups, 0, 0);
        EvolvesTransitive(t, Abreast(d, faults), w, RunGroups(w, c, 0, state.completedGroups, 0, 0).0);
      }
    }
  }

  /** No contract and no sequence of faults makes a run lose or overwrite a file, or
      rewrite a journal line. */
  lemma NoFileIsLost(c: Contract, d: Disk, resume: bool, faults: seq<Fault>)
    ensures
      var after := Execute(c, d, resume, faults).0.Durable();
      d.lines <= after.lines && Permuted(d.files, after.files)
  {
    hide Execute, Permuted, Printable;
    ExecuteEvolves(false, c, d, resume, faults);
  }

  lemma {:induction false} NoFileIsEverLost(c: Contract, d: Disk, runs: seq<Run>)
    ensures
      var after := Campaign(c, d, runs);
      d.lines <= after.lines && Permuted(d.files, after.files)
    decreases |runs|
  {
    hide Execute;
    if runs != [] {
      NoFileIsLost(c, d, runs[0].resume, runs[0].faults);
      NoFileIsEverLost(c, Execute(c, d, runs[0].resume, runs[0].faults).0.Durable(), runs[1..]);
    }
  }
}
