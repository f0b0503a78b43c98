/** Quarantine runs stopped at any step any number of times, outside rollbacks or with
    rollbacks that were ended, are finished by one quiet run. */
module QuarantineRecovery {
  import opened MediaStore
  import opened QuarantineModel
  import opened QuarantineExecution
  import opened QuarantineInvariant
  import opened QuarantineSafety
  import opened QuarantineTheorems
  import opened QuarantineResume
  import opened QuarantineConservation
  import opened JournalFacts

  ghost predicate InAgreement(p: Plan, g: int, w: QuarantineWorld)
    requires 0 <= g < |p.groups|
  {
    GroupAgrees(w.files, StateOf(w.lines), p.groups[g])
  }

  /** A line about a loser: what it calls completed is not at home. */
  lemma LoserLineAgrees(p: Plan, start: Files, g: int, w: QuarantineWorld, m: Loser, event: Event)
    requires Good(p, start, w) && p.Has(g, m) && InAgreement(p, g, w)
    requires
      var key := KeyOf(p.groups[g].id, m);
      event == MemberStarted(key) || (event == MemberCompleted(key) && StateOfLoser(w.files, m) != AtHome)
    ensures InAgreement(p, g, Append(w, event).0)
  {
    hide Setting, Invariant, StateOf, StateOfLoser;
    StateOfAppend(w.lines, Line(|w.entries| + 1, event));
    StateOfAppend(w.lines, Broken);
    forall n | p.Has(g, n) && KeyOf(p.groups[g].id, n) == KeyOf(p.groups[g].id, m)
      ensures n == m
    {
      KeysIdentify(p, start, g, n, g, m);
    }
    forall n | n in p.groups[g].members ensures p.Has(g, n) { }
  }

  lemma GroupLineAgrees(p: Plan, g: int, w: QuarantineWorld, event: Event)
    requires 0 <= g < |p.groups| && InAgreement(p, g, w)
    requires event.GroupStarted? || event.GroupFailed?
             || (event == GroupCompleted(p.groups[g].id) && forall m :: p.Has(g, m) ==> StateOfLoser(w.files, m) != AtHome)
    ensures InAgreement(p, g, Append(w, event).0)
  {
    hide StateOf, StateOfLoser;
    StateOfAppend(w.lines, Line(|w.entries| + 1, event));
    StateOfAppend(w.lines, Broken);
    forall n | n in p.groups[g].members ensures p.Has(g, n) { }
  }

  lemma {:induction false} SortAgrees(p: Plan, start: Files, g: int, w: QuarantineWorld, state: JournalState,
                                      todo: seq<Loser>, pending: seq<Loser>, recovered: nat)
    requires Good(p, start, w) && !StateOf(w.lines).runCompleted && 0 <= g < |p.groups| && InAgreement(p, g, w)
    requires forall m :: m in todo ==> p.Has(g, m)
    ensures
      var r := Sort(w, p.groups[g].id, state, todo, pending, recovered);
      InAgreement(p, g, r.world) && Clean(w, r.world) && (r.signal == Fine && InSync(w) ==> InSync(r.world))
    decreases |todo|
  {
    hide Setting, Invariant, StateOf, StateOfLoser, Append, Elsewhere, GroupAgrees, Clean, Check;
    if todo == [] {
      CleanAtFirst(w);
    } else {
      var m := todo[0];
      var id := p.groups[g].id;
      var key := KeyOf(id, m);
      assert p.Has(g, m) && todo == [m] + todo[1..];
      var now := StateOfLoser(w.files, m);
      var r := Sort(w, id, state, todo, pending, recovered);
      CheckKept(p, start, g, w, now != Ambiguous);
      CheckIsClean(w, now != Ambiguous);
      var (w1, s1) := Check(w, now != Ambiguous);
      if s1 == Fine {
        if key in state.completedMembers {
          if now != AtHome {
            SortAgrees(p, start, g, w1, state, todo[1..], pending, recovered);
            CleanTransitive(w, w1, r.world);
          }
        } else if (key in state.startedMembers && now == Quarantined) || now == AlreadyAbsent {
          AppendAboutLoser(p, start, w1, g, m, MemberCompleted(key));
          LoserLineAgrees(p, start, g, w1, m, MemberCompleted(key));
          AppendIsClean(w1, MemberCompleted(key));
          var (next, signal) := Append(w1, MemberCompleted(key));
          CleanTransitive(w, w1, next);
          if signal == Fine {
            SortAgrees(p, start, g, next, state, todo[1..], pending, if now == Quarantined then recovered + 1 else recovered);
            CleanTransitive(w, next, r.world);
          }
        } else if now == AtHome {
          SortAgrees(p, start, g, w1, state, todo[1..], pending + [m], recovered);
          CleanTransitive(w, w1, r.world);
        }
      }
    }
  }

  lemma CleanAtFirst(w: QuarantineWorld)
    ensures Clean(w, w)
  {
  }

  lemma AnnounceAgrees(p: Plan, start: Files, g: int, w: QuarantineWorld, m: Loser)
    requires Good(p, start, w) && !StateOf(w.lines).runCompleted && p.Has(g, m) && InAgreement(p, g, w)
    ensures
      var next := Announce(w, p.groups[g].id, m).0;
      InAgreement(p, g, next) && Clean(w, next)
  {
    hide Setting, Invariant, StateOf, StateOfLoser, Append, Elsewhere, EnsureDirectories, Clean, Check;
    var id := p.groups[g].id;
    var key := KeyOf(id, m);
    DirectoriesKept(p, start, g, w, Parents(m.quarantine));
    DirectoriesAreClean(w, id, Parents(m.quarantine));
    var (w1, s1) := EnsureDirectories(w, id, Parents(m.quarantine));
    if s1 == Fine {
      AppendAboutLoser(p, start, w1, g, m, MemberStarted(key));
      LoserLineAgrees(p, start, g, w1, m, MemberStarted(key));
      AppendIsClean(w1, MemberStarted(key));
      var (w2, s2) := Append(w1, MemberStarted(key));
      CleanTransitive(w, w1, w2);
      if s2 == Fine {
        CheckKept(p, start, g, w2, StateOfLoser(w2.files, m) == AtHome);
        CheckIsClean(w2, StateOfLoser(w2.files, m) == AtHome);
        CleanTransitive(w, w2, Check(w2, StateOfLoser(w2.files, m) == AtHome).0);
      }
    }
  }

  lemma MoveOneAgrees(p: Plan, start: Files, g: int, w: QuarantineWorld, m: Loser, moved: seq<Loser>)
    requires Good(p, start, w) && !StateOf(w.lines).runCompleted && p.Has(g, m) && InAgreement(p, g, w)
    ensures
      var r := MoveOne(w, p.groups[g].id, m, moved);
      InAgreement(p, g, r.world) && Clean(w, r.world)
  {
    hide Setting, Invariant, StateOf, StateOfLoser, Append, Elsewhere, Home, Away, Announce, Clean, Check,
      RenameNoReplace;
    var id := p.groups[g].id;
    var key := KeyOf(id, m);
    AnnounceKeeps(p, start, g, w, m);
    AnnounceAgrees(p, start, g, w, m);
    var (w1, s1) := Announce(w, id, m);
    if s1 == Fine {
      RenameStepKept(p, start, g, w1, m, true);
      LeavingAgrees(p, start, g, w1, m);
      RenameIsClean(w1, m.source, m.quarantine);
      var (w2, s2) := RenameNoReplace(w1, m.source, m.quarantine);
      CleanTransitive(w, w1, w2);
      if s2 == Fine {
        CheckKept(p, start, g, w2, StateOfLoser(w2.files, m) == Quarantined);
        CheckIsClean(w2, StateOfLoser(w2.files, m) == Quarantined);
        var (w3, s3) := Check(w2, StateOfLoser(w2.files, m) == Quarantined);
        CleanTransitive(w, w2, w3);
        if s3 == Fine {
          LoserLineAgrees(p, start, g, w3, m, MemberCompleted(key));
          AppendIsClean(w3, MemberCompleted(key));
          CleanTransitive(w, w3, Append(w3, MemberCompleted(key)).0);
        }
      }
    }
  }

  /** A loser that leaves, acknowledged or not, is the only one to change, and is at home no
      more or was not vouched for. */
  lemma LeavingAgrees(p: Plan, start: Files, g: int, w: QuarantineWorld, m: Loser)
    requires Good(p, start, w) && !StateOf(w.lines).runCompleted && p.Has(g, m) && InAgreement(p, g, w)
    requires StateOfLoser(w.files, m) == AtHome && KeyOf(p.groups[g].id, m) in StateOf(w.lines).startedMembers
    ensures InAgreement(p, g, RenameNoReplace(w, m.source, m.quarantine).0)
  {
    hide Setting, Invariant, StateOf, StateOfLoser, RenameNoReplace;
    RenameStepKept(p, start, g, w, m, true);
    assert !Vouches(StateOf(w.lines), p.groups[g].id, m);
    forall n | n in p.groups[g].members ensures p.Has(g, n) { }
  }

  lemma {:induction false} MoveAllAgrees(p: Plan, start: Files, g: int, w: QuarantineWorld, todo: seq<Loser>,
                                         moved: seq<Loser>)
    requires Good(p, start, w) && !StateOf(w.lines).runCompleted && 0 <= g < |p.groups| && InAgreement(p, g, w)
    requires forall m :: m in todo ==> p.Has(g, m)
    requires forall m :: p.Has(g, m) ==> m in todo || StateOfLoser(w.files, m) != AtHome
    ensures
      var t := MoveAll(w, p.groups[g].id, todo, moved);
      InAgreement(p, g, t.world) && Clean(w, t.world)
    decreases |todo|
  {
    hide Setting, Invariant, StateOf, StateOfLoser, Append, Elsewhere, MoveOne, GroupAgrees, Clean;
    var id := p.groups[g].id;
    if todo == [] {
      GroupLineAgrees(p, g, w, GroupCompleted(id));
      AppendIsClean(w, GroupCompleted(id));
    } else {
      var m := todo[0];
      MoveOneKeeps(p, start, g, w, m, moved);
      MoveOneAgrees(p, start, g, w, m, moved);
      var r := MoveOne(w, id, m, moved);
      if r.signal == Fine {
        forall n | p.Has(g, n)
          ensures n in todo[1..] || StateOfLoser(r.world.files, n) != AtHome
        {
          if n != m && n in todo { assert n in todo[1..]; }
        }
        MoveAllAgrees(p, start, g, r.world, todo[1..], r.moved);
        CleanTransitive(w, r.world, MoveAll(w, id, todo, moved).world);
      }
    }
  }

  lemma TryGroupAgrees(p: Plan, start: Files, g: int, w: QuarantineWorld, pending: seq<Loser>)
    requires Good(p, start, w) && !StateOf(w.lines).runCompleted && 0 <= g < |p.groups| && InAgreement(p, g, w)
    requires forall m :: m in pending ==> p.Has(g, m)
    requires forall m :: p.Has(g, m) ==> m in pending || StateOfLoser(w.files, m) != AtHome
    ensures
      var t := TryGroup(w, p.groups[g].id, pending);
      InAgreement(p, g, t.world) && Clean(w, t.world)
  {
    hide Setting, Invariant, StateOf, StateOfLoser, Elsewhere, MoveAll, Check, GroupAgrees, Clean;
    var ready := forall m | m in pending :: StateOfLoser(w.files, m) == AtHome;
    CheckKept(p, start, g, w, ready);
    CheckIsClean(w, ready);
    var (next, signal) := Check(w, ready);
    if signal == Fine {
      MoveAllAgrees(p, start, g, next, pending, []);
      CleanTransitive(w, next, MoveAll(next, p.groups[g].id, pending, []).world);
    }
  }

  // ---------- rollbacks that were ended ----------

  lemma SyncedFailure(w: QuarantineWorld, event: Event)
    ensures
      var (next, signal) := Append(w, event);
      signal != Fine && InSync(w) && InSync(next) ==> next.lines == w.lines
  {
  }

  /** A process that knows of every line has not completed a group in which it failed. */
  lemma {:induction false} FailedIsIncomplete(p: Plan, start: Files, g: int, w: QuarantineWorld, todo: seq<Loser>,
                                              moved: seq<Loser>)
    requires Good(p, start, w) && !StateOf(w.lines).runCompleted && InSync(w) && 0 <= g < |p.groups|
    requires forall m :: m in todo ==> p.Has(g, m)
    ensures
      var t := MoveAll(w, p.groups[g].id, todo, moved);
      t.signal != Fine && InSync(t.world) ==> StateOf(t.world.lines).completedGroups == StateOf(w.lines).completedGroups
    decreases |todo|
  {
    hide Setting, Invariant, StateOf, StateOfLoser, Append, Elsewhere, MoveOne, InSync;
    var id := p.groups[g].id;
    if todo == [] {
      SyncedFailure(w, GroupCompleted(id));
    } else {
      MoveOneKeeps(p, start, g, w, todo[0], moved);
      var r := MoveOne(w, id, todo[0], moved);
      if r.signal == Fine {
        FailedIsIncomplete(p, start, g, r.world, todo[1..], r.moved);
      }
    }
  }

  /** A loser taken back, and its completion with it. */
  lemma ReturnAgrees(p: Plan, start: Files, g: int, w: QuarantineWorld, m: Loser, after: QuarantineWorld)
    requires Good(p, start, w) && p.Has(g, m) && InAgreement(p, g, w)
    requires p.groups[g].id !in StateOf(w.lines).completedGroups
    requires forall n :: p.Has(g, n) && n != m ==> StateOfLoser(after.files, n) == StateOfLoser(w.files, n)
    requires StateOf(after.lines).completedGroups == StateOf(w.lines).completedGroups
    requires StateOf(after.lines).completedMembers == StateOf(w.lines).completedMembers - {KeyOf(p.groups[g].id, m)}
    ensures InAgreement(p, g, after)
  {
    hide Setting, Invariant, StateOf, StateOfLoser;
    forall n | n in p.groups[g].members ensures p.Has(g, n) { }
  }

  lemma UndoOneAgrees(p: Plan, start: Files, g: int, w: QuarantineWorld, m: Loser, failures: seq<Loser>)
    requires Good(p, start, w) && !StateOf(w.lines).runCompleted && p.Has(g, m) && InAgreement(p, g, w)
    requires p.groups[g].id !in StateOf(w.lines).completedGroups
    ensures
      var u := UndoOne(w, p.groups[g].id, m, failures);
      !u.halted && u.failures == failures ==>
        InAgreement(p, g, u.world) && p.groups[g].id !in StateOf(u.world.lines).completedGroups
  {
    hide Setting, Invariant, StateOf, StateOfLoser, Append, Elsewhere, Home, Away, Check, RenameNoReplace, GroupAgrees;
    var key := KeyOf(p.groups[g].id, m);
    CheckKept(p, start, g, w, StateOfLoser(w.files, m) == Quarantined);
    var (w0, s0) := Check(w, StateOfLoser(w.files, m) == Quarantined);
    if s0 == Fine {
      AppendAboutLoser(p, start, w0, g, m, RollbackStarted(key));
      var (w1, s1) := Append(w0, RollbackStarted(key));
      if s1 == Fine {
        RenameStepKept(p, start, g, w1, m, false);
        var (w2, s2) := RenameNoReplace(w1, m.quarantine, m.source);
        if s2 == Fine {
          CheckKept(p, start, g, w2, StateOfLoser(w2.files, m) == AtHome);
          var (w3, s3) := Check(w2, StateOfLoser(w2.files, m) == AtHome);
          if s3 == Fine {
            LoserFacts(p, start, w3.files, StateOf(w3.lines), g, m);
            HomeOrAway(start, w3.files, m);
            AppendAboutLoser(p, start, w3, g, m, RollbackCompleted(key));
            UndoOneKeeps(p, start, g, w, m, failures);
            var (w4, s4) := Append(w3, RollbackCompleted(key));
            if s4 == Fine { ReturnAgrees(p, start, g, w, m, w4); }
          }
        }
      }
    }
  }

  lemma {:induction false} UndoAllAgrees(p: Plan, start: Files, g: int, w: QuarantineWorld, members: seq<Loser>,
                                         failures: seq<Loser>)
    requires Good(p, start, w) && !StateOf(w.lines).runCompleted && 0 <= g < |p.groups| && InAgreement(p, g, w)
    requires p.groups[g].id !in StateOf(w.lines).completedGroups
    requires forall m :: m in members ==> p.Has(g, m)
    ensures
      var u := UndoAll(w, p.groups[g].id, members, failures);
      !u.halted && u.failures == [] ==> InAgreement(p, g, u.world)
    decreases |members|
  {
    hide Setting, Invariant, StateOf, Elsewhere, UndoOne, GroupAgrees;
    if members != [] {
      var last := |members| - 1;
      UndoOneKeeps(p, start, g, w, members[last], failures);
      UndoOneAgrees(p, start, g, w, members[last], failures);
      FailuresStay(w, p.groups[g].id, members, failures);
      var u := UndoOne(w, p.groups[g].id, members[last], failures);
      if !u.halted {
        FailuresStay(u.world, p.groups[g].id, members[..last], u.failures);
        if u.failures == failures {
          UndoAllAgrees(p, start, g, u.world, members[..last], u.failures);
        }
      }
    }
  }

  /** The handler ends its rollback, and the process knows of every line in its journal. */
  predicate EndedInStep(w: QuarantineWorld, outcome: Outcome) {
    outcome.Interrupted? && outcome.undone && w.entries == w.lines
  }

  lemma HandleAgrees(p: Plan, start: Files, g: int, w: QuarantineWorld, moved: seq<Loser>)
    requires Good(p, start, w) && !StateOf(w.lines).runCompleted && 0 <= g < |p.groups| && InAgreement(p, g, w)
    requires p.groups[g].id !in StateOf(w.lines).completedGroups
    requires forall m :: m in moved ==> p.Has(g, m)
    ensures
      var (next, outcome) := Handle(w, p.groups[g].id, moved);
      outcome.Handled() && (EndedInStep(next, outcome) ==> InAgreement(p, g, next))
  {
    hide Setting, Invariant, StateOf, StateOfLoser, UndoAll, Append, GroupAgrees;
    UndoAllAgrees(p, start, g, w, moved, []);
    var u := UndoAll(w, p.groups[g].id, moved, []);
    if !u.halted && u.failures == [] {
      GroupLineAgrees(p, g, u.world, GroupFailed(p.groups[g].id));
    }
  }

  ghost predicate GroupResultAgrees(p: Plan, g: int, w: QuarantineWorld, r: GroupResult)
    requires 0 <= g < |p.groups|
  {
    && ((r.GoOn? || !r.outcome.Handled()) ==> InAgreement(p, g, r.world) && Clean(w, r.world))
    && (r.End? && EndedInStep(r.world, r.outcome) ==> InAgreement(p, g, r.world))
  }

  lemma RunGroupAgrees(p: Plan, start: Files, g: int, w: QuarantineWorld, moved: nat, recovered: nat)
    requires Good(p, start, w) && InSync(w) && !StateOf(w.lines).runCompleted && 0 <= g < |p.groups|
    requires InAgreement(p, g, w) && p.groups[g].id !in StateOf(w.lines).completedGroups
    ensures GroupResultAgrees(p, g, w, RunGroup(w, p.groups[g], moved, recovered))
  {
    hide Setting, Invariant, StateOf, StateOfLoser, Elsewhere, Sort, TryGroup, Handle, Append, GroupAgrees, Clean;
    var group := p.groups[g];
    SortKeeps(p, start, g, w, StateOf(w.entries), group.members, [], recovered);
    SortAgrees(p, start, g, w, StateOf(w.entries), group.members, [], recovered);
    var sorting := Sort(w, group.id, StateOf(w.entries), group.members, [], recovered);
    if sorting.signal == Fine {
      AppendAboutGroup(p, start, sorting.world, g, GroupStarted(group.id));
      GroupLineAgrees(p, g, sorting.world, GroupStarted(group.id));
      AppendIsClean(sorting.world, GroupStarted(group.id));
      var (w1, s1) := Append(sorting.world, GroupStarted(group.id));
      CleanTransitive(w, sorting.world, w1);
      if s1 == Fine {
        forall m | p.Has(g, m)
          ensures m in sorting.pending || StateOfLoser(w1.files, m) != AtHome
        {
        }
        TryGroupAgrees(p, start, g, w1, sorting.pending);
        var t := TryGroup(w1, group.id, sorting.pending);
        CleanTransitive(w, w1, t.world);
        if t.signal == Raised {
          RaisedAgrees(p, start, g, w1, sorting.pending);
        }
      }
    }
  }

  lemma RaisedAgrees(p: Plan, start: Files, g: int, w: QuarantineWorld, pending: seq<Loser>)
    requires Good(p, start, w) && InSync(w) && !StateOf(w.lines).runCompleted && 0 <= g < |p.groups|
    requires p.groups[g].id !in StateOf(w.lines).completedGroups && forall m :: m in pending ==> p.Has(g, m)
    requires
      var t := TryGroup(w, p.groups[g].id, pending);
      t.signal == Raised && InAgreement(p, g, t.world)
    ensures
      var t := TryGroup(w, p.groups[g].id, pending);
      var (next, outcome) := Handle(t.world, p.groups[g].id, t.moved);
      outcome.Handled() && (EndedInStep(next, outcome) ==> InAgreement(p, g, next))
  {
    hide Setting, Invariant, StateOf, StateOfLoser, Elsewhere, MoveAll, Handle, Check, GroupAgrees;
    var id := p.groups[g].id;
    TryGroupKeeps(p, start, g, w, pending);
    var t := TryGroup(w, id, pending);
    TryGroupEvolves(TermsFor(pending), w, id, pending);
    HandleEvolves(TermsFor(pending), t.world, id, t.moved);
    var ready := forall m | m in pending :: StateOfLoser(w.files, m) == AtHome;
    CheckKept(p, start, g, w, ready);
    if Check(w, ready).1 == Fine {
      FailedIsIncomplete(p, start, g, Check(w, ready).0, pending, []);
    }
    if InSync(t.world) {
      HandleAgrees(p, start, g, t.world, t.moved);
    } else {
      HandleEnds(t.world, id, t.moved);
    }
  }

  lemma HandleEnds(w: QuarantineWorld, group: string, moved: seq<Loser>)
    ensures Handle(w, group, moved).1.Handled()
  {
    hide UndoAll, Append;
  }

  lemma OthersAgree(p: Plan, g: int, w: QuarantineWorld, after: QuarantineWorld)
    requires 0 <= g < |p.groups| && Elsewhere(p, g, w, after) && InAgreement(p, g, after)
    requires Agrees(p, w.files, StateOf(w.lines))
    ensures Agrees(p, after.files, StateOf(after.lines))
  {
    hide StateOf, StateOfLoser;
    forall h | 0 <= h < |p.groups| && h != g
      ensures GroupAgrees(after.files, StateOf(after.lines), p.groups[h])
    {
      assert GroupAgrees(w.files, StateOf(w.lines), p.groups[h]);
      forall m | m in p.groups[h].members ensures p.Has(h, m) { }
    }
  }

  /** A run that enters no rollback, or ends it in step with its journal, keeps journal and
      disk in agreement. */
  lemma {:induction false} RunGroupsAgree(p: Plan, start: Files, w: QuarantineWorld, i: nat, done: set<string>,
                                          moved: nat, recovered: nat)
    requires Good(p, start, w) && InSync(w) && !StateOf(w.lines).runCompleted && i <= |p.groups|
    requires done == StateOf(w.lines).completedGroups
    requires Agrees(p, w.files, StateOf(w.lines))
    ensures
      var (next, outcome) := RunGroups(w, p, i, done, moved, recovered);
      && (!outcome.Handled() ==> Agrees(p, next.files, StateOf(next.lines)) && Clean(w, next))
      && (EndedInStep(next, outcome) ==> Agrees(p, next.files, StateOf(next.lines)))
    decreases |p.groups| - i
  {
    hide Setting, Invariant, StateOf, StateOfLoser, RunGroup, GroupHolds, Elsewhere, StateOfWinner, GroupAgrees,
      Clean, Check, Conclude;
    if i == |p.groups| {
      ConcludeAgrees(p, w, |done|, moved, recovered);
    } else {
      var g := p.groups[i];
      var holds := if g.id in done then GroupHolds(w.files, g, false) else StateOfWinner(w.files, g.winner) == Organized;
      CheckKept(p, start, i, w, holds);
      CheckIsClean(w, holds);
      var (w1, s1) := Check(w, holds);
      if s1 == Fine {
        if g.id in done {
          RunGroupsAgree(p, start, w1, i + 1, done, moved, recovered);
          var (next, outcome) := RunGroups(w1, p, i + 1, done, moved, recovered);
          if !outcome.Handled() { CleanTransitive(w, w1, next); }
        } else {
          RunGroupKeeps(p, start, i, w1, moved, recovered);
          RunGroupAgrees(p, start, i, w1, moved, recovered);
          var r := RunGroup(w1, g, moved, recovered);
          if r.GoOn? || !r.outcome.Handled() {
            OthersAgree(p, i, w1, r.world);
            CleanTransitive(w, w1, r.world);
          } else if EndedInStep(r.world, r.outcome) {
            OthersAgree(p, i, w1, r.world);
          }
          if r.GoOn? {
            RunGroupsAgree(p, start, r.world, i + 1, done + {g.id}, r.moved, r.recovered);
            var (next, outcome) := RunGroups(r.world, p, i + 1, done + {g.id}, r.moved, r.recovered);
            if !outcome.Handled() { CleanTransitive(w, r.world, next); }
          }
        }
      }
    }
  }

  lemma ConcludeAgrees(p: Plan, w: QuarantineWorld, groups: nat, moved: nat, recovered: nat)
    requires InSync(w) && Agrees(p, w.files, StateOf(w.lines))
    ensures
      var (next, outcome) := Conclude(w, p, groups, moved, recovered);
      !outcome.Handled() && Agrees(p, next.files, StateOf(next.lines)) && Clean(w, next)
  {
    hide StateOf, Agrees, AllHold, Clean, Append;
    CheckIsClean(w, AllHold(w.files, p, false));
    var w1 := Check(w, AllHold(w.files, p, false)).0;
    RunCompletedAgrees(p, w1);
    AppendIsClean(w1, RunCompleted);
    CleanTransitive(w, w1, Append(w1, RunCompleted).0);
  }

  lemma RunCompletedAgrees(p: Plan, w: QuarantineWorld)
    requires Agrees(p, w.files, StateOf(w.lines))
    ensures Agrees(p, Append(w, RunCompleted).0.files, StateOf(Append(w, RunCompleted).0.lines))
  {
    hide StateOf, StateOfLoser;
    StateOfAppend(w.lines, Line(|w.entries| + 1, RunCompleted));
    StateOfAppend(w.lines, Broken);
    forall g | 0 <= g < |p.groups|
      ensures GroupAgrees(w.files, StateOf(Append(w, RunCompleted).0.lines), p.groups[g])
    {
      assert GroupAgrees(w.files, StateOf(w.lines), p.groups[g]);
    }
  }

  lemma NothingVouchedAgrees(p: Plan, files: Files)
    ensures Agrees(p, files, JournalState({}, {}, {}, false))
  {
  }

  /** The run either stayed out of rollbacks, with no journal line torn or cut; or it took
      back all that it had moved, and knew of every line in its journal. */
  predicate IsOrderly(p: Plan, d: Disk, run: Run) {
    var (next, outcome) := Execute(p, d, run.resume, run.faults);
    if outcome.Handled() then EndedInStep(next, outcome) else !Damages(run.faults)
  }

  lemma RunAgrees(p: Plan, start: Files, d: Disk, run: Run)
    requires Sound(p) && Lawful(p, start, d) && Agrees(p, d.files, StateOf(d.lines)) && d.IsWhole()
    requires IsOrderly(p, d, run)
    ensures
      var next := Execute(p, d, run.resume, run.faults).0;
      Agrees(p, next.files, StateOf(next.lines)) && next.IsWhole()
  {
    hide Invariant, StateOf, RunGroups, StateOfLoser, StateOfWinner, GroupAgrees, AllHold, MayStart, Plan.WellFormed,
      Plan.RootsApart, Plan.WinnersApart, Begin, Readable, Printable;
    var resume, faults := run.resume, run.faults;
    ExecuteEvolves(false, p, d, resume, faults);
    BeginKeeps(p, start, d, resume, faults);
    BeginAgrees(p, start, d, resume, faults);
    var (w, signal) := Begin(p, d, resume, faults);
    if signal == Fine {
      if StateOf(w.entries).runCompleted {
        CheckIsClean(w, AllHold(w.files, p, true));
        CleanTransitive(Abreast(d, faults), w, Check(w, AllHold(w.files, p, true)).0);
      } else {
        RunGroupsAgree(p, start, w, 0, StateOf(w.entries).completedGroups, 0, 0);
        if !Execute(p, d, resume, faults).1.Handled() {
          CleanTransitive(Abreast(d, faults), w, Execute(p, d, resume, faults).0);
        }
      }
    }
  }

  lemma BeginAgrees(p: Plan, start: Files, d: Disk, resume: bool, faults: seq<Fault>)
    requires Lawful(p, start, d) && Agrees(p, d.files, StateOf(d.lines))
    ensures
      var w := Begin(p, d, resume, faults).0;
      Agrees(p, w.files, StateOf(w.lines)) && Clean(Abreast(d, faults), w)
  {
    hide Invariant, StateOf, GroupAgrees, MayStart, Readable, Printable, Append;
    if resume {
      CheckIsClean(Abreast(d, faults), d.lines != [] && d.IsReadable());
    } else {
      var ready := !d.HasJournal() && MayStart(d.files, p);
      CheckIsClean(Abreast(d, faults), ready);
      var (next, signal) := Check(Launch(d, faults), ready);
      if signal == Fine {
        FirstLineAgrees(p, next);
        AppendIsClean(next, RunStarted);
        CleanTransitive(Abreast(d, faults), next, Append(next, RunStarted).0);
      }
    }
  }

  lemma FirstLineAgrees(p: Plan, w: QuarantineWorld)
    requires w.lines == [] && w.entries == []
    ensures Agrees(p, Append(w, RunStarted).0.files, StateOf(Append(w, RunStarted).0.lines))
  {
    hide StateOf, Agrees;
    StateOfNothing();
    StateOfAppend([], Line(1, RunStarted));
    StateOfAppend([], Broken);
    NothingVouchedAgrees(p, w.files);
  }

  predicate Undisturbed(p: Plan, d: Disk, runs: seq<Run>)
    decreases |runs|
  {
    runs == [] ||
    (IsOrderly(p, d, runs[0]) &&
     Undisturbed(p, Execute(p, d, runs[0].resume, runs[0].faults).0.Durable(), runs[1..]))
  }

  lemma {:induction false} UndisturbedAgrees(p: Plan, start: Files, d: Disk, runs: seq<Run>)
    requires Sound(p) && Lawful(p, start, d) && Undisturbed(p, d, runs)
    requires Agrees(p, d.files, StateOf(d.lines)) && d.IsWhole()
    ensures
      var after := Campaign(p, d, runs);
      Lawful(p, start, after) && Agrees(p, after.files, StateOf(after.lines)) && after.IsWhole()
    decreases |runs|
  {
    hide Execute, Lawful, Agrees, StateOf, Readable, Printable, Sound;
    if runs != [] {
      RunIsLawful(p, start, d, runs[0].resume, runs[0].faults);
      RunAgrees(p, start, d, runs[0]);
      UndisturbedAgrees(p, start, Execute(p, d, runs[0].resume, runs[0].faults).0.Durable(), runs[1..]);
    }
  }

  /** The next run without faults, which resumes if the journal has lines and starts afresh
      if not, completes exactly when there is no empty journal file, the journal can be read,
      no loser it calls completed is back at home, no loser was already gone, and a fresh
      start finds winners organized and losers at home. */
  lemma QuietRunCompletesExactly(p: Plan, start: Files, d: Disk)
    requires Sound(p) && Lawful(p, start, d)
    ensures Execute(p, d, d.lines != [], []).1.Completed? <==>
            && !d.HasUnusableJournal()
            && Agrees(p, d.files, StateOf(d.lines)) && NonePast(p, d.files)
            && (d.lines == [] ==> MayStart(start, p))
  {
    hide Invariant, StateOf, RunGroups, StateOfLoser, StateOfWinner, Readable, GroupAgrees, Plan.WellFormed,
      Plan.RootsApart, Plan.WinnersApart, MayStart;
    if d.lines != [] {
      ResumeCompletesExactly(p, start, d);
    } else if d.HasEmptyJournal() {
      UnusableJournalIsFinal(p, d, [], false, []);
    } else if MayStart(start, p) {
      FreshRunCompletesExactly(p, start, d);
    }
  }

  lemma FreshRunCompletesExactly(p: Plan, start: Files, d: Disk)
    requires Sound(p) && Lawful(p, start, d) && !d.HasJournal() && MayStart(start, p)
    ensures d.IsReadable() && Agrees(p, d.files, StateOf(d.lines))
    ensures Execute(p, d, false, []).1.Completed? <==> NonePast(p, start)
  {
    hide Invariant, StateOf, RunGroups, StateOfLoser, StateOfWinner, Plan.WellFormed, Plan.RootsApart,
      Plan.WinnersApart, MayStart;
    BeginKeeps(p, start, d, false, []);
    StateOfNothing();
    var (w, signal) := Begin(p, d, false, []);
    if NonePast(p, start) {
      RunGroupsQuietly(p, start, w, 0, {}, 0, 0);
    } else {
      var g, m :| 0 <= g < |p.groups| && m in p.groups[g].members && StateOfLoser(start, m) == AlreadyAbsent;
      assert p.Has(g, m);
      AbsentLoserBlocks(p, start, d.directories, [], false, [], g, m);
      assert d == Unjournaled(start, d.directories);
    }
  }

  /** No text of a plain plan spoils its journal. */
  lemma {:induction false} PlainJournalPrints(p: Plan, d: Disk, runs: seq<Run>)
    requires p.IsPlain() && Printable(d.lines)
    ensures Printable(Campaign(p, d, runs).lines)
    decreases |runs|
  {
    hide Execute, Plan.IsPlain, Printable;
    if runs != [] {
      ExecuteEvolves(true, p, d, runs[0].resume, runs[0].faults);
      PlainJournalPrints(p, Execute(p, d, runs[0].resume, runs[0].faults).0.Durable(), runs[1..]);
    }
  }

  /** Stopped or failing at any step, any number of times, outside rollbacks or with rollbacks
      that took everything back, quarantine is finished by one quiet run, provided that no
      loser was already gone, that the very first line did not leave an empty journal file,
      and that no text with a line break got into the journal, which none of a plain plan does. */
  lemma StoppedRunsResume(p: Plan, start: Files, directories: set<Location>, runs: seq<Run>)
    requires Sound(p) && Undisturbed(p, Unjournaled(start, directories), runs)
    ensures
      var d := Campaign(p, Unjournaled(start, directories), runs);
      && (Execute(p, d, d.lines != [], []).1.Completed? <==>
          NonePast(p, start) && if d.lines == [] then d.shape == NoFile && MayStart(start, p) else Printable(d.lines))
      && (p.IsPlain() ==> Printable(d.lines))
  {
    hide Execute, Undisturbed, StateOf, Readable, Printable, Agrees, StateOfLoser, StateOfWinner, Invariant, MayStart,
      Plan.WellFormed, Plan.RootsApart, Plan.WinnersApart, Plan.IsPlain;
    var first := Unjournaled(start, directories);
    StateOfNothing();
    NoLineIsReadable();
    NothingVouchedAgrees(p, start);
    UndisturbedAgrees(p, start, first, runs);
    var d := Campaign(p, first, runs);
    QuietRunCompletesExactly(p, start, d);
    if p.IsPlain() { PlainJournalPrints(p, first, runs); }
    if d.lines != [] {
      forall g, m | 0 <= g < |p.groups| && m in p.groups[g].members
        ensures StateOfLoser(d.files, m) == AlreadyAbsent <==> StateOfLoser(start, m) == AlreadyAbsent
      {
        LoserFacts(p, start, d.files, StateOf(d.lines), g, m);
      }
    }
  }

  lemma NoLineIsReadable()
    ensures Readable([]) && Printable([])
  {
  }
}
