/** Every run, whatever fails and wherever it stops, keeps the frontier invariant. */
module ApplySafety {
  import opened MediaStore
  import opened ApplyContract
  import opened ApplyExecution
  import opened ApplyInvariant
  import opened JournalFacts

  ghost predicate Good(c: Contract, start: Files, f: int, w: ApplyWorld) {
    Setting(c, start) && Frontier(c, start, f, w.files, StateOf(w.lines))
  }

  /** The members listed, all of the frontier group, are at their destinations. */
  ghost predicate Listed(c: Contract, start: Files, f: int, files: Files, completed: seq<Member>)
    requires 0 <= f < |c.groups|
  {
    forall m :: m in completed ==> c.Has(f, m) && AtDestination(start, files, m)
  }

  ghost predicate AllowedMemberEvent(c: Contract, start: Files, f: int, w: ApplyWorld, m: Member, event: Event)
    requires 0 <= f < |c.groups|
  {
    var key := MemberKey(c.groups[f].id, m);
    || event == MemberStarted(key)
    || event == RollbackStarted(key)
    || (event == MemberCompleted(key) && key in StateOf(w.lines).startedMembers)
    || (event == RollbackCompleted(key) && AtSource(start, w.files, m))
  }

  lemma AppendAboutMember(c: Contract, start: Files, f: int, w: ApplyWorld, m: Member, event: Event)
    requires Good(c, start, f, w) && c.Has(f, m) && AllowedMemberEvent(c, start, f, w, m, event)
    ensures
      var (next, signal) := Append(w, event);
      && Good(c, start, f, next) && next.files == w.files
      && (signal == Fine ==> (InSync(w) ==> InSync(next)) && StateOf(next.lines) == Record(StateOf(w.lines), Line(|w.entries| + 1, event)))
      && StateOf(next.lines).completedGroups == StateOf(w.lines).completedGroups
  {
    hide Frontier, Setting, MovingMembers, StateOf;
    var line := Line(|w.entries| + 1, event);
    match NextFault(w.faults) {
      case Tear =>
        StateOfAppend(w.lines, Broken);
      case _ =>
        StateOfAppend(w.lines, line);
        LineKeepsFrontier(c, start, f, w.files, StateOf(w.lines), line, m);
    }
  }

  lemma AppendAboutGroup(c: Contract, start: Files, f: int, w: ApplyWorld, event: Event)
    requires Good(c, start, f, w)
    requires
      || event.GroupStarted? || event.GroupFailed?
      || (f < |c.groups| && event == GroupCompleted(c.groups[f].id))
      || (f == |c.groups| && event == RunCompleted)
    ensures
      var (next, signal) := Append(w, event);
      && Good(c, start, f, next) && next.files == w.files
      && (signal == Fine ==> (InSync(w) ==> InSync(next)) && StateOf(next.lines) == Record(StateOf(w.lines), Line(|w.entries| + 1, event)))
  {
    hide Frontier, Setting, MovingMembers, StateOf;
    var line := Line(|w.entries| + 1, event);
    StateOfAppend(w.lines, line);
    StateOfAppend(w.lines, Broken);
    GroupLineKeepsFrontier(c, start, f, w.files, StateOf(w.lines), line);
    GroupLineKeepsFrontier(c, start, f, w.files, StateOf(w.lines), Broken);
  }

  ghost predicate Disjoint(a: seq<Member>, b: seq<Member>) {
    forall m :: m in a ==> m !in b
  }

  lemma {:induction false} SortKeeps(c: Contract, start: Files, f: int, w: ApplyWorld, state: JournalState, todo: seq<Member>,
                                     completed: seq<Member>, pending: seq<Member>, recovered: nat)
    requires Good(c, start, f, w) && InSync(w) && 0 <= f < |c.groups|
    requires state.startedMembers == StateOf(w.lines).startedMembers
    requires forall m :: m in todo + pending ==> c.Has(f, m)
    requires DistinctKeys(todo) && Disjoint(completed + pending, todo) && Disjoint(completed, pending)
    requires Listed(c, start, f, w.files, completed)
    ensures
      var r := Sort(w, c.groups[f].id, state, todo, completed, pending, recovered);
      && Good(c, start, f, r.world) && r.world.files == w.files
      && StateOf(r.world.lines).completedGroups == StateOf(w.lines).completedGroups
      && Listed(c, start, f, w.files, r.completed)
      && (forall m :: m in r.pending ==> c.Has(f, m))
      && (r.signal == Fine ==>
        && InSync(r.world) && Disjoint(r.completed, r.pending)
        && StateOf(r.world.lines).startedMembers == state.startedMembers
        && forall m :: m in todo + completed + pending ==> m in r.completed + r.pending)
    decreases |todo|
  {
    hide Frontier, Setting, MovingMembers, StateOf, Append, AtSource, AtDestination;
    if todo != [] {
      var m := todo[0];
      var id := c.groups[f].id;
      var key := MemberKey(id, m);
      MemberFacts(c, start, f, w.files, StateOf(w.lines), f, m);
      assert todo == [m] + todo[1..];
      SortedApart(completed, pending, todo);
      if key in state.completedMembers {
        var (next, signal) := Check(w, VerifyDestination(w.files, m));
        if signal == Fine {
          SortKeeps(c, start, f, next, state, todo[1..], completed + [m], pending, recovered);
        }
      } else if key in state.startedMembers && m.source !in w.files {
        var (w1, s1) := Check(w, Holds(w.files, m.destination, m.fingerprint));
        if s1 == Raised {
          SortKeeps(c, start, f, w1, state, todo[1..], completed, pending + [m], recovered);
        } else if s1 == Fine {
          AppendAboutMember(c, start, f, w1, m, MemberCompleted(key));
          var (next, signal) := Append(w1, MemberCompleted(key));
          if signal == Fine {
            SortKeeps(c, start, f, next, state, todo[1..], completed + [m], pending, recovered + 1);
          }
        }
      } else {
        SortKeeps(c, start, f, w, state, todo[1..], completed, pending + [m], recovered);
      }
    }
  }

  lemma SortedApart(completed: seq<Member>, pending: seq<Member>, todo: seq<Member>)
    requires todo != [] && DistinctKeys(todo) && Disjoint(completed + pending, todo) && Disjoint(completed, pending)
    ensures DistinctKeys(todo[1..])
    ensures Disjoint(completed + [todo[0]] + pending, todo[1..]) && Disjoint(completed + [todo[0]], pending)
    ensures Disjoint(completed + (pending + [todo[0]]), todo[1..]) && Disjoint(completed, pending + [todo[0]])
  {
    assert todo[0] !in todo[1..];
    assert forall m :: m in todo[1..] ==> m in todo;
    assert forall m :: m in completed || m in pending ==> m in completed + pending;
  }

  // ---------- moving ----------

  /** A rename takes effect and raises all the same, so that the member is not listed. */
  predicate RenameIsLost(w: ApplyWorld, group: string, m: Member) {
    var (next, signal) := Announce(w, group, m);
    signal == Fine && NextFault(next.faults) == Unacknowledged && CanRename(next.files, m.source, m.destination)
  }

  predicate LosesTrack(w: ApplyWorld, group: string, todo: seq<Member>, completed: seq<Member>, moved: nat)
    decreases |todo|
  {
    todo != [] &&
    (RenameIsLost(w, group, todo[0]) ||
     (var p := MoveOne(w, group, todo[0], completed, moved);
      p.signal == Fine && LosesTrack(p.world, group, todo[1..], p.completed, p.moved)))
  }

  lemma AnnounceKeeps(c: Contract, start: Files, f: int, w: ApplyWorld, m: Member)
    requires Good(c, start, f, w) && c.Has(f, m)
    ensures
      var (next, signal) := Announce(w, c.groups[f].id, m);
      && Good(c, start, f, next) && next.files == w.files
      && StateOf(next.lines).completedGroups == StateOf(w.lines).completedGroups
      && (signal == Fine ==>
        && (InSync(w) ==> InSync(next))
        && AtSource(start, w.files, m) && MemberKey(c.groups[f].id, m) in StateOf(next.lines).startedMembers)
  {
    hide Frontier, Setting, MovingMembers, StateOf, Append, EnsureDirectories, AtSource, AtDestination;
    var id := c.groups[f].id;
    var (w1, s1) := EnsureDirectories(w, id, Parents(m.destination));
    DirectoriesAreSilent(w, id, Parents(m.destination));
    DirectoriesEvolve(Still, w, id, Parents(m.destination));
    DirectoriesAreClean(w, id, Parents(m.destination));
    MemberFacts(c, start, f, w.files, StateOf(w.lines), f, m);
    if s1 == Fine {
      AppendAboutMember(c, start, f, Check(w1, Revalidate(w1.files, m)).0, m, MemberStarted(MemberKey(id, m)));
    }
  }

  lemma SourceIsNotDestination(start: Files, files: Files, m: Member)
    requires AtSource(start, files, m)
    ensures CanRename(files, m.source, m.destination) && !AtDestination(start, files, m)
  {
  }

  lemma MoveOneKeeps(c: Contract, start: Files, f: int, w: ApplyWorld, m: Member, completed: seq<Member>, moved: nat)
    requires Good(c, start, f, w) && c.Has(f, m) && Listed(c, start, f, w.files, completed)
    ensures
      var p := MoveOne(w, c.groups[f].id, m, completed, moved);
      && Good(c, start, f, p.world)
      && Listed(c, start, f, p.world.files, p.completed)
      && StateOf(p.world.lines).completedGroups == StateOf(w.lines).completedGroups
      && (p.signal == Fine ==> (InSync(w) ==> InSync(p.world)) && p.completed == completed + [m])
      && (p.completed == completed || p.completed == completed + [m])
      && (forall n :: c.Has(f, n) && n != m ==> (AtDestination(start, p.world.files, n) <==> AtDestination(start, w.files, n)))
      && (if RenameIsLost(w, c.groups[f].id, m) then
            p.signal == Raised && m !in p.completed && AtDestination(start, p.world.files, m)
          else AtDestination(start, p.world.files, m) ==> m in p.completed || AtDestination(start, w.files, m))
  {
    hide Frontier, Setting, MovingMembers, StateOf, Append, Announce, AtSource, AtDestination, Check, RenameNoReplace;
    var id := c.groups[f].id;
    var key := MemberKey(id, m);
    AnnounceKeeps(c, start, f, w, m);
    var (w1, s1) := Announce(w, id, m);
    if s1 == Fine {
      SourceIsNotDestination(start, w.files, m);
      MoveStepKeeps(c, start, f, w1, m);
      var (w2, s2) := RenameNoReplace(w1, m.source, m.destination);
      if s2 == Fine {
        CheckEvolves(Still, w2, VerifyDestination(w2.files, m));
        AppendAboutMember(c, start, f, Check(w2, VerifyDestination(w2.files, m)).0, m, MemberCompleted(key));
      }
    }
  }

  /** The rename to the destination, acknowledged or not. */
  lemma MoveStepKeeps(c: Contract, start: Files, f: int, w: ApplyWorld, m: Member)
    requires Good(c, start, f, w) && c.Has(f, m) && AtSource(start, w.files, m)
    requires MemberKey(c.groups[f].id, m) in StateOf(w.lines).startedMembers
    ensures
      var (next, signal) := RenameNoReplace(w, m.source, m.destination);
      && Good(c, start, f, next) && next.lines == w.lines && next.entries == w.entries
      && (signal == Fine || NextFault(w.faults) == Unacknowledged ==> AtDestination(start, next.files, m))
      && (signal != Fine && NextFault(w.faults) != Unacknowledged ==> next.files == w.files)
      && (NextFault(w.faults) == Unacknowledged ==> signal == Raised)
      && (forall n :: c.Has(f, n) && n != m ==> (AtDestination(start, next.files, n) <==> AtDestination(start, w.files, n)))
  {
    hide Frontier, Setting, MovingMembers, StateOf, AtSource, AtDestination;
    SourceIsNotDestination(start, w.files, m);
    var next := RenameNoReplace(w, m.source, m.destination).0;
    if next.files != w.files {
      MoveKeepsFrontier(c, start, f, w.files, StateOf(w.lines), m);
      OthersStay(c, start, w.files, f, m, next.files);
    }
    if NextFault(w.faults) == Proceed || NextFault(w.faults) == Unacknowledged {
      RenameIsMove(w, m);
    }
  }

  lemma RenameIsMove(w: ApplyWorld, m: Member)
    requires CanRename(w.files, m.source, m.destination)
    requires NextFault(w.faults) == Proceed || NextFault(w.faults) == Unacknowledged
    ensures
      var next := RenameNoReplace(w, m.source, m.destination).0;
      next.files == Relocate(w.files, m.source, m.destination) && next.files != w.files
  {
    var next := RenameNoReplace(w, m.source, m.destination).0;
    assert m.destination in next.files && m.destination !in w.files;
  }

  /** A line that was not acknowledged is not there, or the process is out of step. */
  lemma SyncedFailure(w: ApplyWorld, event: Event)
    ensures
      var (next, signal) := Append(w, event);
      signal != Fine && InSync(w) && InSync(next) ==> next.lines == w.lines
  {
  }

  lemma {:induction false} MoveAllKeeps(c: Contract, start: Files, f: int, w: ApplyWorld, todo: seq<Member>,
                                        completed: seq<Member>, moved: nat)
    requires Good(c, start, f, w) && 0 <= f < |c.groups| && Listed(c, start, f, w.files, completed)
    requires forall m :: m in todo ==> c.Has(f, m)
    ensures
      var p := MoveAll(w, c.groups[f].id, todo, completed, moved);
      && Good(c, start, f, p.world)
      && Listed(c, start, f, p.world.files, p.completed) && completed <= p.completed
      && (p.signal == Fine ==>
        && (InSync(w) ==> InSync(p.world))
        && p.completed == completed + todo
        && StateOf(p.world.lines).completedGroups == StateOf(w.lines).completedGroups + {c.groups[f].id})
      && (p.signal != Fine && InSync(w) && InSync(p.world) ==>
        StateOf(p.world.lines).completedGroups == StateOf(w.lines).completedGroups)
      && (if LosesTrack(w, c.groups[f].id, todo, completed, moved) then
            p.signal == Raised && exists n :: c.Has(f, n) && n !in p.completed && AtDestination(start, p.world.files, n)
          else
            forall n :: c.Has(f, n) && AtDestination(start, p.world.files, n) ==> n in p.completed || AtDestination(start, w.files, n))
    decreases |todo|
  {
    hide Frontier, Setting, MovingMembers, StateOf, MoveOne, Append, AtDestination, RenameIsLost;
    var id := c.groups[f].id;
    if todo == [] {
      AppendAboutGroup(c, start, f, w, GroupCompleted(id));
      SyncedFailure(w, GroupCompleted(id));
    } else {
      var m := todo[0];
      MoveOneKeeps(c, start, f, w, m, completed, moved);
      var p := MoveOne(w, id, m, completed, moved);
      if p.signal == Fine {
        MoveAllKeeps(c, start, f, p.world, todo[1..], p.completed, p.moved);
        assert completed + todo == completed + [m] + todo[1..];
        assert m in p.completed;
      }
    }
  }

  // ---------- rolling back ----------

  lemma UndoOneKeeps(c: Contract, start: Files, f: int, w: ApplyWorld, m: Member, failures: seq<Member>)
    requires Good(c, start, f, w) && c.Has(f, m)
    ensures
      var u := UndoOne(w, c.groups[f].id, m, failures);
      && Good(c, start, f, u.world)
      && failures <= u.failures
      && (!u.halted ==> AtSource(start, u.world.files, m) || m in u.failures)
      && (forall n :: c.Has(f, n) && n != m ==> (AtDestination(start, u.world.files, n) <==> AtDestination(start, w.files, n)))
  {
    hide Frontier, Setting, MovingMembers, StateOf, Append, AtSource, AtDestination, Check, RenameNoReplace,
      VerifyDestination, VerifySource;
    var key := MemberKey(c.groups[f].id, m);
    AppendAboutMember(c, start, f, w, m, RollbackStarted(key));
    var (w1, s1) := Append(w, RollbackStarted(key));
    CheckEvolves(Still, w1, VerifyDestination(w1.files, m));
    var (w2, s2) := Check(w1, VerifyDestination(w1.files, m));
    if s1 != Halted && s2 == Fine {
      MemberFacts(c, start, f, w2.files, StateOf(w2.lines), f, m);
      UndoStepKeeps(c, start, f, w2, m);
      var (w3, s3) := RenameNoReplace(w2, m.destination, m.source);
      CheckEvolves(Still, w3, VerifySource(w3.files, m));
      var (w4, s4) := Check(w3, VerifySource(w3.files, m));
      if s3 == Fine && s4 == Fine {
        AppendAboutMember(c, start, f, w4, m, RollbackCompleted(key));
      }
    }
  }

  /** The rename back, acknowledged or not. */
  lemma UndoStepKeeps(c: Contract, start: Files, f: int, w: ApplyWorld, m: Member)
    requires Good(c, start, f, w) && c.Has(f, m) && AtDestination(start, w.files, m)
    ensures
      var (next, signal) := RenameNoReplace(w, m.destination, m.source);
      && Good(c, start, f, next) && next.lines == w.lines && next.entries == w.entries
      && (signal == Fine ==> AtSource(start, next.files, m))
      && (forall n :: c.Has(f, n) && n != m ==> (AtDestination(start, next.files, n) <==> AtDestination(start, w.files, n)))
  {
    hide Frontier, Setting, MovingMembers, StateOf, AtSource, AtDestination;
    var (next, signal) := RenameNoReplace(w, m.destination, m.source);
    if CanRename(w.files, m.destination, m.source) && next.files == Relocate(w.files, m.destination, m.source) {
      UndoKeepsFrontier(c, start, f, w.files, StateOf(w.lines), m);
      OthersStay(c, start, w.files, f, m, next.files);
    }
  }

  /** What a rollback does not list, it leaves where it is. */
  lemma {:induction false} UndoAllKeeps(c: Contract, start: Files, f: int, w: ApplyWorld, members: seq<Member>,
                                        failures: seq<Member>)
    requires Good(c, start, f, w) && 0 <= f < |c.groups|
    requires forall m :: m in members ==> c.Has(f, m)
    ensures
      var u := UndoAll(w, c.groups[f].id, members, failures);
      && Good(c, start, f, u.world)
      && (!u.halted ==>
        && failures <= u.failures
        && (forall m :: m in members ==> AtSource(start, u.world.files, m) || m in u.failures)
        && (forall n :: c.Has(f, n) && n !in members ==> (AtDestination(start, u.world.files, n) <==> AtDestination(start, w.files, n))))
    decreases |members|
  {
    hide Frontier, Setting, MovingMembers, StateOf, AtSource, AtDestination, UndoOne;
    if members != [] {
      var last := |members| - 1;
      var m := members[last];
      UndoOneKeeps(c, start, f, w, m, failures);
      var u := UndoOne(w, c.groups[f].id, m, failures);
      assert members == members[..last] + [m];
      if !u.halted {
        UndoAllKeeps(c, start, f, u.world, members[..last], u.failures);
        var v := UndoAll(u.world, c.groups[f].id, members[..last], u.failures);
        MemberFacts(c, start, f, u.world.files, StateOf(u.world.lines), f, m);
        MemberFacts(c, start, f, v.world.files, StateOf(v.world.lines), f, m);
      }
    }
  }

  /** After a group reports a safe rollback, the files that are at their sources are those
      listed as moved and those that were there anyway. */
  lemma HandleKeeps(c: Contract, start: Files, f: int, w: ApplyWorld, completed: seq<Member>)
    requires Good(c, start, f, w) && 0 <= f < |c.groups| && Listed(c, start, f, w.files, completed)
    ensures
      var (next, outcome) := Handle(w, c.groups[f].id, completed);
      && Good(c, start, f, next)
      && outcome.Handled() && (!outcome.Crashed? ==> outcome.group == c.groups[f].id)
      && (outcome.RolledBackSafely? ==>
        forall m :: c.Has(f, m) ==> (AtSource(start, next.files, m) <==> m in completed || !AtDestination(start, w.files, m)))
  {
    hide Frontier, Setting, MovingMembers, StateOf, AtSource, AtDestination, UndoAll;
    UndoAllKeeps(c, start, f, w, completed, []);
    var u := UndoAll(w, c.groups[f].id, completed, []);
    if !u.halted {
      AppendAboutGroup(c, start, f, u.world, GroupFailed(c.groups[f].id));
      var next := Handle(w, c.groups[f].id, completed).0;
      forall m | c.Has(f, m)
        ensures AtSource(start, next.files, m) != AtDestination(start, next.files, m)
      {
        MemberFacts(c, start, f, next.files, StateOf(next.lines), f, m);
      }
    }
  }

  // ---------- groups ----------

  /** A member that was moved before counts as pending: it had been started, and the look at
      its destination failed. */
  predicate Misjudges(r: Sorting) {
    exists m | m in r.pending :: VerifyDestination(r.world.files, m)
  }

  /** The attempt at a group leaves a member at its destination that its rollback does not
      know of: one that sorting misjudged, or one whose rename was not acknowledged. */
  predicate GroupStrays(w: ApplyWorld, g: Group, moved: nat, recovered: nat) {
    var r := Sort(w, g.id, StateOf(w.entries), g.Moving(), [], [], recovered);
    var (w1, s1) := Append(r.world, GroupStarted(g.id));
    var (w2, s2) := Check(w1, forall m | m in r.pending :: Revalidate(w1.files, m));
    && r.signal == Fine && s1 == Fine
    && (Misjudges(r) || (s2 == Fine && LosesTrack(w2, g.id, r.pending, r.completed, moved)))
  }

  /** What running the frontier group gives: it is done and the frontier moves on, or the
      run ends with the frontier where it was. */
  ghost predicate GroupResultOk(c: Contract, start: Files, f: int, w: ApplyWorld, r: GroupResult, strays: bool)
    requires 0 <= f < |c.groups|
  {
    match r
    case GoOn(next, _, _) =>
      && Good(c, start, f + 1, next) && InSync(next)
      && (f + 1 < |c.groups| ==> GroupUntouched(c, start, next.files, StateOf(next.lines), f + 1))
      && StateOf(next.lines).completedGroups == StateOf(w.lines).completedGroups + {c.groups[f].id}
    case End(next, outcome) =>
      && Good(c, start, f, next) && !outcome.Completed?
      && (outcome.Handled() && !outcome.Crashed? ==> outcome.group == c.groups[f].id)
      && (outcome.RolledBackSafely? ==> ((forall m :: c.Has(f, m) ==> AtSource(start, next.files, m)) <==> !strays))
  }

  lemma SortGroupKeeps(c: Contract, start: Files, f: int, w: ApplyWorld, recovered: nat)
    requires Good(c, start, f, w) && InSync(w) && 0 <= f < |c.groups|
    ensures
      var r := Sort(w, c.groups[f].id, StateOf(w.entries), c.groups[f].Moving(), [], [], recovered);
      && Good(c, start, f, r.world) && r.world.files == w.files
      && StateOf(r.world.lines).completedGroups == StateOf(w.lines).completedGroups
      && Listed(c, start, f, w.files, r.completed) && (forall m :: m in r.pending ==> c.Has(f, m))
      && (r.signal == Fine ==>
        && InSync(r.world) && Disjoint(r.completed, r.pending)
        && (forall m :: c.Has(f, m) ==> m in r.completed + r.pending)
        && (forall m :: c.Has(f, m) && AtDestination(start, w.files, m) ==> m in r.completed || Misjudges(r))
        && (Misjudges(r) ==> exists m :: c.Has(f, m) && AtDestination(start, w.files, m) && m !in r.completed))
  {
    hide Frontier, MovingMembers, StateOf, Sort, AtSource, AtDestination, VerifyDestination;
    var all := c.groups[f].Moving();
    MovingMembersAre(c.groups[f].members);
    assert DistinctKeys(all);
    assert all + [] == all && all + [] + [] == all;
    SortKeeps(c, start, f, w, StateOf(w.entries), all, [], [], recovered);
    var r := Sort(w, c.groups[f].id, StateOf(w.entries), all, [], [], recovered);
    forall m | c.Has(f, m)
      ensures VerifyDestination(w.files, m) <==> AtDestination(start, w.files, m)
    {
      MemberFacts(c, start, f, w.files, StateOf(w.lines), f, m);
    }
  }

  lemma RunGroupKeeps(c: Contract, start: Files, f: int, w: ApplyWorld, moved: nat, recovered: nat)
    requires Good(c, start, f, w) && InSync(w) && 0 <= f < |c.groups|
    ensures GroupResultOk(c, start, f, w, RunGroup(w, c.groups[f], moved, recovered), GroupStrays(w, c.groups[f], moved, recovered))
  {
    hide Frontier, Setting, MovingMembers, StateOf, Sort, MoveAll, Append, Handle, AtSource, AtDestination, Misjudges,
      LosesTrack, Revalidate;
    var g := c.groups[f];
    SortGroupKeeps(c, start, f, w, recovered);
    var r := Sort(w, g.id, StateOf(w.entries), g.Moving(), [], [], recovered);
    if r.signal == Fine {
      AppendAboutGroup(c, start, f, r.world, GroupStarted(g.id));
      var (w1, s1) := Append(r.world, GroupStarted(g.id));
      if s1 == Fine {
        TryGroupKeeps(c, start, f, w1, r, moved);
        var p := TryGroup(w1, g.id, r.pending, r.completed, moved);
        if p.signal == Fine {
          GroupFacts(c, start, f, p.world.files, StateOf(p.world.lines), f + 1);
          FrontierAdvances(c, start, f, p.world.files, StateOf(p.world.lines));
        } else if p.signal == Raised {
          HandleKeeps(c, start, f, p.world, p.completed);
        }
      }
    }
  }

  lemma RevalidatedIsPending(r: Sorting)
    requires forall m | m in r.pending :: Revalidate(r.world.files, m)
    ensures !Misjudges(r)
  {
    forall m | m in r.pending
      ensures !VerifyDestination(r.world.files, m)
    {
      assert Revalidate(r.world.files, m);
    }
  }

  /** The guarded part: its list misses a moved member exactly when there is a stray. */
  lemma TryGroupKeeps(c: Contract, start: Files, f: int, w: ApplyWorld, r: Sorting, moved: nat)
    requires Good(c, start, f, w) && InSync(w) && 0 <= f < |c.groups| && w.files == r.world.files
    requires Listed(c, start, f, w.files, r.completed) && forall m :: m in r.pending ==> c.Has(f, m)
    requires forall m :: c.Has(f, m) ==> m in r.completed + r.pending
    requires forall m :: c.Has(f, m) && AtDestination(start, w.files, m) ==> m in r.completed || Misjudges(r)
    requires Misjudges(r) ==> exists m :: c.Has(f, m) && AtDestination(start, w.files, m) && m !in r.completed
    ensures
      var p := TryGroup(w, c.groups[f].id, r.pending, r.completed, moved);
      var (w2, s2) := Check(w, forall m | m in r.pending :: Revalidate(w.files, m));
      && Good(c, start, f, p.world) && Listed(c, start, f, p.world.files, p.completed)
      && (p.signal == Fine ==>
        && InSync(p.world) && GroupMoved(c, start, p.world.files, f)
        && StateOf(p.world.lines).completedGroups == StateOf(w.lines).completedGroups + {c.groups[f].id})
      && (p.signal == Raised ==>
        ((exists m :: c.Has(f, m) && AtDestination(start, p.world.files, m) && m !in p.completed) <==>
         Misjudges(r) || (s2 == Fine && LosesTrack(w2, c.groups[f].id, r.pending, r.completed, moved))))
  {
    hide Frontier, Setting, StateOf, MoveAll, AtSource, AtDestination, LosesTrack, Revalidate, Misjudges, Check,
      Group.Moving, Evolves;
    var (w2, s2) := Check(w, forall m | m in r.pending :: Revalidate(w.files, m));
    CheckEvolves(Still, w, forall m | m in r.pending :: Revalidate(w.files, m));
    var p := TryGroup(w, c.groups[f].id, r.pending, r.completed, moved);
    if s2 == Fine {
      assert !Misjudges(r) by { RevalidatedIsPending(r); }
      MoveAllKeeps(c, start, f, w2, r.pending, r.completed, moved);
      if p.signal == Fine {
        forall m | m in c.groups[f].Moving()
          ensures AtDestination(start, p.world.files, m)
        {
          assert c.Has(f, m);
        }
      }
    }
  }

  // ---------- runs ----------

  /** The failing attempt of the run leaves a stray. */
  predicate RunStrays(w: ApplyWorld, c: Contract, i: nat, done: set<string>, moved: nat, recovered: nat)
    requires i <= |c.groups|
    decreases |c.groups| - i
  {
    if i == |c.groups| then false
    else
      var g := c.groups[i];
      if g.id in done then
        var (next, signal) := Check(w, forall m | m in g.Moving() :: VerifyDestination(w.files, m));
        signal == Fine && RunStrays(next, c, i + 1, done, moved, recovered)
      else
        match RunGroup(w, g, moved, recovered)
        case GoOn(next, moved', recovered') => RunStrays(next, c, i + 1, done + {g.id}, moved', recovered')
        case End(_, _) => GroupStrays(w, g, moved, recovered)
  }

  ghost predicate RunOk(c: Contract, start: Files, f: int, w: ApplyWorld, outcome: Outcome, strays: bool) {
    && Good(c, start, f, w)
    && (outcome.Handled() && !outcome.Crashed? ==> f < |c.groups| && outcome.group == c.groups[f].id)
    && (outcome.RolledBackSafely? ==> ((forall m :: c.Has(f, m) ==> AtSource(start, w.files, m)) <==> !strays))
    && (outcome.Completed? ==> f == |c.groups|)
  }

  lemma {:induction false} RunGroupsKeep(c: Contract, start: Files, f: int, w: ApplyWorld, i: nat,
                                         done: set<string>, moved: nat, recovered: nat)
      returns (f': int)
    requires Good(c, start, f, w) && InSync(w) && i <= f
    requires done == StateOf(w.lines).completedGroups
    ensures i <= |c.groups|
    ensures
      var (next, outcome) := RunGroups(w, c, i, done, moved, recovered);
      RunOk(c, start, f', next, outcome, RunStrays(w, c, i, done, moved, recovered))
    decreases |c.groups| - i
  {
    hide Frontier, Setting, MovingMembers, StateOf, RunGroup, AllVerified, VerifyDestination, Append, GroupStrays;
    f' := f;
    GroupFacts(c, start, f, w.files, StateOf(w.lines), i);
    if i == |c.groups| {
      AppendAboutGroup(c, start, f, Check(w, AllVerified(w.files, c)).0, RunCompleted);
    } else {
      var g := c.groups[i];
      if g.id in done {
        var (next, signal) := Check(w, forall m | m in g.Moving() :: VerifyDestination(w.files, m));
        if signal == Fine {
          if i == f {
            assert GroupMoved(c, start, w.files, f) by {
              forall m | m in g.Moving()
                ensures AtDestination(start, w.files, m)
              { MemberFacts(c, start, f, w.files, StateOf(w.lines), f, m); }
            }
            FrontierAdvances(c, start, f, w.files, StateOf(w.lines));
            f' := RunGroupsKeep(c, start, f + 1, next, i + 1, done, moved, recovered);
          } else {
            f' := RunGroupsKeep(c, start, f, next, i + 1, done, moved, recovered);
          }
        }
      } else {
        assert i == f;
        RunGroupKeeps(c, start, f, w, moved, recovered);
        var r := RunGroup(w, g, moved, recovered);
        if r.GoOn? {
          f' := RunGroupsKeep(c, start, f + 1, r.world, i + 1, done + {g.id}, r.moved, r.recovered);
        }
      }
    }
  }
}
