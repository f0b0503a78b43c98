/** The journal that a completed quarantine leaves is one that restore accepts. */
module QuarantineJournal {
  import opened MediaStore
  import opened QuarantineModel
  import opened QuarantineExecution
  import opened QuarantineInvariant
  import opened JournalFacts
  import R = QuarantineRestore
  import QC = QuarantineConservation

  /** Every completed group has all its members completed, and a completed run all groups. */
  ghost predicate Backed(p: Plan, s: JournalState) {
    && s.completedMembers <= R.AllKeys(p)
    && s.completedGroups <= GroupIds(p)
    && (forall g, m :: p.Has(g, m) && p.groups[g].id in s.completedGroups ==> KeyOf(p.groups[g].id, m) in s.completedMembers)
    && (s.runCompleted ==> GroupIds(p) <= s.completedGroups)
  }

  /** A process out of step with its journal is one line behind a readable one. */
  ghost predicate Trailing(w: QuarantineWorld) {
    && |w.entries| <= |w.lines|
    && (InSync(w) || (Readable(w.lines) ==> |w.lines| == |w.entries| + 1))
  }

  ghost predicate Good(p: Plan, w: QuarantineWorld) {
    && p.WellFormed()
    && Trailing(w)
    && (Readable(w.lines) ==> Backed(p, StateOf(w.lines)))
  }

  lemma SyncStays(w: QuarantineWorld, event: Event)
    requires |w.entries| <= |w.lines| && InSync(Append(w, event).0)
    ensures InSync(w)
  {
    hide Breaks;
    var next := Append(w, event).0;
    if NextFault(w.faults) == Proceed {
      assert next.lines[..|next.lines| - 1] == w.lines && next.entries[..|next.entries| - 1] == w.entries;
    }
  }

  /** Once out of step, whatever is appended makes the journal unreadable. */
  lemma AppendTrails(w: QuarantineWorld, event: Event)
    requires Trailing(w)
    ensures
      var (next, signal) := Append(w, event);
      && Trailing(next) && (signal == Fine && InSync(w) ==> InSync(next))
      && (Readable(w.lines) && InSync(w) && signal == Fine ==> Readable(next.lines))
      && (Readable(next.lines) ==> Readable(w.lines))
      && (Readable(next.lines) && next.lines != w.lines ==> InSync(w) && next.lines == w.lines + [Line(|w.entries| + 1, event)])
      && (InSync(next) ==> InSync(w))
  {
    hide Breaks;
    var (next, signal) := Append(w, event);
    if InSync(next) { SyncStays(w, event); }
    if Readable(next.lines) {
      assert w.lines <= next.lines;
      forall i | 0 <= i < |w.lines| ensures w.lines[i].Line? && w.lines[i].sequence == i + 1 { assert next.lines[i] == w.lines[i]; }
      if next.lines != w.lines {
        assert next.lines[|w.lines|].Line? && next.lines[|w.lines|].sequence == |w.lines| + 1;
      }
    }
  }

  /** The lines that keep a journal backed; taking a completion back is only for groups not
      completed yet, declaring a group completed only for one whose members all are. */
  ghost predicate Allowed(p: Plan, s: JournalState, g: int, event: Event) {
    && 0 <= g < |p.groups|
    && match event
       case MemberStarted(_) => true
       case RollbackStarted(_) => true
       case GroupStarted(_) => true
       case DirectoryStarted(_, _) => true
       case DirectoryCreated(_, _) => true
       case GroupFailed(_) => true
       case RunStarted => true
       case MemberCompleted(key) => key in R.AllKeys(p)
       case RollbackCompleted(key) => key.group == p.groups[g].id && p.groups[g].id !in s.completedGroups
       case GroupCompleted(id) => id == p.groups[g].id && forall m :: p.Has(g, m) ==> KeyOf(id, m) in s.completedMembers
       case RunCompleted => false
  }

  lemma AppendKeeps(p: Plan, w: QuarantineWorld, g: int, event: Event)
    requires Good(p, w) && (InSync(w) ==> Allowed(p, StateOf(w.lines), g, event))
    ensures
      var (next, signal) := Append(w, event);
      && Good(p, next) && (signal == Fine && InSync(w) ==> InSync(next) && StateOf(next.lines) == Record(StateOf(w.lines), Line(|w.entries| + 1, event)))
      && (Readable(w.lines) && InSync(w) && signal == Fine ==> Readable(next.lines))
      && (InSync(next) ==> InSync(w))
  {
    hide StateOf, Readable, R.AllKeys, Trailing;
    AppendTrails(w, event);
    var (next, signal) := Append(w, event);
    StateOfAppend(w.lines, Line(|w.entries| + 1, event));
    if Readable(next.lines) && next.lines != w.lines {
      BackedNext(p, StateOf(w.lines), g, Line(|w.entries| + 1, event));
    }
  }

  lemma BackedNext(p: Plan, s: JournalState, g: int, line: Line)
    requires p.WellFormed() && Backed(p, s) && line.Line? && Allowed(p, s, g, line.event)
    ensures Backed(p, Record(s, line))
  {
    hide R.AllKeys;
  }

  lemma KeyIsKnown(p: Plan, g: int, m: Loser)
    requires p.Has(g, m)
    ensures KeyOf(p.groups[g].id, m) in R.AllKeys(p)
  {
    assert 0 <= g < |p.groups| && m in p.groups[g].members;
  }

  /** A step that writes nothing. */
  lemma QuietStep(p: Plan, w: QuarantineWorld, next: QuarantineWorld)
    ensures next.lines == w.lines && next.entries == w.entries ==>
              (Good(p, w) ==> Good(p, next)) && InSync(next) == InSync(w) && StateOf(next.lines) == StateOf(w.lines)
  {
    hide StateOf, Readable, Backed;
  }

  lemma {:induction false} SortBacks(p: Plan, g: int, w: QuarantineWorld, state: JournalState,
                                     todo: seq<Loser>, pending: seq<Loser>, recovered: nat)
    requires Good(p, w) && InSync(w) && Readable(w.lines) && 0 <= g < |p.groups|
    requires forall m :: m in todo ==> p.Has(g, m)
    requires state.completedMembers <= StateOf(w.lines).completedMembers
    ensures
      var r := Sort(w, p.groups[g].id, state, todo, pending, recovered);
      && Good(p, r.world)
      && (r.signal == Fine ==>
        && InSync(r.world) && Readable(r.world.lines)
        && StateOf(r.world.lines).completedGroups == StateOf(w.lines).completedGroups
        && StateOf(w.lines).completedMembers <= StateOf(r.world.lines).completedMembers
        && StateOf(r.world.lines).runCompleted == StateOf(w.lines).runCompleted
        && (forall m :: m in r.pending ==> m in pending || m in todo)
        && (forall m :: m in todo ==> m in r.pending || KeyOf(p.groups[g].id, m) in StateOf(r.world.lines).completedMembers)
        && (forall m :: m in pending ==> m in r.pending))
    decreases |todo|
  {
    hide Good, StateOf, Append, StateOfLoser, Readable, Check;
    if todo != [] {
      var m := todo[0];
      var id := p.groups[g].id;
      var key := KeyOf(id, m);
      assert p.Has(g, m) && todo == [m] + todo[1..];
      KeyIsKnown(p, g, m);
      var now := StateOfLoser(w.files, m);
      QuietStep(p, w, Check(w, now != Ambiguous).0);
      CheckEvolves(Still, w, now != Ambiguous);
      var (w1, s1) := Check(w, now != Ambiguous);
      if s1 == Fine {
        if key in state.completedMembers {
          if now != AtHome { SortBacks(p, g, w1, state, todo[1..], pending, recovered); }
        } else if (key in state.startedMembers && now == Quarantined) || now == AlreadyAbsent {
          AppendKeeps(p, w1, g, MemberCompleted(key));
          var (next, signal) := Append(w1, MemberCompleted(key));
          if signal == Fine {
            SortBacks(p, g, next, state, todo[1..], pending, if now == Quarantined then recovered + 1 else recovered);
          }
        } else if now == AtHome {
          SortBacks(p, g, w1, state, todo[1..], pending + [m], recovered);
        }
      }
    }
  }

  lemma {:induction false} DirectoriesBack(p: Plan, g: int, w: QuarantineWorld, group: string, todo: seq<Location>)
    requires Good(p, w) && InSync(w) && Readable(w.lines) && 0 <= g < |p.groups|
    ensures
      var (next, signal) := EnsureDirectories(w, group, todo);
      && Good(p, next) && (signal == Fine ==> InSync(next) && Readable(next.lines))
    decreases |todo|
  {
    hide Good, StateOf, Append, Readable;
    if todo != [] {
      if todo[0] in w.directories {
        DirectoriesBack(p, g, w, group, todo[1..]);
      } else {
        AppendKeeps(p, w, g, DirectoryStarted(group, todo[0]));
        var w1 := Append(w, DirectoryStarted(group, todo[0])).0;
        MakingBacks(p, w1, todo[0]);
        var w2 := MakeDirectory(w1, todo[0]).0;
        if Append(w, DirectoryStarted(group, todo[0])).1 == Fine {
          AppendKeeps(p, w2, g, DirectoryCreated(group, todo[0]));
          if Append(w2, DirectoryCreated(group, todo[0])).1 == Fine {
            DirectoriesBack(p, g, Append(w2, DirectoryCreated(group, todo[0])).0, group, todo[1..]);
          }
        }
      }
    }
  }

  lemma MakingBacks(p: Plan, w: QuarantineWorld, at: Location)
    requires Good(p, w)
    ensures Good(p, MakeDirectory(w, at).0)
    ensures MakeDirectory(w, at).0.lines == w.lines && MakeDirectory(w, at).0.entries == w.entries
  {
    hide Good;
    QuietStep(p, w, MakeDirectory(w, at).0);
  }

  lemma AnnounceBacks(p: Plan, g: int, w: QuarantineWorld, m: Loser)
    requires Good(p, w) && InSync(w) && Readable(w.lines) && p.Has(g, m)
    ensures
      var (next, signal) := Announce(w, p.groups[g].id, m);
      && Good(p, next)
      && (InSync(next) ==> StateOf(next.lines).completedGroups == StateOf(w.lines).completedGroups)
      && (signal == Fine ==>
        && InSync(next) && Readable(next.lines)
        && StateOf(next.lines).runCompleted == StateOf(w.lines).runCompleted
        && StateOf(next.lines).completedMembers == StateOf(w.lines).completedMembers)
  {
    hide Good, StateOf, Append, EnsureDirectories, StateOfLoser, Readable, Check;
    var key := KeyOf(p.groups[g].id, m);
    DirectoriesBack(p, g, w, p.groups[g].id, Parents(m.quarantine));
    DirectoriesAreSilent(w, p.groups[g].id, Parents(m.quarantine));
    var (w1, s1) := EnsureDirectories(w, p.groups[g].id, Parents(m.quarantine));
    if s1 == Fine {
      AppendKeeps(p, w1, g, MemberStarted(key));
      AppendInStep(w1, MemberStarted(key));
      var w2 := Append(w1, MemberStarted(key)).0;
      CheckEvolves(Still, w2, StateOfLoser(w2.files, m) == AtHome);
      QuietStep(p, w2, Check(w2, StateOfLoser(w2.files, m) == AtHome).0);
    }
  }

  lemma MoveOneBacks(p: Plan, g: int, w: QuarantineWorld, m: Loser, moved: seq<Loser>)
    requires Good(p, w) && InSync(w) && Readable(w.lines) && p.Has(g, m)
    ensures
      var t := MoveOne(w, p.groups[g].id, m, moved);
      && Good(p, t.world)
      && (InSync(t.world) ==> StateOf(t.world.lines).completedGroups == StateOf(w.lines).completedGroups)
      && (t.signal == Fine ==>
        && InSync(t.world) && Readable(t.world.lines)
        && StateOf(t.world.lines).runCompleted == StateOf(w.lines).runCompleted
        && StateOf(t.world.lines).completedMembers == StateOf(w.lines).completedMembers + {KeyOf(p.groups[g].id, m)})
      && (t.moved == moved || t.moved == moved + [m])
  {
    hide Good, StateOf, Append, Announce, RenameNoReplace, StateOfLoser, Readable, Check;
    var key := KeyOf(p.groups[g].id, m);
    KeyIsKnown(p, g, m);
    AnnounceBacks(p, g, w, m);
    var (w1, s1) := Announce(w, p.groups[g].id, m);
    if s1 == Fine {
      RenameIsClean(w1, m.source, m.quarantine);
      var w2 := RenameNoReplace(w1, m.source, m.quarantine).0;
      QuietStep(p, w1, w2);
      CheckEvolves(Still, w2, StateOfLoser(w2.files, m) == Quarantined);
      var w3 := Check(w2, StateOfLoser(w2.files, m) == Quarantined).0;
      QuietStep(p, w2, w3);
      AppendKeeps(p, w3, g, MemberCompleted(key));
      AppendInStep(w3, MemberCompleted(key));
    }
  }

  /** If the process is still in step after an append, either the line is there or nothing is. */
  lemma AppendInStep(w: QuarantineWorld, event: Event)
    ensures
      var (next, signal) := Append(w, event);
      InSync(w) && InSync(next) ==>
        StateOf(next.lines) == if signal == Fine then Record(StateOf(w.lines), Line(|w.entries| + 1, event)) else StateOf(w.lines)
  {
    StateOfAppend(w.lines, Line(|w.entries| + 1, event));
  }

  lemma {:induction false} MoveAllBacks(p: Plan, g: int, w: QuarantineWorld, todo: seq<Loser>, moved: seq<Loser>)
    requires Good(p, w) && InSync(w) && Readable(w.lines) && 0 <= g < |p.groups|
    requires forall m :: m in todo ==> p.Has(g, m)
    requires forall m :: p.Has(g, m) ==> m in todo || KeyOf(p.groups[g].id, m) in StateOf(w.lines).completedMembers
    requires p.groups[g].id !in StateOf(w.lines).completedGroups
    ensures
      var t := MoveAll(w, p.groups[g].id, todo, moved);
      && Good(p, t.world)
      && (t.signal != Fine && InSync(t.world) ==> p.groups[g].id !in StateOf(t.world.lines).completedGroups)
      && (t.signal == Fine ==>
        && InSync(t.world) && Readable(t.world.lines)
        && StateOf(t.world.lines).runCompleted == StateOf(w.lines).runCompleted
        && StateOf(t.world.lines).completedGroups == StateOf(w.lines).completedGroups + {p.groups[g].id})
      && (forall m :: m in t.moved ==> m in moved || m in todo)
    decreases |todo|
  {
    hide Good, StateOf, Append, MoveOne, Readable;
    var id := p.groups[g].id;
    if todo == [] {
      AppendKeeps(p, w, g, GroupCompleted(id));
      AppendInStep(w, GroupCompleted(id));
    } else {
      MoveOneBacks(p, g, w, todo[0], moved);
      var t := MoveOne(w, id, todo[0], moved);
      if t.signal == Fine {
        forall m | p.Has(g, m)
          ensures m in todo[1..] || KeyOf(id, m) in StateOf(t.world.lines).completedMembers
        {
          if m in todo && m != todo[0] { assert m in todo[1..]; }
        }
        MoveAllBacks(p, g, t.world, todo[1..], t.moved);
      }
    }
  }

  lemma UndoOneBacks(p: Plan, g: int, w: QuarantineWorld, m: Loser, failures: seq<Loser>)
    requires Good(p, w) && p.Has(g, m)
    requires InSync(w) ==> p.groups[g].id !in StateOf(w.lines).completedGroups
    ensures
      var u := UndoOne(w, p.groups[g].id, m, failures);
      Good(p, u.world) && (InSync(u.world) ==> p.groups[g].id !in StateOf(u.world.lines).completedGroups)
  {
    hide Good, StateOf, Append, RenameNoReplace, StateOfLoser, Readable, InSync, Check;
    var key := KeyOf(p.groups[g].id, m);
    CheckEvolves(Still, w, StateOfLoser(w.files, m) == Quarantined);
    var (w0, s0) := Check(w, StateOfLoser(w.files, m) == Quarantined);
    QuietStep(p, w, w0);
    AppendKeeps(p, w0, g, RollbackStarted(key));
    SyncedAppend(w0, RollbackStarted(key), p.groups[g].id);
    var (w1, s1) := Append(w0, RollbackStarted(key));
    if s0 == Fine && s1 == Fine {
      RenameIsClean(w1, m.quarantine, m.source);
      var w2 := RenameNoReplace(w1, m.quarantine, m.source).0;
      QuietStep(p, w1, w2);
      CheckEvolves(Still, w2, StateOfLoser(w2.files, m) == AtHome);
      var w3 := Check(w2, StateOfLoser(w2.files, m) == AtHome).0;
      QuietStep(p, w2, w3);
      AppendKeeps(p, w3, g, RollbackCompleted(key));
      SyncedAppend(w3, RollbackCompleted(key), p.groups[g].id);
    }
  }

  /** Lines about members do not complete groups. */
  lemma SyncedAppend(w: QuarantineWorld, event: Event, id: string)
    requires !event.GroupCompleted?
    ensures
      var next := Append(w, event).0;
      id !in StateOf(w.lines).completedGroups ==> id !in StateOf(next.lines).completedGroups
  {
    hide StateOf;
    StateOfAppend(w.lines, Line(|w.entries| + 1, event));
    StateOfAppend(w.lines, Broken);
  }

  lemma {:induction false} UndoAllBacks(p: Plan, g: int, w: QuarantineWorld, members: seq<Loser>, failures: seq<Loser>)
    requires Good(p, w) && 0 <= g < |p.groups|
    requires forall m :: m in members ==> p.Has(g, m)
    requires InSync(w) ==> p.groups[g].id !in StateOf(w.lines).completedGroups
    ensures Good(p, UndoAll(w, p.groups[g].id, members, failures).world)
    decreases |members|
  {
    hide Good, StateOf, UndoOne, InSync;
    if members != [] {
      var last := |members| - 1;
      UndoOneBacks(p, g, w, members[last], failures);
      var u := UndoOne(w, p.groups[g].id, members[last], failures);
      if !u.halted {
        UndoAllBacks(p, g, u.world, members[..last], u.failures);
      }
    }
  }

  lemma TryGroupBacks(p: Plan, g: int, w: QuarantineWorld, pending: seq<Loser>)
    requires Good(p, w) && InSync(w) && Readable(w.lines) && 0 <= g < |p.groups|
    requires forall m :: m in pending ==> p.Has(g, m)
    requires forall m :: p.Has(g, m) ==> m in pending || KeyOf(p.groups[g].id, m) in StateOf(w.lines).completedMembers
    requires p.groups[g].id !in StateOf(w.lines).completedGroups
    ensures
      var t := TryGroup(w, p.groups[g].id, pending);
      && Good(p, t.world)
      && (t.signal != Fine && InSync(t.world) ==> p.groups[g].id !in StateOf(t.world.lines).completedGroups)
      && (t.signal == Fine ==>
        && InSync(t.world) && Readable(t.world.lines)
        && StateOf(t.world.lines).runCompleted == StateOf(w.lines).runCompleted
        && StateOf(t.world.lines).completedGroups == StateOf(w.lines).completedGroups + {p.groups[g].id})
      && (forall m :: m in t.moved ==> m in pending)
  {
    hide Good, StateOf, MoveAll, Readable, StateOfLoser, Check;
    var ready := forall m | m in pending :: StateOfLoser(w.files, m) == AtHome;
    CheckEvolves(Still, w, ready);
    var (next, signal) := Check(w, ready);
    QuietStep(p, w, next);
    if signal == Fine { MoveAllBacks(p, g, next, pending, []); }
  }

  lemma RunGroupBacks(p: Plan, g: int, w: QuarantineWorld, moved: nat, recovered: nat)
    requires Good(p, w) && InSync(w) && Readable(w.lines) && 0 <= g < |p.groups|
    requires p.groups[g].id !in StateOf(w.lines).completedGroups
    ensures
      var r := RunGroup(w, p.groups[g], moved, recovered);
      && Good(p, r.world)
      && (r.End? ==> !r.outcome.Completed?)
      && (r.GoOn? ==>
        && InSync(r.world) && Readable(r.world.lines)
        && StateOf(r.world.lines).runCompleted == StateOf(w.lines).runCompleted
        && StateOf(r.world.lines).completedGroups == StateOf(w.lines).completedGroups + {p.groups[g].id})
  {
    hide Good, StateOf, Sort, TryGroup, UndoAll, Append, Readable, StateOfLoser;
    var group := p.groups[g];
    SortBacks(p, g, w, StateOf(w.entries), group.members, [], recovered);
    var sorting := Sort(w, group.id, StateOf(w.entries), group.members, [], recovered);
    if sorting.signal == Fine {
      AppendKeeps(p, sorting.world, g, GroupStarted(group.id));
      var (w1, s1) := Append(sorting.world, GroupStarted(group.id));
      if s1 == Fine {
        TryGroupBacks(p, g, w1, sorting.pending);
        var t := TryGroup(w1, group.id, sorting.pending);
        if t.signal == Raised {
          UndoAllBacks(p, g, t.world, t.moved, []);
          var u := UndoAll(t.world, group.id, t.moved, []);
          AppendKeeps(p, u.world, g, GroupFailed(group.id));
        }
      }
    }
  }

  /** The completion of the run is journaled only with every group completed. */
  lemma RunCompletedKeeps(p: Plan, w: QuarantineWorld)
    requires Good(p, w) && InSync(w) && Readable(w.lines) && GroupIds(p) <= StateOf(w.lines).completedGroups
    ensures
      var (next, signal) := Append(w, RunCompleted);
      && Good(p, next)
      && (signal == Fine ==> Readable(next.lines) && StateOf(next.lines) == StateOf(w.lines).(runCompleted := true))
  {
    hide R.AllKeys, StateOf, Readable, Trailing;
    AppendTrails(w, RunCompleted);
    StateOfAppend(w.lines, Line(|w.entries| + 1, RunCompleted));
  }

  lemma {:induction false} RunGroupsBack(p: Plan, w: QuarantineWorld, i: nat, done: set<string>, moved: nat,
                                         recovered: nat)
    requires Good(p, w) && InSync(w) && Readable(w.lines) && i <= |p.groups|
    requires done == StateOf(w.lines).completedGroups
    requires forall h :: 0 <= h < i ==> p.groups[h].id in done
    ensures
      var (next, outcome) := RunGroups(w, p, i, done, moved, recovered);
      && Good(p, next)
      && (outcome.Completed? ==> next.lines != [] && Readable(next.lines) && StateOf(next.lines).runCompleted)
    decreases |p.groups| - i
  {
    hide Good, StateOf, RunGroup, Readable, AllHold, GroupHolds, StateOfWinner, Check;
    if i == |p.groups| {
      CheckEvolves(Still, w, AllHold(w.files, p, false));
      var w1 := Check(w, AllHold(w.files, p, false)).0;
      QuietStep(p, w, w1);
      RunCompletedKeeps(p, w1);
    } else {
      var g := p.groups[i];
      var holds := if g.id in done then GroupHolds(w.files, g, false) else StateOfWinner(w.files, g.winner) == Organized;
      CheckEvolves(Still, w, holds);
      var (w1, s1) := Check(w, holds);
      QuietStep(p, w, w1);
      if s1 == Fine {
        if g.id in done {
          RunGroupsBack(p, w1, i + 1, done, moved, recovered);
        } else {
          RunGroupBacks(p, i, w1, moved, recovered);
          var r := RunGroup(w1, g, moved, recovered);
          if r.GoOn? {
            RunGroupsBack(p, r.world, i + 1, done + {g.id}, r.moved, r.recovered);
          }
        }
      }
    }
  }

  ghost predicate Trusted(p: Plan, d: Disk) {
    Readable(d.lines) ==> Backed(p, StateOf(d.lines))
  }

  /** Every run leaves a trusted journal; one that completes leaves a complete one. */
  lemma RunIsTrusted(p: Plan, d: Disk, resume: bool, faults: seq<Fault>)
    requires p.WellFormed() && Trusted(p, d)
    ensures
      var (next, outcome) := Execute(p, d, resume, faults);
      && Trusted(p, next.Durable())
      && (outcome.Completed? ==> R.RecordsCompletedRun(p, next.lines))
  {
    hide StateOf, RunGroups, AllHold, Backed, R.AllKeys, Begin, Readable;
    BeginBacks(p, d, resume, faults);
    var (w, signal) := Begin(p, d, resume, faults);
    if signal == Fine {
      if StateOf(w.entries).runCompleted {
        CompleteMeans(p, StateOf(w.lines));
      } else {
        RunGroupsBack(p, w, 0, StateOf(w.entries).completedGroups, 0, 0);
        var (next, outcome) := Execute(p, d, resume, faults);
        if outcome.Completed? { CompleteMeans(p, StateOf(next.lines)); }
      }
    }
  }

  lemma BeginBacks(p: Plan, d: Disk, resume: bool, faults: seq<Fault>)
    requires p.WellFormed() && Trusted(p, d)
    ensures
      var (w, signal) := Begin(p, d, resume, faults);
      && Trusted(p, w.Durable())
      && (signal == Fine ==> Good(p, w) && InSync(w) && Readable(w.lines) && w.lines != [])
  {
    hide StateOf, Backed, Readable, MayStart, Append;
    if !resume {
      var (next, signal) := Check(Launch(d, faults), !d.HasJournal() && MayStart(d.files, p));
      if signal == Fine { FirstLineBacked(p, next); }
    }
  }

  lemma FirstLineBacked(p: Plan, w: QuarantineWorld)
    requires w.lines == [] && w.entries == [] && p.WellFormed()
    ensures Good(p, Append(w, RunStarted).0)
    ensures Append(w, RunStarted).1 == Fine ==>
              InSync(Append(w, RunStarted).0) && Readable(Append(w, RunStarted).0.lines) && Append(w, RunStarted).0.lines != []
  {
    hide R.AllKeys, StateOf;
    StateOfNothing();
    StateOfAppend([], Line(1, RunStarted));
    StateOfAppend([], Broken);
  }

  lemma CompleteMeans(p: Plan, s: JournalState)
    requires Backed(p, s) && s.runCompleted
    ensures s.completedGroups == GroupIds(p) && s.completedMembers == R.AllKeys(p)
  {
    forall key | key in R.AllKeys(p)
      ensures key in s.completedMembers
    {
      var g, m :| 0 <= g < |p.groups| && m in p.groups[g].members && key == KeyOf(p.groups[g].id, m);
      assert p.Has(g, m) && p.groups[g].id in GroupIds(p);
    }
  }

  lemma {:induction false} CampaignIsTrusted(p: Plan, d: Disk, runs: seq<Run>)
    requires p.WellFormed() && Trusted(p, d)
    ensures Trusted(p, Campaign(p, d, runs))
    decreases |runs|
  {
    hide Execute, Trusted;
    if runs != [] {
      RunIsTrusted(p, d, runs[0].resume, runs[0].faults);
      CampaignIsTrusted(p, Execute(p, d, runs[0].resume, runs[0].faults).0.Durable(), runs[1..]);
    }
  }

  lemma {:induction false} CampaignLast(p: Plan, d: Disk, runs: seq<Run>, last: Run)
    ensures Campaign(p, d, runs + [last]) == Execute(p, Campaign(p, d, runs), last.resume, last.faults).0.Durable()
    decreases |runs|
  {
    hide Execute;
    if runs == [] {
      assert [] + [last] == [last] && [last][1..] == [];
    } else {
      assert (runs + [last])[0] == runs[0] && (runs + [last])[1..] == runs[1..] + [last];
      CampaignLast(p, Execute(p, d, runs[0].resume, runs[0].faults).0.Durable(), runs[1..], last);
    }
  }

  // ---------- line breaks ----------

  lemma {:induction false} RecordedKeyIsLine(lines: seq<Line>, key: Key)
    requires key in StateOf(lines).completedMembers
    ensures exists i :: 0 <= i < |lines| && lines[i].Line? && lines[i].event == MemberCompleted(key)
  {
    var last := |lines| - 1;
    if lines[last].Line? && lines[last].event == MemberCompleted(key) {
    } else {
      RecordedKeyIsLine(lines[..last], key);
      var i :| 0 <= i < last && lines[..last][i].Line? && lines[..last][i].event == MemberCompleted(key);
      assert lines[i].Line?;
    }
  }

  lemma {:induction false} RecordedGroupIsLine(lines: seq<Line>, id: string)
    requires id in StateOf(lines).completedGroups
    ensures exists i :: 0 <= i < |lines| && lines[i].Line? && lines[i].event == GroupCompleted(id)
  {
    var last := |lines| - 1;
    if lines[last].Line? && lines[last].event == GroupCompleted(id) {
    } else {
      RecordedGroupIsLine(lines[..last], id);
      var i :| 0 <= i < last && lines[..last][i].Line? && lines[..last][i].event == GroupCompleted(id);
      assert lines[i].Line?;
    }
  }

  /** The journal of a completed run names every group and every loser. */
  lemma CompletedNamesAll(p: Plan, lines: seq<Line>)
    requires R.RecordsCompletedRun(p, lines) && Printable(lines)
    ensures p.HasPlainNames()
  {
    hide StateOf, HasBreak, Readable;
    forall g | 0 <= g < |p.groups|
      ensures PlainNames(p.groups[g].id, p.groups[g].members)
    {
      assert p.groups[g].id in GroupIds(p);
      RecordedGroupIsLine(lines, p.groups[g].id);
      forall m | m in p.groups[g].members
        ensures !HasBreak(m.sourceKey)
      {
        assert p.Has(g, m);
        KeyIsKnown(p, g, m);
        RecordedKeyIsLine(lines, KeyOf(p.groups[g].id, m));
      }
    }
  }

  lemma PlainNamesAreEnough(p: Plan)
    requires p.KeysKeepBreaks()
    ensures p.IsPlain() <==> p.HasPlainNames()
  {
    hide HasBreak;
    if p.HasPlainNames() {
      forall g | 0 <= g < |p.groups|
        ensures PlainGroup(p.groups[g].id, p.groups[g].members)
      {
        assert PlainNames(p.groups[g].id, p.groups[g].members);
        forall m | m in p.groups[g].members ensures IsPlainLoser(m) { assert p.Has(g, m); }
      }
    } else {
      var g :| 0 <= g < |p.groups| && !PlainNames(p.groups[g].id, p.groups[g].members);
      assert !PlainGroup(p.groups[g].id, p.groups[g].members);
    }
  }

  ghost predicate MarkedDisk(d: Disk) {
    Marked(Launch(d, []))
  }

  ghost predicate UncutDisk(d: Disk) {
    Uncut(Launch(d, []))
  }

  predicate NoneCut(runs: seq<Run>) {
    forall i | 0 <= i < |runs| :: Cut !in runs[i].faults
  }

  lemma {:induction false} CampaignMarks(p: Plan, d: Disk, runs: seq<Run>)
    ensures
      var after := Campaign(p, d, runs);
      && (MarkedDisk(d) ==> MarkedDisk(after))
      && (UncutDisk(d) && NoneCut(runs) ==> UncutDisk(after))
      && (p.IsPlain() && Printable(d.lines) ==> Printable(after.lines))
    decreases |runs|
  {
    hide Execute, Printable, Plan.IsPlain;
    if runs != [] {
      QC.ExecuteEvolves(p.IsPlain(), p, d, runs[0].resume, runs[0].faults);
      CampaignMarks(p, Execute(p, d, runs[0].resume, runs[0].faults).0.Durable(), runs[1..]);
      assert NoneCut(runs) ==> Cut !in runs[0].faults && forall i :: 0 <= i < |runs[1..]| ==> runs[1..][i] == runs[i + 1];
    }
  }

  lemma NothingWritten(files: Files, directories: set<Location>)
    ensures MarkedDisk(Unjournaled(files, directories)) && UncutDisk(Unjournaled(files, directories))
    ensures Printable(Unjournaled(files, directories).lines)
  {
  }

  /** After any failures and stops, a quarantine run that reports completion leaves a
      journal from which restore will start, unless a line of it was written onto one that
      had lost its end or holds a line break. Where no line lost its end, that is exactly
      when the plan's ids and paths are free of line breaks. */
  lemma CompletedRunIsRestorable(p: Plan, start: Files, directories: set<Location>, runs: seq<Run>, last: Run)
    requires p.WellFormed()
    requires Execute(p, Campaign(p, Unjournaled(start, directories), runs), last.resume, last.faults).1.Completed?
    ensures
      var q := Campaign(p, Unjournaled(start, directories), runs + [last]);
      && (R.DescribesCompletedRun(p, q.Journal()) <==> q.shape != Garbled)
      && (q.shape != Garbled ==> p.HasPlainNames())
      && (p.KeysKeepBreaks() && NoneCut(runs + [last]) ==> (R.DescribesCompletedRun(p, q.Journal()) <==> p.IsPlain()))
  {
    hide Execute, R.RecordsCompletedRun, StateOf, Printable, Plan.IsPlain, Plan.HasPlainNames, NoneCut,
      Plan.KeysKeepBreaks;
    var first := Unjournaled(start, directories);
    StateOfNothing();
    CampaignIsTrusted(p, first, runs);
    RunIsTrusted(p, Campaign(p, first, runs), last.resume, last.faults);
    CampaignLast(p, first, runs, last);
    CampaignMarks(p, first, runs + [last]);
    NothingWritten(start, directories);
    var q := Campaign(p, first, runs + [last]);
    if Printable(q.lines) { CompletedNamesAll(p, q.lines); }
    if p.KeysKeepBreaks() { PlainNamesAreEnough(p); }
  }
}
