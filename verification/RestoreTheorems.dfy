/** Restoring undoes quarantine: however often it is stopped, one quiet resume finishes it,
    and the files are then exactly those from before the quarantine. */
module RestoreTheorems {
  import opened MediaStore
  import opened QuarantineModel
  import opened QuarantineInvariant
  import opened QuarantineRestore
  import opened JournalFacts
  import Q = QuarantineTheorems
  import QE = QuarantineExecution
  import J = QuarantineJournal
  import C = RestoreConservation
  import S = QuarantineResume
  import V = QuarantineRecovery
  import QC = QuarantineConservation

  /** Relative to the files before quarantine: everyone is at home or away, what is home
      again is announced, and what is recorded as restored is home. */
  ghost predicate Restoring(p: Plan, start: Files, files: Files, s: JournalState) {
    && Conserved(p, start, files)
    && (forall g, m :: p.Has(g, m) ==> !Gone(start, files, m))
    && (forall g, m :: p.Has(g, m) ==>
          var key := KeyOf(p.groups[g].id, m);
          && (Home(start, files, m) ==> key in s.startedMembers + s.completedMembers)
          && (key in s.completedMembers || p.groups[g].id in s.completedGroups || s.runCompleted ==> Home(start, files, m)))
  }

  ghost predicate Good(p: Plan, start: Files, w: QuarantineWorld) {
    Setting(p, start) && Restoring(p, start, w.files, StateOf(w.lines))
  }

  lemma LoserFacts(p: Plan, start: Files, files: Files, s: JournalState, g: int, m: Loser)
    requires Setting(p, start) && Restoring(p, start, files, s) && p.Has(g, m)
    ensures Home(start, files, m) <==> StateOfRestore(files, m) == Restored
    ensures Away(start, files, m) <==> StateOfRestore(files, m) == ToRestore
    ensures Home(start, files, m) || Away(start, files, m)
    ensures Home(start, files, m) ==> KeyOf(p.groups[g].id, m) in s.startedMembers + s.completedMembers
    ensures KeyOf(p.groups[g].id, m) in s.completedMembers || p.groups[g].id in s.completedGroups || s.runCompleted ==> Home(start, files, m)
  {
    assert Home(start, files, m) || Away(start, files, m) || Gone(start, files, m);
    assert StateOfLoser(start, m) == AtHome || StateOfLoser(start, m) == AlreadyAbsent;
  }

  lemma LineKeeps(p: Plan, start: Files, files: Files, s: JournalState, line: Line, g: int,
                  m: Loser)
    requires Setting(p, start) && Restoring(p, start, files, s) && p.Has(g, m) && line.Line?
    requires
      var key := KeyOf(p.groups[g].id, m);
      line.event == MemberStarted(key) || (line.event == MemberCompleted(key) && Home(start, files, m))
    ensures Restoring(p, start, files, Record(s, line))
  {
    hide Setting, Home, Away, Gone;
    forall h, n | p.Has(h, n) && (h != g || n != m)
      ensures KeyOf(p.groups[h].id, n) != KeyOf(p.groups[g].id, m)
    {
      if KeyOf(p.groups[h].id, n) == KeyOf(p.groups[g].id, m) { KeysIdentify(p, start, h, n, g, m); }
    }
  }

  lemma GroupLineKeeps(p: Plan, start: Files, files: Files, s: JournalState, line: Line)
    requires Setting(p, start) && Restoring(p, start, files, s)
    requires line.Line? ==>
      || line.event.GroupStarted? || line.event.GroupFailed?
      || (line.event.GroupCompleted? && forall g, m :: p.Has(g, m) && p.groups[g].id == line.event.group ==> Home(start, files, m))
      || (line.event.RunCompleted? && forall g, m :: p.Has(g, m) ==> Home(start, files, m))
    ensures Restoring(p, start, files, Record(s, line))
  {
    hide Setting, Home, Away, Gone;
  }

  lemma AppendAboutLoser(p: Plan, start: Files, w: QuarantineWorld, g: int, m: Loser, event: Event)
    requires Good(p, start, w) && p.Has(g, m)
    requires
      var key := KeyOf(p.groups[g].id, m);
      event == MemberStarted(key) || (event == MemberCompleted(key) && Home(start, w.files, m))
    ensures
      var (next, signal) := Append(w, event);
      && Good(p, start, next) && next.files == w.files && (signal == Fine && InSync(w) ==> InSync(next))
      && StateOf(next.lines).completedGroups == StateOf(w.lines).completedGroups
      && StateOf(next.lines).runCompleted == StateOf(w.lines).runCompleted
      && (signal == Fine ==> StateOf(next.lines) == Record(StateOf(w.lines), Line(|w.entries| + 1, event)))
  {
    hide Setting, Restoring, StateOf, Home;
    var line := Line(|w.entries| + 1, event);
    StateOfAppend(w.lines, line);
    StateOfAppend(w.lines, Broken);
    LineKeeps(p, start, w.files, StateOf(w.lines), line, g, m);
  }

  lemma AppendAboutGroup(p: Plan, start: Files, w: QuarantineWorld, event: Event)
    requires Good(p, start, w)
    requires
      || event.GroupStarted? || event.GroupFailed?
      || (event.GroupCompleted? && forall g, m :: p.Has(g, m) && p.groups[g].id == event.group ==> Home(start, w.files, m))
      || (event.RunCompleted? && forall g, m :: p.Has(g, m) ==> Home(start, w.files, m))
    ensures
      var (next, signal) := Append(w, event);
      && Good(p, start, next) && next.files == w.files && (signal == Fine && InSync(w) ==> InSync(next))
      && (signal == Fine ==> StateOf(next.lines) == Record(StateOf(w.lines), Line(|w.entries| + 1, event)))
  {
    hide Setting, Restoring, StateOf, Home;
    var line := Line(|w.entries| + 1, event);
    StateOfAppend(w.lines, line);
    StateOfAppend(w.lines, Broken);
    GroupLineKeeps(p, start, w.files, StateOf(w.lines), line);
    GroupLineKeeps(p, start, w.files, StateOf(w.lines), Broken);
  }

  lemma ReturnKeeps(p: Plan, start: Files, files: Files, s: JournalState, g: int, m: Loser)
    requires Setting(p, start) && Restoring(p, start, files, s) && p.Has(g, m)
    requires Away(start, files, m) && KeyOf(p.groups[g].id, m) in s.startedMembers
    ensures
      var after := Relocate(files, m.quarantine, m.source);
      Restoring(p, start, after, s) && Home(start, after, m)
  {
    hide Setting, Home, Away, Relocate;
    MembersApart(p, start, g, m);
    HomeNow(start, files, m);
    HomeIsNotAway(start, Relocate(files, m.quarantine, m.source), m);
    OthersStay(p, start, files, g, m, Relocate(files, m.quarantine, m.source));
  }

  lemma RenameKeeps(p: Plan, start: Files, files: Files, s: JournalState, g: int, m: Loser)
    requires Setting(p, start) && Restoring(p, start, files, s) && p.Has(g, m)
    requires Away(start, files, m) && KeyOf(p.groups[g].id, m) in s.startedMembers
    ensures
      var after := Relocate(files, m.quarantine, m.source);
      && Restoring(p, start, after, s) && Home(start, after, m)
      && (forall h, n :: p.Has(h, n) && (h != g || n != m) ==> StateOfRestore(after, n) == StateOfRestore(files, n))
  {
    hide Setting, Restoring, Home, Away, StateOfRestore;
    AwayCanReturn(start, files, m);
    var after := Relocate(files, m.quarantine, m.source);
    ReturnKeeps(p, start, files, s, g, m);
    OthersStay(p, start, files, g, m, after);
    forall h, n | p.Has(h, n) && (h != g || n != m)
      ensures StateOfRestore(after, n) == StateOfRestore(files, n)
    {
      LoserFacts(p, start, files, s, h, n);
      LoserFacts(p, start, after, s, h, n);
    }
  }

  lemma CheckKeeps(p: Plan, start: Files, w: QuarantineWorld, holds: bool)
    requires Good(p, start, w)
    ensures
      var (next, signal) := Check(w, holds);
      && Good(p, start, next) && next == w.(faults := LaterFaults(w.faults))
      && (signal == Fine ==> holds) && (w.faults == [] ==> next == w && (signal == Fine <==> holds))
  {
    hide Setting, Restoring, StateOf;
    CheckEvolves(Still, w, holds);
  }

  lemma {:induction false} SortKeeps(p: Plan, start: Files, g: int, w: QuarantineWorld, state: JournalState, todo: seq<Loser>,
                                     pending: seq<Loser>, recovered: nat)
    requires Good(p, start, w) && InSync(w) && 0 <= g < |p.groups| && forall m :: m in todo ==> p.Has(g, m)
    requires state.startedMembers + state.completedMembers == StateOf(w.lines).startedMembers + StateOf(w.lines).completedMembers
    requires state.completedMembers <= StateOf(w.lines).completedMembers
    requires forall m :: m in pending ==> p.Has(g, m) && StateOfRestore(w.files, m) == ToRestore
    ensures
      var r := Sort(w, p.groups[g].id, state, todo, pending, recovered);
      && Good(p, start, r.world) && r.world.files == w.files
      && StateOf(r.world.lines).completedGroups == StateOf(w.lines).completedGroups
      && StateOf(r.world.lines).runCompleted == StateOf(w.lines).runCompleted
      && (forall m :: m in r.pending ==> p.Has(g, m) && StateOfRestore(w.files, m) == ToRestore)
      && (r.signal == Fine ==>
        && InSync(r.world)
        && forall m :: m in pending || (m in todo && StateOfRestore(w.files, m) == ToRestore) ==> m in r.pending)
      && (w.faults == [] ==> r.signal == Fine && r.world.faults == [] && (Readable(w.lines) ==> Readable(r.world.lines)))
      && (r.signal == Fine && Distinct(pending + todo) ==> Distinct(r.pending))
    decreases |todo|
  {
    hide Setting, Restoring, StateOf, StateOfRestore, Home, Distinct, Append, Check, Readable;
    if todo == [] {
      assert pending + todo == pending;
    } else {
      var last := |todo| - 1;
      var m := todo[last];
      var id := p.groups[g].id;
      var key := KeyOf(id, m);
      assert p.Has(g, m) && todo == todo[..last] + [m];
      LoserFacts(p, start, w.files, StateOf(w.lines), g, m);
      DistinctParts(pending, todo);
      var now := StateOfRestore(w.files, m);
      CheckKeeps(p, start, w, now != Unknown);
      var (w1, s1) := Check(w, now != Unknown);
      if s1 == Fine {
        if key in state.completedMembers {
          SortKeeps(p, start, g, w1, state, todo[..last], pending, recovered);
        } else if key in state.startedMembers && now == Restored {
          AppendAboutLoser(p, start, w1, g, m, MemberCompleted(key));
          AppendQuietly(w1, MemberCompleted(key));
          var (next, signal) := Append(w1, MemberCompleted(key));
          if signal == Fine {
            SortKeeps(p, start, g, next, state, todo[..last], pending, recovered + 1);
          }
        } else if now == ToRestore {
          SortKeeps(p, start, g, w1, state, todo[..last], pending + [m], recovered);
        }
      }
    }
  }

  ghost predicate Distinct(s: seq<Loser>) {
    forall i, j :: 0 <= i < j < |s| ==> s[i] != s[j]
  }

  lemma DistinctParts(pending: seq<Loser>, todo: seq<Loser>)
    requires todo != []
    ensures
      var last := |todo| - 1;
      Distinct(pending + todo) ==> Distinct(pending + todo[..last]) && Distinct(pending + [todo[last]] + todo[..last])
  {
    if Distinct(pending + todo) {
      var s := pending + todo;
      var n := |pending|;
      var last := |todo| - 1;
      assert s[..|s| - 1] == pending + todo[..last];
      var t := pending + [todo[last]] + todo[..last];
      forall i, j | 0 <= i < j < |t|
        ensures t[i] != t[j]
      {
        var i' := if i < n then i else if i == n then |s| - 1 else i - 1;
        var j' := if j < n then j else if j == n then |s| - 1 else j - 1;
        assert t[i] == s[i'] && t[j] == s[j'] && i' != j';
      }
    }
  }

  /** The rename back, acknowledged or not. */
  lemma ReturnStepKeeps(p: Plan, start: Files, g: int, w: QuarantineWorld, m: Loser)
    requires Good(p, start, w) && p.Has(g, m) && StateOfRestore(w.files, m) == ToRestore
    requires KeyOf(p.groups[g].id, m) in StateOf(w.lines).startedMembers
    ensures
      var (next, signal) := RenameNoReplace(w, m.quarantine, m.source);
      && Good(p, start, next) && next.lines == w.lines && next.entries == w.entries
      && (signal == Fine ==> Home(start, next.files, m) && StateOfRestore(next.files, m) == Restored)
      && (forall n :: p.Has(g, n) && n != m ==> StateOfRestore(next.files, n) == StateOfRestore(w.files, n))
      && (w.faults == [] ==> signal == Fine && next.faults == [])
  {
    hide Setting, Restoring, StateOf, StateOfRestore, Home, Away;
    LoserFacts(p, start, w.files, StateOf(w.lines), g, m);
    AwayCanReturn(start, w.files, m);
    RenameKeeps(p, start, w.files, StateOf(w.lines), g, m);
    var next := RenameNoReplace(w, m.quarantine, m.source).0;
    LoserFacts(p, start, next.files, StateOf(next.lines), g, m);
  }

  lemma RestoreOneKeeps(p: Plan, start: Files, g: int, w: QuarantineWorld, m: Loser, restored: nat)
    requires Good(p, start, w) && p.Has(g, m)
    ensures
      var t := RestoreOne(w, p.groups[g].id, m, restored);
      && Good(p, start, t.world)
      && StateOf(t.world.lines).completedGroups == StateOf(w.lines).completedGroups
      && StateOf(t.world.lines).runCompleted == StateOf(w.lines).runCompleted
      && (forall n :: p.Has(g, n) && n != m ==> StateOfRestore(t.world.files, n) == StateOfRestore(w.files, n))
      && (t.signal == Fine ==> StateOfRestore(t.world.files, m) == Restored && (InSync(w) ==> InSync(t.world)))
      && (InSync(w) && w.faults == [] && StateOfRestore(w.files, m) == ToRestore ==>
          t.signal == Fine && t.world.faults == [] && (Readable(w.lines) ==> Readable(t.world.lines)))
  {
    hide Setting, Restoring, StateOf, StateOfRestore, Home, Away, Append, Check, RenameNoReplace, Readable;
    var key := KeyOf(p.groups[g].id, m);
    CheckKeeps(p, start, w, StateOfRestore(w.files, m) == ToRestore);
    var (w0, s0) := Check(w, StateOfRestore(w.files, m) == ToRestore);
    if s0 == Fine {
      AppendAboutLoser(p, start, w0, g, m, MemberStarted(key));
      if InSync(w) { AppendQuietly(w0, MemberStarted(key)); }
      var (w1, s1) := Append(w0, MemberStarted(key));
      if s1 == Fine {
        ReturnStepKeeps(p, start, g, w1, m);
        var (w2, s2) := RenameNoReplace(w1, m.quarantine, m.source);
        if s2 == Fine {
          CheckKeeps(p, start, w2, StateOfRestore(w2.files, m) == Restored);
          var (w3, s3) := Check(w2, StateOfRestore(w2.files, m) == Restored);
          if s3 == Fine {
            AppendAboutLoser(p, start, w3, g, m, MemberCompleted(key));
            if InSync(w) { AppendQuietly(w3, MemberCompleted(key)); }
          }
        }
      }
    }
  }

  lemma AwayCanReturn(start: Files, files: Files, m: Loser)
    ensures Away(start, files, m) ==> m.quarantine in files && m.source !in files
  {
  }

  lemma {:induction false} RestoreAllKeeps(p: Plan, start: Files, g: int, w: QuarantineWorld, todo: seq<Loser>,
                                           restored: nat)
    requires Good(p, start, w) && 0 <= g < |p.groups|
    requires forall m :: m in todo ==> p.Has(g, m)
    requires forall m :: p.Has(g, m) ==> m in todo || StateOfRestore(w.files, m) == Restored
    ensures
      var t := RestoreAll(w, p.groups[g].id, todo, restored);
      && Good(p, start, t.world)
      && StateOf(t.world.lines).runCompleted == StateOf(w.lines).runCompleted
      && (t.signal == Fine ==>
        && (InSync(w) ==> InSync(t.world))
        && StateOf(t.world.lines).completedGroups == StateOf(w.lines).completedGroups + {p.groups[g].id})
      && (InSync(w) && w.faults == [] && Distinct(todo) && (forall m :: m in todo ==> StateOfRestore(w.files, m) == ToRestore) ==>
          t.signal == Fine && t.world.faults == [] && (Readable(w.lines) ==> Readable(t.world.lines)))
    decreases |todo|
  {
    hide Setting, Restoring, StateOf, StateOfRestore, RestoreOne, Home, Append, Readable;
    var id := p.groups[g].id;
    if todo == [] {
      if InSync(w) { AppendQuietly(w, GroupCompleted(id)); }
      forall h, m | p.Has(h, m) && p.groups[h].id == id
        ensures Home(start, w.files, m)
      {
        IdsIdentify(p, start, g, h);
        LoserFacts(p, start, w.files, StateOf(w.lines), g, m);
      }
      AppendAboutGroup(p, start, w, GroupCompleted(id));
      RunCompletedOnly(w, GroupCompleted(id));
    } else {
      var m := todo[0];
      RestoreOneKeeps(p, start, g, w, m, restored);
      var t := RestoreOne(w, id, m, restored);
      if t.signal == Fine {
        forall n | p.Has(g, n)
          ensures n in todo[1..] || StateOfRestore(t.world.files, n) == Restored
        {
          if n != m && n in todo { assert n in todo[1..]; }
        }
        if Distinct(todo) {
          forall n | n in todo[1..] ensures n != m && n in todo { var k :| 0 <= k < |todo[1..]| && todo[1..][k] == n; assert todo[k + 1] == n; }
        }
        RestoreAllKeeps(p, start, g, t.world, todo[1..], t.restored);
      }
    }
  }

  lemma IdsIdentify(p: Plan, start: Files, g: int, h: int)
    requires Setting(p, start) && 0 <= g < |p.groups| && 0 <= h < |p.groups| && p.groups[g].id == p.groups[h].id
    ensures g == h
  {
  }

  lemma RunCompletedOnly(w: QuarantineWorld, event: Event)
    requires !event.RunCompleted?
    ensures StateOf(Append(w, event).0.lines).runCompleted == StateOf(w.lines).runCompleted
  {
    hide StateOf;
    StateOfAppend(w.lines, Line(|w.entries| + 1, event));
    StateOfAppend(w.lines, Broken);
  }

  lemma MembersDistinct(p: Plan, start: Files, g: int)
    requires Setting(p, start) && 0 <= g < |p.groups|
    ensures Distinct([] + p.groups[g].members)
  {
    assert [] + p.groups[g].members == p.groups[g].members;
  }

  lemma RunGroupKeeps(p: Plan, start: Files, g: int, w: QuarantineWorld, restored: nat, recovered: nat)
    requires Good(p, start, w) && InSync(w) && 0 <= g < |p.groups|
    ensures
      var r := RunGroup(w, p.groups[g], restored, recovered);
      && Good(p, start, r.world) && StateOf(r.world.lines).runCompleted == StateOf(w.lines).runCompleted
      && (r.GoOn? ==> InSync(r.world) && StateOf(r.world.lines).completedGroups == StateOf(w.lines).completedGroups + {p.groups[g].id})
      && (r.End? ==> !r.outcome.Completed?)
      && (w.faults == [] ==> r.GoOn? && r.world.faults == [] && (Readable(w.lines) ==> Readable(r.world.lines)))
  {
    hide Setting, Restoring, StateOf, StateOfRestore, Sort, RestoreAll, Append, Home, Distinct, Readable;
    var group := p.groups[g];
    MembersDistinct(p, start, g);
    SortKeeps(p, start, g, w, StateOf(w.entries), group.members, [], recovered);
    var sorting := Sort(w, group.id, StateOf(w.entries), group.members, [], recovered);
    if sorting.signal == Fine {
      AppendAboutGroup(p, start, sorting.world, GroupStarted(group.id));
      RunCompletedOnly(sorting.world, GroupStarted(group.id));
      AppendQuietly(sorting.world, GroupStarted(group.id));
      var (w1, s1) := Append(sorting.world, GroupStarted(group.id));
      if s1 == Fine {
        forall m | p.Has(g, m)
          ensures m in sorting.pending || StateOfRestore(w1.files, m) == Restored
        {
          LoserFacts(p, start, w1.files, StateOf(w1.lines), g, m);
        }
        RestoreAllKeeps(p, start, g, w1, sorting.pending, restored);
        var t := RestoreAll(w1, group.id, sorting.pending, restored);
        if t.signal == Raised {
          AppendAboutGroup(p, start, t.world, GroupFailed(group.id));
          RunCompletedOnly(t.world, GroupFailed(group.id));
        }
      }
    }
  }

  lemma AppendQuietly(w: QuarantineWorld, event: Event)
    requires InSync(w)
    ensures
      var (next, signal) := Append(w, event);
      w.faults == [] ==> signal == Fine && next.faults == [] && (Readable(w.lines) ==> Readable(next.lines))
  {
    hide Breaks;
  }

  lemma {:induction false} RunGroupsKeep(p: Plan, start: Files, w: QuarantineWorld, i: nat, done: set<string>,
                                         restored: nat, recovered: nat)
    requires Good(p, start, w) && InSync(w) && i <= |p.groups| && !StateOf(w.lines).runCompleted
    requires done == StateOf(w.lines).completedGroups
    requires forall g :: i <= g < |p.groups| ==> p.groups[g].id in done
    ensures
      var (next, outcome) := RunGroups(w, p, i, done, restored, recovered);
      && Good(p, start, next)
      && (outcome.Completed? ==> forall g, m :: p.Has(g, m) ==> Home(start, next.files, m))
      && (w.faults == [] ==> outcome.Completed?)
    decreases i
  {
    hide Setting, Restoring, StateOf, StateOfRestore, RunGroup, Home, Readable, Append, Check;
    forall g, m | p.Has(g, m) && p.groups[g].id in done
      ensures StateOfRestore(w.files, m) == Restored && Home(start, w.files, m)
    {
      LoserFacts(p, start, w.files, StateOf(w.lines), g, m);
    }
    if i == 0 {
      CheckKeeps(p, start, w, AllAre(w.files, p, Restored));
      var w1 := Check(w, AllAre(w.files, p, Restored)).0;
      AppendAboutGroup(p, start, w1, RunCompleted);
      AppendQuietly(w1, RunCompleted);
    } else {
      var g := p.groups[i - 1];
      if g.id in done {
        forall m | m in g.members ensures StateOfRestore(w.files, m) == Restored { assert p.Has(i - 1, m); }
        CheckKeeps(p, start, w, forall m | m in g.members :: StateOfRestore(w.files, m) == Restored);
        var (w1, s1) := Check(w, forall m | m in g.members :: StateOfRestore(w.files, m) == Restored);
        if s1 == Fine { RunGroupsKeep(p, start, w1, i - 1, done, restored, recovered); }
      } else {
        RunGroupKeeps(p, start, i - 1, w, restored, recovered);
        var r := RunGroup(w, g, restored, recovered);
        if r.GoOn? {
          RunGroupsKeep(p, start, r.world, i - 1, done + {g.id}, r.restored, r.recovered);
        }
      }
    }
  }

  // ---------- whole runs ----------

  /** The disks that restore runs can leave behind, from files that are all away. */
  ghost predicate Lawful(p: Plan, start: Files, away: Files, d: Disk) {
    if d.lines == [] then d.files == away
    else Restoring(p, start, d.files, StateOf(d.lines))
  }

  /** A completed quarantine of `start`, as the quarantine theorems establish it. */
  ghost predicate FullyAway(p: Plan, start: Files, away: Files) {
    && Setting(p, start) && Conserved(p, start, away)
    && forall g, m :: p.Has(g, m) ==> Away(start, away, m)
  }

  lemma FirstLine(p: Plan, start: Files, away: Files, line: Line)
    requires FullyAway(p, start, away) && (line == Line(1, RunStarted) || line == Broken)
    ensures Restoring(p, start, away, StateOf([line])) && StateOf([line]) == JournalState({}, {}, {}, false)
    ensures AllAre(away, p, ToRestore)
  {
    hide Setting, StateOf;
    StateOfNothing();
    StateOfAppend([], line);
    assert [] + [line] == [line];
    forall g, m | 0 <= g < |p.groups| && m in p.groups[g].members
      ensures StateOfRestore(away, m) == ToRestore
    {
      assert p.Has(g, m);
      StartedAtHome(p, start, g, m);
    }
  }

  lemma StartedAtHome(p: Plan, start: Files, g: int, m: Loser)
    requires Setting(p, start) && p.Has(g, m)
    ensures m.source in start ==> Matches(start[m.source], m.fingerprint) && m.quarantine !in start
  {
    assert StateOfLoser(start, m) == AtHome || StateOfLoser(start, m) == AlreadyAbsent;
  }

  lemma BeginKeeps(p: Plan, start: Files, away: Files, approved: JournalFile, d: Disk, resume: bool, faults: seq<Fault>)
    requires FullyAway(p, start, away) && Lawful(p, start, away, d)
    ensures
      var (w, signal) := Begin(p, approved, d, resume, faults);
      && Lawful(p, start, away, w.Durable())
      && (signal == Fine ==> Good(p, start, w) && InSync(w) && w.lines != [])
      && (faults == [] && resume == (d.lines != []) && !d.HasUnusableJournal() && DescribesCompletedRun(p, approved) ==>
          signal == Fine && w.faults == [])
  {
    hide Restoring, Setting, StateOf, DescribesCompletedRun, Conserved, Readable, AllAre, Away, Breaks, Printable;
    FirstLine(p, start, away, Line(1, RunStarted));
    FirstLine(p, start, away, Broken);
    var first: Line := Line(1, RunStarted);
    var torn: Line := Broken;
    assert [] + [first] == [first] && [] + [torn] == [torn];
  }

  lemma RunIsLawful(p: Plan, start: Files, away: Files, approved: JournalFile, d: Disk,
                    resume: bool, faults: seq<Fault>)
    requires FullyAway(p, start, away) && Lawful(p, start, away, d)
    ensures
      var (next, outcome) := Execute(p, approved, d, resume, faults);
      && Lawful(p, start, away, next.Durable())
      && (outcome.Completed? ==> forall g, m :: p.Has(g, m) ==> Home(start, next.files, m))
      && (faults == [] && resume == (d.lines != []) && !d.HasUnusableJournal() && DescribesCompletedRun(p, approved) ==>
          outcome.Completed?)
  {
    hide Restoring, Setting, StateOf, Home, Away, RunGroups, StateOfRestore, DescribesCompletedRun, Conserved, Begin,
      Disk.HasUnusableJournal, Printable;
    BeginKeeps(p, start, away, approved, d, resume, faults);
    var (w, signal) := Begin(p, approved, d, resume, faults);
    if signal == Fine {
      if StateOf(w.entries).runCompleted {
        forall g, m | 0 <= g < |p.groups| && m in p.groups[g].members
          ensures Home(start, w.files, m) && StateOfRestore(w.files, m) == Restored
        {
          assert p.Has(g, m);
          LoserFacts(p, start, w.files, StateOf(w.lines), g, m);
        }
      } else {
        RunGroupsKeep(p, start, w, |p.groups|, StateOf(w.entries).completedGroups, 0, 0);
        C.TermsPermit(p, false);
        C.RunGroupsEvolve(TermsOf(p, false), w, p, |p.groups|, StateOf(w.entries).completedGroups, 0, 0);
      }
    }
  }

  lemma {:induction false} CampaignIsLawful(p: Plan, start: Files, away: Files, approved: JournalFile,
                                            d: Disk, runs: seq<Run>)
    requires FullyAway(p, start, away) && Lawful(p, start, away, d)
    ensures Lawful(p, start, away, Campaign(p, approved, d, runs))
    decreases |runs|
  {
    hide Execute, Lawful, FullyAway;
    if runs != [] {
      RunIsLawful(p, start, away, approved, d, runs[0].resume, runs[0].faults);
      CampaignIsLawful(p, start, away, approved, Execute(p, approved, d, runs[0].resume, runs[0].faults).0.Durable(), runs[1..]);
    }
  }

  /** With every loser home again, the files are those from before the quarantine. */
  lemma AllHomeIsStart(p: Plan, start: Files, files: Files)
    requires Setting(p, start) && Conserved(p, start, files)
    requires forall g, m :: p.Has(g, m) ==> Home(start, files, m)
    ensures files == start
  {
    forall at: Location
      ensures (at in files <==> at in start) && (at in start ==> files[at] == start[at])
    {
      if !Bystander(p, at) {
        var g, m :| p.Has(g, m) && (at == m.source || at == m.quarantine);
        StartedAtHome(p, start, g, m);
        assert Home(start, files, m);
      }
    }
    assert files.Keys == start.Keys;
  }

  /** Every failed append left nothing behind: the journal stays usable. */
  predicate Orderly(runs: seq<Run>) {
    forall i | 0 <= i < |runs| :: IsOrderly(runs[i].faults)
  }

  predicate IsOrderly(faults: seq<Fault>) {
    Unacknowledged !in faults && Cut !in faults && Tear !in faults && Bare !in faults
  }

  /** A completed quarantine is undone by restore, however often restore is stopped or
      fails: one quiet run finishes it exactly when the restore journal can be read and is
      not an existing empty file, and the files are then those from before the quarantine. */
  lemma RestoreUndoesQuarantine(p: Plan, start: Files, directories: set<Location>, quarantineRuns: seq<Run>,
                                restoreRuns: seq<Run>)
    requires Q.Sound(p)
    requires
      var q := QE.Campaign(p, Unjournaled(start, directories), quarantineRuns);
      DescribesCompletedRun(p, q.Journal())
    ensures
      var q := QE.Campaign(p, Unjournaled(start, directories), quarantineRuns);
      var d := Campaign(p, q.Journal(), Unjournaled(q.files, q.directories), restoreRuns);
      var (next, outcome) := Execute(p, q.Journal(), d, d.lines != [], []);
      (outcome.Completed? <==> d.IsReadable() && !d.HasEmptyJournal()) && (outcome.Completed? ==> next.files == start)
  {
    hide Q.Sound, Plan.WellFormed, Plan.RootsApart, Plan.WinnersApart, Execute, QE.Campaign, StateOf, Conserved,
      Home, Away, Restoring, MayStart, Campaign, Readable;
    var q := QE.Campaign(p, Unjournaled(start, directories), quarantineRuns);
    CompletedIsFullyAway(p, start, directories, quarantineRuns);
    var first := Unjournaled(q.files, q.directories);
    var d := Campaign(p, q.Journal(), first, restoreRuns);
    CampaignIsLawful(p, start, q.files, q.Journal(), first, restoreRuns);
    RunIsLawful(p, start, q.files, q.Journal(), d, d.lines != [], []);
    var (next, outcome) := Execute(p, q.Journal(), d, d.lines != [], []);
    if d.HasUnusableJournal() {
      UnusableJournalIsFinal(p, q.Journal(), d, [], d.lines != [], []);
    }
    if outcome.Completed? {
      ConservedAfter(p, start, q.files, next);
      AllHomeIsStart(p, start, next.files);
    }
  }

  /** An existing empty restore journal, and one that cannot be read, are for good: no
      restore run changes anything any more. */
  lemma {:induction false} UnusableJournalIsFinal(p: Plan, approved: JournalFile, d: Disk,
                                                  runs: seq<Run>, resume: bool, faults: seq<Fault>)
    requires d.HasUnusableJournal()
    ensures Campaign(p, approved, d, runs) == d
    ensures Execute(p, approved, d, resume, faults).1.Declined() && Execute(p, approved, d, resume, faults).0.Durable() == d
    decreases |runs|
  {
    hide Execute, Disk.HasUnusableJournal;
    UnusableJournalDeclines(p, approved, d, resume, faults);
    if runs != [] {
      UnusableJournalIsFinal(p, approved, d, runs[1..], runs[0].resume, runs[0].faults);
    }
  }

  lemma UnusableJournalDeclines(p: Plan, approved: JournalFile, d: Disk, resume: bool, faults: seq<Fault>)
    requires d.HasUnusableJournal()
    ensures Execute(p, approved, d, resume, faults).1.Declined() && Execute(p, approved, d, resume, faults).0.Durable() == d
  {
    hide RunGroups, Disk.IsReadable, Disk.HasUnusableJournal, DescribesCompletedRun, AllAre;
    UnusableIsInTheWay(d);
  }

  /** The first line of any restore can spoil its journal, and then the quarantined files
      stay where they are. */
  lemma FirstLineCanSpoil(p: Plan, approved: JournalFile, away: Files, directories: set<Location>,
                          fault: Fault, runs: seq<Run>, again: Run)
    requires DescribesCompletedRun(p, approved) && AllAre(away, p, ToRestore) && (fault == Bare || fault == Tear)
    ensures
      var d := Campaign(p, approved, Unjournaled(away, directories), [Run(false, [Proceed, Proceed, fault])] + runs);
      && d.files == away && d.HasUnusableJournal() && (fault == Bare ==> d.HasEmptyJournal())
      && Execute(p, approved, d, again.resume, again.faults).1.Declined()
  {
    hide AllAre, DescribesCompletedRun, Readable, RunGroups;
    var run := Run(false, [Proceed, Proceed, fault]);
    FirstLineSpoils(p, approved, away, directories, fault);
    var d := Execute(p, approved, Unjournaled(away, directories), false, run.faults).0.Durable();
    UnusableJournalIsFinal(p, approved, d, runs, again.resume, again.faults);
    assert ([run] + runs)[0] == run && ([run] + runs)[1..] == runs;
  }

  lemma FirstLineSpoils(p: Plan, approved: JournalFile, away: Files, directories: set<Location>, fault: Fault)
    requires DescribesCompletedRun(p, approved) && AllAre(away, p, ToRestore) && (fault == Bare || fault == Tear)
    ensures Execute(p, approved, Unjournaled(away, directories), false, [Proceed, Proceed, fault]).0.Durable()
            == Disk(away, if fault == Bare then [] else [Broken], Ended, directories)
    ensures !Readable([Broken])
  {
    hide AllAre, DescribesCompletedRun, Readable, RunGroups;
    var torn: seq<Line> := [Broken];
    assert Unjournaled(away, directories).lines + torn == torn;
    assert [Proceed, Proceed, fault][1..] == [Proceed, fault] && [Proceed, fault][1..] == [fault];
    Q.BrokenIsUnreadable();
  }

  lemma ConservedAfter(p: Plan, start: Files, away: Files, w: QuarantineWorld)
    requires FullyAway(p, start, away) && Lawful(p, start, away, w.Durable())
    ensures Conserved(p, start, w.files)
  {
  }

  lemma CompletedIsFullyAway(p: Plan, start: Files, directories: set<Location>, runs: seq<Run>)
    requires Q.Sound(p) && DescribesCompletedRun(p, QE.Campaign(p, Unjournaled(start, directories), runs).Journal())
    ensures FullyAway(p, start, QE.Campaign(p, Unjournaled(start, directories), runs).files)
  {
    hide Invariant, Plan.WellFormed, Plan.RootsApart, Plan.WinnersApart, StateOf, Away, Home, Gone;
    Q.CampaignIsLawful(p, start, Unjournaled(start, directories), runs);
    Q.CampaignIsSafe(p, start, directories, runs);
  }

  /** While failed appends leave nothing behind, the restore journal stays usable. */
  lemma {:induction false} OrderlyStaysWhole(p: Plan, approved: JournalFile, d: Disk,
                                             runs: seq<Run>)
    requires d.IsWhole() && !d.HasEmptyJournal() && Orderly(runs)
    ensures Campaign(p, approved, d, runs).IsWhole() && !Campaign(p, approved, d, runs).HasEmptyJournal()
    decreases |runs|
  {
    hide Execute, Readable;
    if runs != [] {
      RunStaysWhole(p, approved, d, runs[0].resume, runs[0].faults);
      OrderlyStaysWhole(p, approved, Execute(p, approved, d, runs[0].resume, runs[0].faults).0.Durable(), runs[1..]);
    }
  }

  ghost predicate Tidy(w: QuarantineWorld) {
    w.entries == w.lines && w.IsWhole() && (w.shape != NoFile ==> w.lines != []) && IsOrderly(w.faults)
  }

  lemma TidyAppend(w: QuarantineWorld, event: Event)
    requires Tidy(w)
    ensures Tidy(Append(w, event).0)
  {
    hide Readable, Printable, Breaks;
    AppendIsClean(w, event);
    LaterFaultsAre(w.faults);
  }

  lemma TidyRename(w: QuarantineWorld, from: Location, to: Location)
    requires Tidy(w)
    ensures Tidy(RenameNoReplace(w, from, to).0)
  {
    hide Readable, Printable;
    LaterFaultsAre(w.faults);
  }

  lemma TidyCheck(w: QuarantineWorld, holds: bool)
    requires Tidy(w)
    ensures Tidy(Check(w, holds).0)
  {
    hide Readable, Printable;
    LaterFaultsAre(w.faults);
  }

  lemma {:induction false} TidySort(w: QuarantineWorld, group: string, state: JournalState,
                                    todo: seq<Loser>, pending: seq<Loser>, recovered: nat)
    requires Tidy(w)
    ensures Tidy(Sort(w, group, state, todo, pending, recovered).world)
    decreases |todo|
  {
    hide StateOfRestore, Append, Tidy, Check;
    if todo != [] {
      var last := |todo| - 1;
      var key := KeyOf(group, todo[last]);
      TidyCheck(w, StateOfRestore(w.files, todo[last]) != Unknown);
      var w1 := Check(w, StateOfRestore(w.files, todo[last]) != Unknown).0;
      TidyAppend(w1, MemberCompleted(key));
      TidySort(w1, group, state, todo[..last], pending, recovered);
      TidySort(w1, group, state, todo[..last], pending + [todo[last]], recovered);
      TidySort(Append(w1, MemberCompleted(key)).0, group, state, todo[..last], pending, recovered + 1);
    }
  }

  lemma TidyRestoreOne(w: QuarantineWorld, group: string, m: Loser, restored: nat)
    requires Tidy(w)
    ensures Tidy(RestoreOne(w, group, m, restored).world)
  {
    hide StateOfRestore, Append, RenameNoReplace, Tidy, Check;
    TidyCheck(w, StateOfRestore(w.files, m) == ToRestore);
    var w0 := Check(w, StateOfRestore(w.files, m) == ToRestore).0;
    TidyAppend(w0, MemberStarted(KeyOf(group, m)));
    var w1 := Append(w0, MemberStarted(KeyOf(group, m))).0;
    TidyRename(w1, m.quarantine, m.source);
    var w2 := RenameNoReplace(w1, m.quarantine, m.source).0;
    TidyCheck(w2, StateOfRestore(w2.files, m) == Restored);
    TidyAppend(Check(w2, StateOfRestore(w2.files, m) == Restored).0, MemberCompleted(KeyOf(group, m)));
  }

  lemma {:induction false} TidyRestoreAll(w: QuarantineWorld, group: string, todo: seq<Loser>, restored: nat)
    requires Tidy(w)
    ensures Tidy(RestoreAll(w, group, todo, restored).world)
    decreases |todo|
  {
    hide RestoreOne, Append, Tidy;
    if todo == [] {
      TidyAppend(w, GroupCompleted(group));
    } else {
      TidyRestoreOne(w, group, todo[0], restored);
      var t := RestoreOne(w, group, todo[0], restored);
      TidyRestoreAll(t.world, group, todo[1..], t.restored);
    }
  }

  lemma TidyRunGroup(w: QuarantineWorld, g: LoserGroup, restored: nat, recovered: nat)
    requires Tidy(w)
    ensures Tidy(RunGroup(w, g, restored, recovered).world)
  {
    hide Append, Sort, RestoreAll, Tidy, StateOf;
    TidySort(w, g.id, StateOf(w.entries), g.members, [], recovered);
    var sorting := Sort(w, g.id, StateOf(w.entries), g.members, [], recovered);
    TidyAppend(sorting.world, GroupStarted(g.id));
    var w1 := Append(sorting.world, GroupStarted(g.id)).0;
    TidyRestoreAll(w1, g.id, sorting.pending, restored);
    TidyAppend(RestoreAll(w1, g.id, sorting.pending, restored).world, GroupFailed(g.id));
  }

  lemma {:induction false} TidyRunGroups(w: QuarantineWorld, p: Plan, i: nat, done: set<string>, restored: nat,
                                         recovered: nat)
    requires Tidy(w) && i <= |p.groups|
    ensures Tidy(RunGroups(w, p, i, done, restored, recovered).0)
    decreases i
  {
    hide StateOfRestore, Append, RunGroup, Tidy, AllAre, Check;
    if i == 0 {
      TidyCheck(w, AllAre(w.files, p, Restored));
      TidyAppend(Check(w, AllAre(w.files, p, Restored)).0, RunCompleted);
    } else {
      var g := p.groups[i - 1];
      if g.id in done {
        var holds := forall m | m in g.members :: StateOfRestore(w.files, m) == Restored;
        TidyCheck(w, holds);
        TidyRunGroups(Check(w, holds).0, p, i - 1, done, restored, recovered);
      } else {
        TidyRunGroup(w, g, restored, recovered);
        var r := RunGroup(w, g, restored, recovered);
        if r.GoOn? { TidyRunGroups(r.world, p, i - 1, done + {g.id}, r.restored, r.recovered); }
      }
    }
  }

  lemma TidyBegin(p: Plan, approved: JournalFile, d: Disk, resume: bool, faults: seq<Fault>)
    requires Tidy(Abreast(d, faults))
    ensures
      var (w, signal) := Begin(p, approved, d, resume, faults);
      if signal == Fine then Tidy(w) else Tidy(w.(entries := w.lines))
  {
    hide AllAre, DescribesCompletedRun, Append, Tidy, Disk.IsReadable;
    var w0 := Abreast(d, faults);
    TidyCheck(w0, DescribesCompletedRun(p, approved));
    var w1 := Check(w0, DescribesCompletedRun(p, approved)).0;
    TidyCheck(w1, d.lines != [] && d.IsReadable());
    var ready := !d.HasJournal() && AllAre(d.files, p, ToRestore);
    TidyCheck(w1, ready);
    if ready {
      assert d.lines == [];
      var w2 := Check(w1, ready).0;
      TidyAppend(w2, RunStarted);
      TidyIsInStep(Append(w2, RunStarted).0);
    }
  }

  lemma TidyIsInStep(w: QuarantineWorld)
    requires Tidy(w)
    ensures w.(entries := w.lines) == w
  {
  }

  lemma RunStaysWhole(p: Plan, approved: JournalFile, d: Disk, resume: bool, faults: seq<Fault>)
    requires d.IsWhole() && !d.HasEmptyJournal() && IsOrderly(faults)
    ensures
      var next := Execute(p, approved, d, resume, faults).0.Durable();
      next.IsWhole() && !next.HasEmptyJournal()
  {
    hide RunGroups, StateOf, AllAre, Begin, Readable, Printable;
    TidyBegin(p, approved, d, resume, faults);
    var (w, signal) := Begin(p, approved, d, resume, faults);
    if signal == Fine && !StateOf(w.entries).runCompleted {
      TidyRunGroups(w, p, |p.groups|, StateOf(w.entries).completedGroups, 0, 0);
    }
  }

  /** No name of a plain plan spoils a restore journal. */
  lemma {:induction false} PlainJournalPrints(p: Plan, approved: JournalFile, d: Disk, runs: seq<Run>)
    requires p.HasPlainNames() && Printable(d.lines)
    ensures Printable(Campaign(p, approved, d, runs).lines)
    decreases |runs|
  {
    hide Execute, Plan.HasPlainNames, Printable;
    if runs != [] {
      C.ExecuteEvolves(true, p, approved, d, runs[0].resume, runs[0].faults);
      PlainJournalPrints(p, approved, Execute(p, approved, d, runs[0].resume, runs[0].faults).0.Durable(), runs[1..]);
    }
  }

  /** So quarantine followed by restore is the identity on files, stops and failures of
      either notwithstanding. */
  lemma QuarantineThenRestoreIsIdentity(p: Plan, start: Files, directories: set<Location>,
                                        quarantineRuns: seq<Run>, last: Run, restoreRuns: seq<Run>)
    requires Q.Sound(p) && Orderly(restoreRuns)
    requires QE.Campaign(p, Unjournaled(start, directories), quarantineRuns + [last]).shape != Garbled
    requires QE.Execute(p, QE.Campaign(p, Unjournaled(start, directories), quarantineRuns), last.resume, last.faults).1.Completed?
    ensures
      var q := QE.Campaign(p, Unjournaled(start, directories), quarantineRuns + [last]);
      var d := Campaign(p, q.Journal(), Unjournaled(q.files, q.directories), restoreRuns);
      var (next, outcome) := Execute(p, q.Journal(), d, d.lines != [], []);
      outcome.Completed? && next.files == start
  {
    hide Execute, QE.Execute, QE.Campaign, Campaign, DescribesCompletedRun, Orderly, Plan.WellFormed,
      Plan.RootsApart, Plan.WinnersApart, Plan.HasPlainNames, Plan.IsPlain, J.NoneCut, Plan.KeysKeepBreaks, Printable,
      Readable;
    J.CompletedRunIsRestorable(p, start, directories, quarantineRuns, last);
    var q := QE.Campaign(p, Unjournaled(start, directories), quarantineRuns + [last]);
    var first := Unjournaled(q.files, q.directories);
    V.NoLineIsReadable();
    OrderlyStaysWhole(p, q.Journal(), first, restoreRuns);
    PlainJournalPrints(p, q.Journal(), first, restoreRuns);
    RestoreUndoesQuarantine(p, start, directories, quarantineRuns + [last], restoreRuns);
  }

  /** That condition can fail after a complete quarantine: where the first line lost its end
      and the process stopped, the resumed run completes, but the journal that it leaves has
      two lines in one, and no restore ever starts from it. */
  lemma CutLineCostsRestore(p: Plan, start: Files, directories: set<Location>, d: Disk, resume: bool,
                            faults: seq<Fault>)
    requires Q.Sound(p) && MayStart(start, p) && S.NonePast(p, start)
    ensures
      var cut := QE.Execute(p, Unjournaled(start, directories), false, [Proceed, Cut]).0.Durable();
      var (next, outcome) := QE.Execute(p, cut, true, []);
      outcome.Completed? && Execute(p, next.Durable().Journal(), d, resume, faults).1.Declined()
  {
    hide QE.Execute, Execute, Q.Sound, MayStart, StateOf, S.NonePast, S.Agrees, Q.Lawful, RecordsCompletedRun,
      Plan.WellFormed, Plan.RootsApart, Plan.WinnersApart, Printable, Readable;
    var first := Unjournaled(start, directories);
    CutFirstLine(p, start, directories);
    var cut := QE.Execute(p, first, false, [Proceed, Cut]).0.Durable();
    StartIsLawful(p, start, directories);
    Q.RunIsLawful(p, start, first, false, [Proceed, Cut]);
    FirstLineSaysNothing();
    V.NothingVouchedAgrees(p, start);
    FirstLineIsReadable();
    S.ResumeCompletesExactly(p, start, cut);
    var next := QE.Execute(p, cut, true, []).0;
    StateOfNothing();
    WellFormedIs(p);
    J.RunIsTrusted(p, first, false, [Proceed, Cut]);
    J.RunIsTrusted(p, cut, true, []);
    QC.ExecuteEvolves(false, p, cut, true, []);
    RecordedIsCompleted(p, next.lines);
    UnapprovedRefuses(p, next.Durable().Journal(), d, resume, faults);
  }

  lemma FirstLineIsReadable()
    ensures Readable([Line(1, RunStarted)])
  {
  }

  lemma CutFirstLine(p: Plan, start: Files, directories: set<Location>)
    requires MayStart(start, p)
    ensures QE.Execute(p, Unjournaled(start, directories), false, [Proceed, Cut]).0.Durable()
            == Disk(start, [Line(1, RunStarted)], Unended, directories)
  {
    hide MayStart;
    var first := Unjournaled(start, directories);
    var line: Line := Line(1, RunStarted);
    assert first.lines + [line] == [line];
    assert [Proceed, Cut][1..] == [Cut];
  }

  /** So can a line break in the name of any group or loser, without any fault: the quiet
      quarantine completes, and no restore ever starts from its journal. */
  lemma LineBreakCostsRestore(p: Plan, start: Files, directories: set<Location>, d: Disk, resume: bool,
                              faults: seq<Fault>)
    requires Q.Sound(p) && MayStart(start, p) && S.NonePast(p, start) && !p.HasPlainNames()
    ensures
      var (next, outcome) := QE.Execute(p, Unjournaled(start, directories), false, []);
      outcome.Completed? && Execute(p, next.Durable().Journal(), d, resume, faults).1.Declined()
  {
    hide QE.Execute, Execute, QE.Campaign, Q.Sound, MayStart, StateOf, S.NonePast, Q.Lawful, DescribesCompletedRun,
      Plan.WellFormed, Plan.RootsApart, Plan.WinnersApart, Plan.HasPlainNames, Plan.IsPlain, J.NoneCut,
      Plan.KeysKeepBreaks, Readable;
    var first := Unjournaled(start, directories);
    var quiet := Run(false, []);
    StartIsLawful(p, start, directories);
    V.FreshRunCompletesExactly(p, start, first);
    NoRunYet(p, first);
    WellFormedIs(p);
    J.CompletedRunIsRestorable(p, start, directories, [], quiet);
    J.CampaignLast(p, first, [], quiet);
    var next := QE.Execute(p, first, false, []).0;
    assert QE.Campaign(p, first, [] + [quiet]) == next.Durable();
    UnapprovedRefuses(p, next.Durable().Journal(), d, resume, faults);
  }

  lemma NoRunYet(p: Plan, d: Disk)
    ensures QE.Campaign(p, d, []) == d
  {
  }

  lemma StartIsLawful(p: Plan, start: Files, directories: set<Location>)
    ensures Q.Lawful(p, start, Unjournaled(start, directories))
  {
  }

  lemma FirstLineSaysNothing()
    ensures StateOf([Line(1, RunStarted)]) == JournalState({}, {}, {}, false)
  {
    hide StateOf;
    var none: seq<Line> := [];
    StateOfNothing();
    StateOfAppend(none, Line(1, RunStarted));
    assert none + [Line(1, RunStarted)] == [Line(1, RunStarted)];
  }

  lemma WellFormedIs(p: Plan)
    requires Q.Sound(p)
    ensures p.WellFormed()
  {
  }

  lemma RecordedIsCompleted(p: Plan, lines: seq<Line>)
    ensures RecordsCompletedRun(p, lines) ==> StateOf(lines).runCompleted
  {
  }

  lemma UnapprovedRefuses(p: Plan, approved: JournalFile, d: Disk, resume: bool, faults: seq<Fault>)
    requires !DescribesCompletedRun(p, approved)
    ensures Execute(p, approved, d, resume, faults).1.Declined()
  {
    hide RunGroups, DescribesCompletedRun;
  }
}
