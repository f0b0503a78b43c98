/** What `execute_apply` guarantees over whole runs and over any sequence of runs. */
module ApplyTheorems {
  import opened MediaStore
  import opened ApplyContract
  import opened ApplyExecution
  import opened ApplyInvariant
  import opened ApplySafety
  import opened ApplyRecovery
  import opened ApplyConservation
  import opened JournalFacts

  /** The disks that runs can leave behind, starting from `start` and no journal. */
  ghost predicate Lawful(c: Contract, start: Files, d: Disk) {
    if d.lines == [] then d.files == start
    else Cleared(c, start) && exists f :: Frontier(c, start, f, d.files, StateOf(d.lines))
  }

  /** The first line of a fresh run puts the frontier before the first group. */
  lemma FreshFrontier(c: Contract, start: Files, lines: seq<Line>)
    requires Cleared(c, start)
    requires lines == [] || lines == [Line(1, RunStarted)] || lines == [Broken]
    ensures Frontier(c, start, 0, start, StateOf(lines))
    ensures Agrees(c, start, StateOf(lines))
  {
    hide MovingMembers, Revalidate, StateOf, Cleared;
    var s := StateOf(lines);
    StateOfBeginning(lines);
    forall g, m | c.Has(g, m)
      ensures AtSource(start, start, m) && !AtDestination(start, start, m)
    {
      ClearedSays(c, start, g, m);
    }
    forall g | 0 < g < |c.groups|
      ensures GroupUntouched(c, start, start, s, g)
    {
      forall m | m in c.groups[g].Moving() ensures AtSource(start, start, m) { assert c.Has(g, m); }
    }
  }

  lemma ClearedSays(c: Contract, start: Files, g: int, m: Member)
    requires Cleared(c, start) && c.Has(g, m)
    ensures m.source in start && m.destination !in start
  {
    assert Revalidate(start, m);
  }

  lemma StateOfBeginning(lines: seq<Line>)
    requires lines == [] || lines == [Line(1, RunStarted)] || lines == [Broken]
    ensures StateOf(lines) == JournalState({}, {}, {}, false)
  {
    if lines != [] {
      StateOfAppend([], lines[0]);
      assert [] + [lines[0]] == lines;
    }
  }

  lemma FirstLineIs(w: ApplyWorld)
    requires w.lines == [] && w.entries == []
    ensures
      var (next, signal) := Append(w, RunStarted);
      && (next.lines == [] || next.lines == [Line(1, RunStarted)] || next.lines == [Broken]) && next.files == w.files
      && (signal == Fine ==> InSync(next) && next.lines != [])
  {
  }

  lemma BeginKeeps(c: Contract, start: Files, d: Disk, resume: bool, faults: seq<Fault>)
    requires c.WellFormed() && c.DistinctPaths() && Lawful(c, start, d)
    ensures
      var (w, signal) := Begin(c, d, resume, faults);
      && w.files == d.files && Lawful(c, start, w.Durable())
      && (signal == Fine ==> InSync(w) && w.lines != [])
      && (d.lines != [] ==> w.lines == d.lines)
  {
    hide Frontier, Disk.IsReadable, Append, AllRevalidated, StateOf, Cleared;
    if !resume && !d.HasJournal() && AllRevalidated(d.files, c) {
      ClearedAtStart(c, start);
      var next := Check(Launch(d, faults), true).0;
      FirstLineIs(next);
      var lines := Append(next, RunStarted).0.lines;
      FreshFrontier(c, start, lines);
      assert exists f :: Frontier(c, start, f, start, StateOf(lines));
    }
  }

  ghost predicate IsRestored(c: Contract, start: Files, files: Files, group: string) {
    && (exists g :: 0 <= g < |c.groups| && c.groups[g].id == group)
    && (forall g, m :: c.Has(g, m) && c.groups[g].id == group ==> AtSource(start, files, m))
  }

  /** The group on which the run failed keeps a member at its destination that the rollback
      does not know of: sorting took it for a pending one because the look at it failed, or
      its rename took effect and raised all the same. */
  predicate Strays(c: Contract, d: Disk, resume: bool, faults: seq<Fault>) {
    var (w, signal) := Begin(c, d, resume, faults);
    var state := StateOf(w.entries);
    signal == Fine && !state.runCompleted && RunStrays(w, c, 0, state.completedGroups, 0, 0)
  }

  /** Every run leaves a lawful disk, and a group reported as safely rolled back has all
      its files at their sources exactly when it left no stray. */
  lemma RunIsLawful(c: Contract, start: Files, d: Disk, resume: bool, faults: seq<Fault>)
    requires c.WellFormed() && c.DistinctPaths() && Lawful(c, start, d)
    ensures
      var (next, outcome) := Execute(c, d, resume, faults);
      && Lawful(c, start, next.Durable())
      && (outcome.RolledBackSafely? ==> (IsRestored(c, start, next.files, outcome.group) <==> !Strays(c, d, resume, faults)))
  {
    hide Frontier, StateOf, RunGroups, RunStrays, Begin, AtSource, AllVerified, MovingMembers;
    var f := RunFrontier(c, start, d, resume, faults);
    var (next, outcome) := Execute(c, d, resume, faults);
    if outcome.RolledBackSafely? {
      assert forall g :: 0 <= g < |c.groups| && c.groups[g].id == outcome.group ==> g == f;
    }
  }

  /** Where the frontier stands after a run, and what a run that entered its handler says. */
  lemma RunFrontier(c: Contract, start: Files, d: Disk, resume: bool, faults: seq<Fault>) returns (f: int)
    requires c.WellFormed() && c.DistinctPaths() && Lawful(c, start, d)
    ensures
      var (next, outcome) := Execute(c, d, resume, faults);
      && Lawful(c, start, next.Durable())
      && (outcome.Handled() ==> next.lines != [] && Good(c, start, f, next) && 0 <= f)
      && (outcome.Handled() && !outcome.Crashed? ==> f < |c.groups| && outcome.group == c.groups[f].id)
      && (outcome.RolledBackSafely? ==>
          ((forall m :: c.Has(f, m) ==> AtSource(start, next.files, m)) <==> !Strays(c, d, resume, faults)))
  {
    hide Frontier, StateOf, RunGroups, RunStrays, Begin, AtSource, AllVerified, MovingMembers;
    f := 0;
    BeginKeeps(c, start, d, resume, faults);
    var (w, signal) := Begin(c, d, resume, faults);
    if signal == Fine && !StateOf(w.entries).runCompleted {
      var f0 :| Frontier(c, start, f0, w.files, StateOf(w.lines));
      FrontierIsNonNegative(c, start, f0, w);
      f := RunGroupsKeep(c, start, f0, w, 0, StateOf(w.lines).completedGroups, 0, 0);
      var next := Execute(c, d, resume, faults).0;
      TermsPermit(c, false);
      RunGroupsEvolve(TermsOf(c, false), w, c, 0, StateOf(w.lines).completedGroups, 0, 0);
      FrontierIsNonNegative(c, start, f, next);
    }
  }

  lemma FrontierIsNonNegative(c: Contract, start: Files, f: int, w: ApplyWorld)
    requires Frontier(c, start, f, w.files, StateOf(w.lines))
    ensures 0 <= f <= |c.groups|
  {
  }

  lemma {:induction false} CampaignIsLawful(c: Contract, start: Files, d: Disk, runs: seq<Run>)
    requires c.WellFormed() && c.DistinctPaths() && Lawful(c, start, d)
    ensures Lawful(c, start, Campaign(c, d, runs))
    decreases |runs|
  {
    hide Execute, Lawful;
    if runs != [] {
      RunIsLawful(c, start, d, runs[0].resume, runs[0].faults);
      CampaignIsLawful(c, start, Execute(c, d, runs[0].resume, runs[0].faults).0.Durable(), runs[1..]);
    }
  }

  /** Group `g` has one member at its source and another at its destination. */
  ghost predicate IsSplit(c: Contract, start: Files, files: Files, g: int) {
    exists m, n :: c.Has(g, m) && c.Has(g, n) && AtSource(start, files, m) && AtDestination(start, files, n)
  }

  /** Over any fresh and resumed runs, with any step failing or being the last: either no
      journal was begun and no file moved, or every member's own file is at exactly one of
      its two places, moved files have the approved attributes and are announced in the
      journal, nothing else changed, and
      at most one group has members on both sides. */
  lemma CampaignIsSafe(c: Contract, start: Files, directories: set<Location>, runs: seq<Run>)
    requires c.WellFormed() && c.DistinctPaths()
    ensures
      var d := Campaign(c, Unjournaled(start, directories), runs);
      if d.lines == [] then d.files == start
      else
        && Conserved(c, start, d.files)
        && WrittenAhead(c, start, d.files, StateOf(d.lines))
        && (forall g, m :: c.Has(g, m) && AtDestination(start, d.files, m) ==> HasAttributes(start[m.source], m.fingerprint))
        && forall g, h :: IsSplit(c, start, d.files, g) && IsSplit(c, start, d.files, h) ==> g == h
  {
    CampaignIsLawful(c, start, Unjournaled(start, directories), runs);
    var d := Campaign(c, Unjournaled(start, directories), runs);
    if d.lines != [] {
      var f :| Frontier(c, start, f, d.files, StateOf(d.lines));
      OnlyFrontierIsSplit(c, start, f, d);
      forall g, m | c.Has(g, m)
        ensures m.source in start && HasAttributes(start[m.source], m.fingerprint)
      {
        assert Revalidate(start, m);
      }
    }
  }

  lemma OnlyFrontierIsSplit(c: Contract, start: Files, f: int, d: Disk)
    requires Frontier(c, start, f, d.files, StateOf(d.lines))
    ensures forall g :: IsSplit(c, start, d.files, g) ==> g == f
  {
    hide Frontier, StateOf;
    forall g | IsSplit(c, start, d.files, g)
      ensures g == f
    {
      GroupFacts(c, start, f, d.files, StateOf(d.lines), g);
      var m, n :| c.Has(g, m) && c.Has(g, n) && AtSource(start, d.files, m) && AtDestination(start, d.files, n);
    }
  }

  // ---------- fail closed ----------

  /** The journal vouches for a member that is not at its destination. */
  ghost predicate Contradicted(c: Contract, files: Files, s: JournalState, g: int, m: Member) {
    c.Has(g, m) && Vouches(s, c.groups[g].id, m) && !VerifyDestination(files, m)
  }

  lemma {:induction false} SortDetects(w: ApplyWorld, group: string, state: JournalState, todo: seq<Member>,
                                       completed: seq<Member>, pending: seq<Member>, recovered: nat, m: Member)
    requires m in todo && MemberKey(group, m) in state.completedMembers && !VerifyDestination(w.files, m)
    ensures
      var r := Sort(w, group, state, todo, completed, pending, recovered);
      r.signal != Fine && r.world.files == w.files
    decreases |todo|
  {
    hide VerifyDestination, Holds;
    var n := todo[0];
    var key := MemberKey(group, n);
    if n != m || key !in state.completedMembers {
      assert m in todo[1..];
      if key in state.completedMembers {
        var (next, signal) := Check(w, VerifyDestination(w.files, n));
        if signal == Fine {
          SortDetects(next, group, state, todo[1..], completed + [n], pending, recovered, m);
        }
      } else if key in state.startedMembers && n.source !in w.files {
        var (w1, s1) := Check(w, Holds(w.files, n.destination, n.fingerprint));
        if s1 == Raised {
          SortDetects(w1, group, state, todo[1..], completed, pending + [n], recovered, m);
        } else if s1 == Fine {
          var (next, signal) := Append(w1, MemberCompleted(key));
          if signal == Fine {
            SortDetects(next, group, state, todo[1..], completed + [n], pending, recovered + 1, m);
          }
        }
      } else {
        SortDetects(w, group, state, todo[1..], completed, pending + [n], recovered, m);
      }
    }
  }

  /** A contradicted member can only belong to the frontier group. */
  lemma ContradictionAtFrontier(c: Contract, start: Files, f: int, files: Files, s: JournalState, g: int,
                                m: Member)
    requires Setting(c, start) && Frontier(c, start, f, files, s) && Contradicted(c, files, s, g, m)
    ensures g == f && !s.runCompleted
  {
    hide Frontier, Setting;
    GroupFacts(c, start, f, files, s, g);
    MemberFacts(c, start, f, files, s, g, m);
  }

  lemma {:induction false} RunGroupsRefuse(c: Contract, start: Files, f: int, w: ApplyWorld, i: nat,
                                           done: set<string>, moved: nat, recovered: nat, m: Member)
    requires Good(c, start, f, w) && InSync(w) && i <= f
    requires done == StateOf(w.lines).completedGroups && Contradicted(c, w.files, StateOf(w.lines), f, m)
    ensures i <= |c.groups|
    ensures
      var (next, outcome) := RunGroups(w, c, i, done, moved, recovered);
      next.files == w.files && outcome.Declined()
    decreases |c.groups| - i
  {
    hide Frontier, Setting, StateOf, Sort, AllVerified, MovingMembers, VerifyDestination;
    GroupFacts(c, start, f, w.files, StateOf(w.lines), i);
    var g := c.groups[i];
    if i < f {
      var (next, signal) := Check(w, forall m | m in g.Moving() :: VerifyDestination(w.files, m));
      if signal == Fine {
        RunGroupsRefuse(c, start, f, next, i + 1, done, moved, recovered, m);
      }
    } else if g.id !in done {
      SortDetects(w, g.id, StateOf(w.entries), g.Moving(), [], [], recovered, m);
    }
  }

  /** If the journal vouches for a file that is not at its destination, a resume moves no
      file of any group, whatever else goes wrong; it ends with an error. */
  lemma DisagreementFailsClosed(c: Contract, start: Files, d: Disk, faults: seq<Fault>)
    requires c.WellFormed() && c.DistinctPaths() && Lawful(c, start, d) && d.lines != []
    requires !Agrees(c, d.files, StateOf(d.lines))
    ensures
      var (next, outcome) := Execute(c, d, true, faults);
      next.files == d.files && outcome.Declined()
  {
    hide Frontier, StateOf, RunGroups, MovingMembers, VerifyDestination, AllVerified, Disk.IsReadable;
    var s := StateOf(d.lines);
    var g, m :| 0 <= g < |c.groups| && m in c.groups[g].Moving() && Vouches(s, c.groups[g].id, m) && !VerifyDestination(d.files, m);
    assert Contradicted(c, d.files, s, g, m);
    var f :| Frontier(c, start, f, d.files, s);
    ContradictionAtFrontier(c, start, f, d.files, s, g, m);
    var (w, signal) := Begin(c, d, true, faults);
    if signal == Fine {
      RunGroupsRefuse(c, start, f, w, 0, s.completedGroups, 0, 0, m);
    }
  }

  // ---------- resuming ----------

  /** From agreement on, what one run does to agreement, to the journal and to the count. */
  lemma RunFromAgreement(c: Contract, start: Files, d: Disk, resume: bool, faults: seq<Fault>)
    requires c.WellFormed() && c.DistinctPaths() && Lawful(c, start, d)
    requires Agrees(c, d.files, StateOf(d.lines)) && d.IsReadable()
    ensures
      var (next, outcome) := Execute(c, d, resume, faults);
      && (!outcome.Handled() ==> InAgreement(c, next) && (d.IsWhole() && !Damages(faults) ==> next.IsWhole()))
      && (Mild(faults) ==>
          && InAgreement(c, next) && (d.IsWhole() ==> next.IsWhole())
          && (outcome.Completed? || outcome.Refused? || outcome.RolledBackSafely?))
      && (Mild(faults) && resume && d.lines != [] ==> outcome.Completed? || faults != [])
      && (faults == [] && !resume && !d.HasJournal() && AllRevalidated(d.files, c) ==> outcome.Completed?)
      && (outcome.Completed? ==>
          && outcome.groups == |c.groups|
          && (resume && !StateOf(d.lines).runCompleted ==>
              outcome.moved + outcome.recovered + Vouched(c, StateOf(d.lines), 0) == Total(c, 0))
          && AllVerified(next.files, c))
  {
    hide Frontier, StateOf, RunGroups, AllVerified, AllRevalidated, MovingMembers, Mild, Readable, Printable, Agrees,
      Vouched, Total, Begin, Check;
    if Mild(faults) { MildDamagesNothing(faults); }
    NoFaultIsMild();
    BeginKeeps(c, start, d, resume, faults);
    BeginAgrees(c, start, d, resume, faults);
    var (w, signal) := Begin(c, d, resume, faults);
    if signal == Fine {
      var f :| Frontier(c, start, f, w.files, StateOf(w.lines));
      FrontierIsNonNegative(c, start, f, w);
      if Mild(w.faults) { MildDamagesNothing(w.faults); }
      if StateOf(w.entries).runCompleted {
        GroupFacts(c, start, f, w.files, StateOf(w.lines), f);
        AllDone(c, start, w.files, StateOf(w.lines));
        CheckCalmly(w, AllVerified(w.files, c));
        CheckEvolves(Still, w, AllVerified(w.files, c));
      } else {
        RunGroupsAgree(c, start, f, w, 0, StateOf(w.lines).completedGroups, 0, 0);
        var (next, outcome) := Execute(c, d, resume, faults);
        if outcome.Completed? {
          CompletedVerifies(w, c, 0, StateOf(w.lines).completedGroups, 0, 0);
        }
      }
    }
  }

  lemma {:induction false} CompletedVerifies(w: ApplyWorld, c: Contract, i: nat, done: set<string>, moved: nat,
                                             recovered: nat)
    requires i <= |c.groups|
    ensures
      var (next, outcome) := RunGroups(w, c, i, done, moved, recovered);
      outcome.Completed? ==> AllVerified(next.files, c)
    decreases |c.groups| - i
  {
    hide AllVerified, Sort, TryGroup, UndoAll, MovingMembers, StateOf, VerifyDestination;
    if i < |c.groups| {
      var g := c.groups[i];
      if g.id in done {
        CompletedVerifies(Check(w, forall m | m in g.Moving() :: VerifyDestination(w.files, m)).0, c, i + 1, done, moved, recovered);
      } else {
        var r := RunGroup(w, g, moved, recovered);
        if r.GoOn? {
          CompletedVerifies(r.world, c, i + 1, done + {g.id}, r.moved, r.recovered);
        }
      }
    }
  }

  lemma BeginAgrees(c: Contract, start: Files, d: Disk, resume: bool, faults: seq<Fault>)
    requires c.WellFormed() && c.DistinctPaths() && Lawful(c, start, d)
    requires Agrees(c, d.files, StateOf(d.lines)) && d.IsReadable()
    ensures
      var (w, signal) := Begin(c, d, resume, faults);
      && InAgreement(c, w)
      && (d.IsWhole() && !Damages(faults) ==> w.IsWhole() && !Damages(w.faults))
      && (Mild(faults) ==> Mild(w.faults) && signal != Halted && (faults == [] ==> w.faults == []))
      && (Mild(faults) && resume && d.lines != [] && signal == Raised ==> faults != [])
      && (faults == [] && !resume && !d.HasJournal() && AllRevalidated(d.files, c) ==> signal == Fine)
      && (resume ==> w.lines == d.lines)
  {
    hide Frontier, StateOf, MovingMembers, Agrees, Mild, AllRevalidated, Readable, Printable, Append;
    var w0 := Abreast(d, faults);
    if Mild(faults) { MildStep(faults); }
    if resume {
      CheckIsClean(w0, d.lines != [] && d.IsReadable());
    } else {
      var ready := !d.HasJournal() && AllRevalidated(d.files, c);
      var first := Launch(d, faults);
      CheckIsClean(w0, ready);
      var (next, signal) := Check(first, ready);
      if signal == Fine {
        assert Cleared(c, start) by { ClearedAtStart(c, start); }
        FirstLineAgrees(c, start, next);
        AppendIsClean(next, RunStarted);
        AppendCalmly(next, RunStarted);
      }
    }
  }

  lemma ClearedAtStart(c: Contract, start: Files)
    requires AllRevalidated(start, c)
    ensures Cleared(c, start)
  {
  }

  lemma FirstLineAgrees(c: Contract, start: Files, w: ApplyWorld)
    requires Cleared(c, start) && w.files == start && w.lines == [] && w.entries == []
    ensures InAgreement(c, Append(w, RunStarted).0)
  {
    hide StateOf, Agrees, MovingMembers;
    FreshFrontier(c, start, Append(w, RunStarted).0.lines);
  }

  /** A resume that meets no fault carries the contract through exactly when the journal
      can be read and agrees with the disk. It then finds every moving member at its
      destination, each counted once: vouched for before, recovered, or moved now. */
  lemma ResumeCompletesExactly(c: Contract, start: Files, d: Disk)
    requires c.WellFormed() && c.DistinctPaths() && Lawful(c, start, d) && d.lines != []
    ensures
      var (next, outcome) := Execute(c, d, true, []);
      && (outcome.Completed? <==> d.IsReadable() && Agrees(c, d.files, StateOf(d.lines)))
      && (outcome.Completed? ==>
          && AllVerified(next.files, c)
          && outcome.groups == |c.groups|
          && (if StateOf(d.lines).runCompleted then outcome.moved + outcome.recovered == 0
              else outcome.moved + outcome.recovered + Vouched(c, StateOf(d.lines), 0) == Total(c, 0)))
  {
    hide Frontier, StateOf, RunGroups, AllVerified, MovingMembers, Disk.IsReadable, Agrees, Vouched, Total, Lawful;
    NoFaultIsMild();
    if !Agrees(c, d.files, StateOf(d.lines)) {
      DisagreementFailsClosed(c, start, d, []);
    } else if d.IsReadable() {
      RunFromAgreement(c, start, d, true, []);
    }
  }

  /** The next run without faults, which resumes if the journal has lines and starts afresh
      if not, carries the contract through exactly when there is no empty journal file, the
      journal can be read and agrees with the disk, and a fresh start finds every member at
      its source. */
  lemma QuietRunCompletesExactly(c: Contract, start: Files, d: Disk)
    requires c.WellFormed() && c.DistinctPaths() && Lawful(c, start, d)
    ensures
      var (next, outcome) := Execute(c, d, d.lines != [], []);
      && (outcome.Completed? <==>
          && !d.HasUnusableJournal()
          && Agrees(c, d.files, StateOf(d.lines))
          && (d.lines == [] ==> AllRevalidated(start, c)))
      && (outcome.Completed? ==> outcome.groups == |c.groups| && AllVerified(next.files, c))
  {
    hide Frontier, StateOf, RunGroups, AllVerified, MovingMembers, Readable, Agrees, Vouched, Total, Begin;
    if d.lines != [] {
      ResumeCompletesExactly(c, start, d);
    } else {
      StateOfBeginning(d.lines);
      NoLineIsReadable();
      NothingVouchedAgrees(c, d.files);
      if d.shape == NoFile { RunFromAgreement(c, start, d, false, []); }
      BeginNeedsMore(c, d, []);
    }
  }

  lemma NoFaultIsMild()
    ensures Mild([])
  {
  }

  lemma NoLineIsReadable()
    ensures Readable([]) && Printable([])
  {
  }

  lemma NothingVouchedAgrees(c: Contract, files: Files)
    ensures Agrees(c, files, JournalState({}, {}, {}, false))
  {
  }

  /** A fresh run is refused where a journal file stands or the members are not cleared. */
  lemma BeginNeedsMore(c: Contract, d: Disk, faults: seq<Fault>)
    ensures d.HasJournal() || !AllRevalidated(d.files, c) ==> Begin(c, d, false, faults).1 != Fine
  {
  }

  // ---------- runs that are stopped or rolled back ----------

  predicate VouchesForNone(c: Contract, s: JournalState, group: string) {
    forall g, m | 0 <= g < |c.groups| && m in c.groups[g].Moving() :: c.groups[g].id == group ==> !Vouches(s, group, m)
  }

  /** The run either stayed out of rollbacks, with no journal line torn or cut; or it ended
      one, knew of every line in its journal, and took back there whatever the journal said of
      the group. */
  predicate IsOrderly(c: Contract, d: Disk, run: Run) {
    var (next, outcome) := Execute(c, d, run.resume, run.faults);
    if outcome.Handled() then
      !outcome.Crashed? && next.entries == next.lines && VouchesForNone(c, StateOf(next.lines), outcome.group)
    else
      !Damages(run.faults)
  }

  predicate Undisturbed(c: Contract, d: Disk, runs: seq<Run>)
    decreases |runs|
  {
    runs == [] ||
    (IsOrderly(c, d, runs[0]) &&
     Undisturbed(c, Execute(c, d, runs[0].resume, runs[0].faults).0.Durable(), runs[1..]))
  }

  /** After a rollback that was ended and journaled, journal and disk agree. */
  lemma EndedRollbackAgrees(c: Contract, start: Files, d: Disk, resume: bool, faults: seq<Fault>)
    requires c.WellFormed() && c.DistinctPaths() && Lawful(c, start, d) && d.IsWhole()
    requires Execute(c, d, resume, faults).1.Handled() && IsOrderly(c, d, Run(resume, faults))
    ensures InAgreement(c, Execute(c, d, resume, faults).0) && Execute(c, d, resume, faults).0.IsWhole()
  {
    hide Execute, Frontier, StateOf, Strays, AtSource, AtDestination, MovingMembers, VerifyDestination, Readable,
      Printable;
    var (next, outcome) := Execute(c, d, resume, faults);
    ExecuteEvolves(false, c, d, resume, faults);
    var f := RunFrontier(c, start, d, resume, faults);
    var s := StateOf(next.lines);
    forall g, m | 0 <= g < |c.groups| && m in c.groups[g].Moving() && Vouches(s, c.groups[g].id, m)
      ensures VerifyDestination(next.files, m)
    {
      assert c.Has(g, m);
      GroupFacts(c, start, f, next.files, s, g);
      MemberFacts(c, start, f, next.files, s, g, m);
    }
  }

  /** A safe rollback that left no stray and whose process knew of every line is in agreement
      with its journal exactly when the journal vouches for no member of the group. */
  lemma SafeRollbackAgreesExactly(c: Contract, start: Files, d: Disk, resume: bool, faults: seq<Fault>)
    requires c.WellFormed() && c.DistinctPaths() && Lawful(c, start, d) && d.IsWhole()
    requires Execute(c, d, resume, faults).1.RolledBackSafely? && !Strays(c, d, resume, faults)
    requires Execute(c, d, resume, faults).0.entries == Execute(c, d, resume, faults).0.lines
    ensures
      var (next, outcome) := Execute(c, d, resume, faults);
      InAgreement(c, next) <==> VouchesForNone(c, StateOf(next.lines), outcome.group)
  {
    hide Execute, Frontier, StateOf, Strays, MovingMembers, Readable, Printable;
    var (next, outcome) := Execute(c, d, resume, faults);
    RunIsLawful(c, start, d, resume, faults);
    if VouchesForNone(c, StateOf(next.lines), outcome.group) {
      EndedRollbackAgrees(c, start, d, resume, faults);
    } else if InAgreement(c, next) {
      var g, m :| 0 <= g < |c.groups| && m in c.groups[g].Moving() && c.groups[g].id == outcome.group
                  && Vouches(StateOf(next.lines), outcome.group, m);
      assert c.Has(g, m);
      AgreementSays(c, next.files, StateOf(next.lines), g, m);
      assert false;
    }
  }

  lemma {:induction false} UndisturbedAgrees(c: Contract, start: Files, d: Disk, runs: seq<Run>)
    requires c.WellFormed() && c.DistinctPaths() && Lawful(c, start, d) && Undisturbed(c, d, runs)
    requires Agrees(c, d.files, StateOf(d.lines)) && d.IsWhole()
    ensures
      var after := Campaign(c, d, runs);
      Lawful(c, start, after) && Agrees(c, after.files, StateOf(after.lines)) && after.IsWhole()
    decreases |runs|
  {
    hide Execute, Lawful, Agrees, StateOf, Readable, Printable, VouchesForNone;
    if runs != [] {
      if d.IsReadable() {
        RunIsLawful(c, start, d, runs[0].resume, runs[0].faults);
        RunFromAgreement(c, start, d, runs[0].resume, runs[0].faults);
        if Execute(c, d, runs[0].resume, runs[0].faults).1.Handled() {
          assert Run(runs[0].resume, runs[0].faults) == runs[0];
          EndedRollbackAgrees(c, start, d, runs[0].resume, runs[0].faults);
        }
        UndisturbedAgrees(c, start, Execute(c, d, runs[0].resume, runs[0].faults).0.Durable(), runs[1..]);
      } else {
        UnusableJournalIsFinal(c, d, runs, false, []);
      }
    }
  }

  /** No text of a plain contract spoils its journal. */
  lemma {:induction false} PlainJournalPrints(c: Contract, d: Disk, runs: seq<Run>)
    requires c.IsPlain() && Printable(d.lines)
    ensures Printable(Campaign(c, d, runs).lines)
    decreases |runs|
  {
    hide Execute, Contract.IsPlain, Printable;
    if runs != [] {
      ExecuteEvolves(true, c, d, runs[0].resume, runs[0].faults);
      PlainJournalPrints(c, Execute(c, d, runs[0].resume, runs[0].faults).0.Durable(), runs[1..]);
    }
  }

  /** Stopped or failing at any step, any number of times, outside rollbacks or with rollbacks
      that were ended and journaled, the work is finished by one quiet run, unless the very
      first line left an empty journal file or a text with a line break got into the journal,
      which no text of a plain contract does. */
  lemma StoppedRunsResume(c: Contract, start: Files, directories: set<Location>, runs: seq<Run>)
    requires c.WellFormed() && c.DistinctPaths() && Undisturbed(c, Unjournaled(start, directories), runs)
    ensures
      var d := Campaign(c, Unjournaled(start, directories), runs);
      var (next, outcome) := Execute(c, d, d.lines != [], []);
      && (outcome.Completed? <==> if d.lines == [] then d.shape == NoFile && AllRevalidated(start, c) else Printable(d.lines))
      && (outcome.Completed? ==> outcome.groups == |c.groups| && AllVerified(next.files, c))
      && (c.IsPlain() ==> Printable(d.lines))
  {
    hide Execute, Frontier, Undisturbed, AllVerified, Readable, Printable, Agrees, AllRevalidated, Contract.IsPlain;
    var first := Unjournaled(start, directories);
    NoLineIsReadable();
    StateOfBeginning(first.lines);
    NothingVouchedAgrees(c, start);
    UndisturbedAgrees(c, start, first, runs);
    QuietRunCompletesExactly(c, start, Campaign(c, first, runs));
    if c.IsPlain() { PlainJournalPrints(c, first, runs); }
  }

  /** One failing step, wherever it strikes, never needs an operator: the run completes,
      refuses, or rolls its group back safely, and one quiet resume finishes the rest, unless
      a text with a line break got into the journal. */
  lemma SingleFailureRecovers(c: Contract, start: Files, d: Disk, faults: seq<Fault>)
    requires c.WellFormed() && c.DistinctPaths() && Lawful(c, start, d) && d.lines != []
    requires d.IsWhole() && Agrees(c, d.files, StateOf(d.lines)) && Mild(faults)
    ensures
      var (next, outcome) := Execute(c, d, true, faults);
      && (outcome.Completed? || outcome.Refused? || outcome.RolledBackSafely?)
      && (Execute(c, next.Durable(), true, []).1.Completed? <==> Printable(next.lines))
  {
    hide Frontier, Agrees, StateOf, Readable, Printable, Mild, Execute;
    NoFileIsLost(c, d, true, faults);
    RunIsLawful(c, start, d, true, faults);
    var next := Execute(c, d, true, faults).0;
    if d.IsReadable() {
      RunFromAgreement(c, start, d, true, faults);
    } else {
      MildNeverStops(c, d, faults);
      UnusableJournalIsFinal(c, d, [], true, faults);
    }
    ResumeCompletesExactly(c, start, next.Durable());
  }

  lemma MildNeverStops(c: Contract, d: Disk, faults: seq<Fault>)
    requires Mild(faults) && !d.IsReadable()
    ensures Execute(c, d, true, faults).1 == Refused
  {
    hide RunGroups, Mild, Disk.IsReadable;
    MildStep(faults);
  }

  // ---------- journals that no run can use ----------

  /** An existing empty journal file, and a journal that cannot be read, are for good: every
      later run, fresh or resumed, ends with an error and changes nothing. */
  lemma {:induction false} UnusableJournalIsFinal(c: Contract, d: Disk, runs: seq<Run>, resume: bool,
                                                  faults: seq<Fault>)
    requires d.HasUnusableJournal()
    ensures Campaign(c, d, runs) == d
    ensures Execute(c, d, resume, faults).1.Declined() && Execute(c, d, resume, faults).0.Durable() == d
    decreases |runs|
  {
    hide Execute, Disk.HasUnusableJournal;
    UnusableJournalDeclines(c, d, resume, faults);
    if runs != [] {
      UnusableJournalIsFinal(c, d, runs[1..], runs[0].resume, runs[0].faults);
    }
  }

  lemma UnusableJournalDeclines(c: Contract, d: Disk, resume: bool, faults: seq<Fault>)
    requires d.HasUnusableJournal()
    ensures Execute(c, d, resume, faults).1.Declined() && Execute(c, d, resume, faults).0.Durable() == d
  {
    hide RunGroups, Disk.IsReadable, Disk.HasUnusableJournal, AllRevalidated;
    UnusableIsInTheWay(d);
  }

  /** So once a run has spoilt its journal, no sequence of runs completes the contract. */
  lemma SpoiltJournalIsFinal(c: Contract, d: Disk, faults: seq<Fault>, resume: bool, runs: seq<Run>,
                                 again: Run)
    requires Execute(c, d, resume, faults).0.Durable().HasUnusableJournal()
    ensures
      var after := Execute(c, d, resume, faults).0.Durable();
      && Campaign(c, after, runs) == after
      && Execute(c, Campaign(c, after, runs), again.resume, again.faults).1.Declined()
  {
    hide Execute, Campaign, Readable, Printable;
    UnusableJournalIsFinal(c, Execute(c, d, resume, faults).0.Durable(), runs, again.resume, again.faults);
  }

  /** The first line of any cleared contract can spoil the journal: the file is opened and
      nothing, or only a fragment, reaches it. No file has moved, and none ever will. */
  lemma FirstLineCanSpoil(c: Contract, start: Files, directories: set<Location>, fault: Fault, runs: seq<Run>,
                          again: Run)
    requires AllRevalidated(start, c) && (fault == Bare || fault == Tear)
    ensures
      var d := Campaign(c, Unjournaled(start, directories), [Run(false, [Proceed, fault])] + runs);
      && d.files == start && d.HasUnusableJournal() && (fault == Bare ==> d.HasEmptyJournal())
      && Execute(c, d, again.resume, again.faults).1.Declined()
  {
    hide AllRevalidated, Readable, RunGroups;
    var first := Unjournaled(start, directories);
    var run := Run(false, [Proceed, fault]);
    FirstLineSpoils(c, start, directories, fault);
    var d := Execute(c, first, false, [Proceed, fault]).0.Durable();
    UnusableJournalIsFinal(c, d, runs, again.resume, again.faults);
    assert ([run] + runs)[0] == run && ([run] + runs)[1..] == runs;
  }

  lemma FirstLineSpoils(c: Contract, start: Files, directories: set<Location>, fault: Fault)
    requires AllRevalidated(start, c) && (fault == Bare || fault == Tear)
    ensures Execute(c, Unjournaled(start, directories), false, [Proceed, fault]).0.Durable()
            == Disk(start, if fault == Bare then [] else [Broken], Ended, directories)
    ensures !Readable([Broken])
  {
    hide AllRevalidated, Readable, RunGroups;
    var torn: seq<Line> := [Broken];
    assert Unjournaled(start, directories).lines + torn == torn;
    assert [Proceed, fault][1..] == [fault];
    BrokenIsUnreadable();
  }

  /** A last line that lost only its end can still be read; but the first line that a later
      run writes runs together with it, and the journal is unusable from then on. */
  lemma CutLineIsFinal(c: Contract, d: Disk, resume: bool, faults: seq<Fault>, runs: seq<Run>, again: Run)
    requires d.shape == Unended && Execute(c, d, resume, faults).0.lines != d.lines
    ensures
      var after := Execute(c, d, resume, faults).0.Durable();
      && after.shape == Garbled && Campaign(c, after, runs) == after
      && Execute(c, after, again.resume, again.faults).1.Declined()
  {
    hide Execute, Campaign, Readable, Printable;
    ExecuteEvolves(false, c, d, resume, faults);
    UnusableJournalIsFinal(c, Execute(c, d, resume, faults).0.Durable(), runs, again.resume, again.faults);
  }

  lemma BrokenIsUnreadable()
    ensures !Readable([Broken])
  {
    var lines: seq<Line> := [Broken];
    assert !lines[0].Line?;
  }
}
