/** What `execute_apply` requires of the files and does to them, stated in the attributes of
    the files: for every contract, well formed or not, and for every sequence of faults. */
module ApplyApproval {
  import opened MediaStore
  import opened ApplyContract
  import opened ApplyExecution
  import opened ApplyConservation
  import opened JournalFacts
  import I = ApplyInvariant
  import T = ApplyTheorems

  /** The member's approved file is at its source, and nothing at its destination. */
  ghost predicate StandsReady(files: Files, m: Member) {
    Stands(files, m.source, m.fingerprint) && m.destination !in files
  }

  ghost predicate StandsMoved(files: Files, m: Member) {
    Stands(files, m.destination, m.fingerprint) && m.source !in files
  }

  ghost predicate IsReady(files: Files, c: Contract) {
    forall g, m :: c.Has(g, m) ==> StandsReady(files, m)
  }

  lemma ReadyExactly(files: Files, c: Contract)
    ensures AllRevalidated(files, c) <==> IsReady(files, c)
    ensures AllVerified(files, c) <==> forall g, m :: c.Has(g, m) ==> StandsMoved(files, m)
  {
    hide MovingMembers;
    forall g, m | c.Has(g, m)
      ensures Revalidate(files, m) <==> StandsReady(files, m)
      ensures VerifyDestination(files, m) <==> StandsMoved(files, m)
    {
    }
    hide Revalidate, VerifyDestination, StandsReady, StandsMoved;
    assert forall g, m :: 0 <= g < |c.groups| && m in c.groups[g].Moving() ==> c.Has(g, m);
  }

  /** A fresh run that meets no fault writes its first line exactly when there is no journal
      and every moving member's approved file is at its source with its destination free.
      Where that fails, a fresh run is declined whatever faults it meets, and changes neither
      files nor journal. */
  lemma FreshRunStartsExactly(c: Contract, d: Disk, faults: seq<Fault>)
    ensures Execute(c, d, false, []).0.lines != d.lines <==> !d.HasJournal() && IsReady(d.files, c)
    ensures d.HasJournal() || !IsReady(d.files, c) ==>
              && Execute(c, d, false, faults).1 in {Refused, Crashed(false)}
              && Execute(c, d, false, faults).0.Durable() == d
  {
    hide RunGroups, AllRevalidated, IsReady, StateOf, Permuted, Printable, Readable, OnlyApproved, AllVerified;
    ReadyExactly(d.files, c);
    if !d.HasJournal() && IsReady(d.files, c) {
      var w := Begin(c, d, false, []).0;
      assert |w.lines| == 1;
      if !StateOf(w.entries).runCompleted {
        TermsPermit(c, false);
        RunGroupsEvolve(TermsOf(c, false), w, c, 0, StateOf(w.entries).completedGroups, 0, 0);
      }
    }
  }

  /** So the first run of a sound contract, undisturbed, carries it through exactly when every
      moving member's approved file is at its source with its destination free. */
  lemma FreshRunCompletesExactly(c: Contract, start: Files, directories: set<Location>)
    requires c.WellFormed() && c.DistinctPaths()
    ensures
      var (next, outcome) := Execute(c, Unjournaled(start, directories), false, []);
      && (outcome.Completed? <==> IsReady(start, c))
      && (outcome.Completed? ==> forall g, m :: c.Has(g, m) ==>
            && StandsMoved(next.files, m)
            && m.source in start && next.files[m.destination] == start[m.source])
  {
    hide Execute, AllRevalidated, IsReady, StateOf, Readable, AllVerified, Printable, StandsMoved, Contract.WellFormed,
      Contract.DistinctPaths;
    var d := Unjournaled(start, directories);
    ReadyExactly(start, c);
    T.NoLineIsReadable();
    T.StateOfBeginning(d.lines);
    T.NothingVouchedAgrees(c, start);
    T.QuietRunCompletesExactly(c, start, d);
    var (next, outcome) := Execute(c, d, false, []);
    ReadyExactly(next.files, c);
    if outcome.Completed? {
      FreshRunStartsExactly(c, d, []);
      MovedFromSource(c, start, directories);
    }
  }

  /** A member that a campaign from `start` leaves at its destination came from its source. */
  lemma MovedFromSource(c: Contract, start: Files, directories: set<Location>)
    requires c.WellFormed() && c.DistinctPaths()
    ensures
      var (next, outcome) := Execute(c, Unjournaled(start, directories), false, []);
      forall g, m :: c.Has(g, m) && StandsMoved(next.files, m) && next.lines != [] ==>
        m.source in start && next.files[m.destination] == start[m.source]
  {
    hide Execute, StateOf, MovingMembers;
    var d := Unjournaled(start, directories);
    var run := Run(false, []);
    var next := Execute(c, d, false, []).0.Durable();
    assert Campaign(c, d, [run]) == Campaign(c, next, []);
    T.CampaignIsSafe(c, start, directories, [run]);
  }

  lemma {:induction false} CampaignMovesApproved(c: Contract, d: Disk, runs: seq<Run>)
    ensures OnlyApproved(MovesOf(c), d.files, Campaign(c, d, runs).files)
    decreases |runs|
  {
    hide Execute, OnlyApproved, Permuted, JournalEvolves;
    if runs == [] {
      OnlyApprovedNot(MovesOf(c), d.files);
    } else {
      ExecuteEvolves(false, c, d, runs[0].resume, runs[0].faults);
      var next := Execute(c, d, runs[0].resume, runs[0].faults).0.Durable();
      CampaignMovesApproved(c, next, runs[1..]);
      OnlyApprovedTransitive(MovesOf(c), d.files, next.files, Campaign(c, next, runs[1..]).files);
    }
  }

  /** Some moving member has this place, and the file has the member's approved attributes. */
  ghost predicate IsOf(c: Contract, at: Location, file: File) {
    exists g, m :: c.Has(g, m) && (at == m.source || at == m.destination) && HasAttributes(file, m.fingerprint)
  }

  lemma ApprovedFor(c: Contract, at: Location, file: File)
    requires Approved(MovesOf(c), at, file)
    ensures IsOf(c, at, file)
  {
    hide HasAttributes, MovingMembers;
    var move :| move in MovesOf(c) && (at == move.from || at == move.to) && HasAttributes(file, move.fingerprint);
    var g, m :| 0 <= g < |c.groups| && m in c.groups[g].Moving() && MoveOf(m) == move;
    assert c.Has(g, m);
  }

  /** Over any runs of any contract: where the files at a place differ, what was there and what
      is there now has the attributes that were approved for a member with this place. */
  lemma OnlyApprovedFilesMove(c: Contract, d: Disk, runs: seq<Run>, at: Location)
    ensures
      var after := Campaign(c, d, runs).files;
      || (at in d.files && at in after && d.files[at] == after[at])
      || ((at in d.files ==> IsOf(c, at, d.files[at])) && (at in after ==> IsOf(c, at, after[at])))
  {
    hide Campaign, Approved, IsOf;
    CampaignMovesApproved(c, d, runs);
    var after := Campaign(c, d, runs).files;
    if !Keeps(d.files, after, at) {
      if at in d.files { ApprovedFor(c, at, d.files[at]); }
      if at in after { ApprovedFor(c, at, after[at]); }
    }
  }

  /** What a group moves to its destinations is below directories that exist. */
  lemma {:induction false} MovedIsReachable(w: ApplyWorld, group: string, todo: seq<Member>,
                                            completed: seq<Member>, moved: nat)
    ensures
      var p := MoveAll(w, group, todo, completed, moved);
      p.signal == Fine ==> forall m :: m in todo ==> IsReachable(p.world.directories, m.destination)
    decreases |todo|
  {
    hide Append, EnsureDirectories, VerifyDestination, Revalidate, IsReachable, Evolves;
    if todo != [] {
      var m := todo[0];
      EnsuredIsReachable(w, group, m.destination);
      var p := MoveOne(w, group, m, completed, moved);
      if p.signal == Fine {
        MoveAllExtends(p.world, group, todo[1..], p.completed, p.moved);
        MoveOneExtends(w, group, m, completed, moved);
        MovedIsReachable(p.world, group, todo[1..], p.completed, p.moved);
        MoreIsReachable(p.world.directories, MoveAll(p.world, group, todo[1..], p.completed, p.moved).world.directories, m.destination);
        MoreIsReachable(EnsureDirectories(w, group, Parents(m.destination)).0.directories, p.world.directories, m.destination);
      }
    }
  }

  lemma MoreIsReachable(fewer: set<Location>, more: set<Location>, at: Location)
    requires fewer <= more
    ensures IsReachable(fewer, at) ==> IsReachable(more, at)
  {
  }

  lemma MoveOneExtends(w: ApplyWorld, group: string, m: Member, completed: seq<Member>, moved: nat)
    ensures
      var p := MoveOne(w, group, m, completed, moved);
      p.signal == Fine ==> EnsureDirectories(w, group, Parents(m.destination)).0.directories <= p.world.directories
  {
    hide Append, EnsureDirectories, VerifyDestination, Revalidate;
    var w1 := EnsureDirectories(w, group, Parents(m.destination)).0;
    var w2 := Check(w1, Revalidate(w1.files, m)).0;
    AppendMakesNothing(w2, MemberStarted(MemberKey(group, m)));
    var w3 := RenameNoReplace(Append(w2, MemberStarted(MemberKey(group, m))).0, m.source, m.destination).0;
    AppendMakesNothing(Check(w3, VerifyDestination(w3.files, m)).0, MemberCompleted(MemberKey(group, m)));
  }

  lemma MoveAllExtends(w: ApplyWorld, group: string, todo: seq<Member>, completed: seq<Member>, moved: nat)
    ensures w.directories <= MoveAll(w, group, todo, completed, moved).world.directories
  {
    hide MoveAll;
    MoveAllEvolves(Terms(false, set m | m in todo :: MoveOf(m)), w, group, todo, completed, moved);
  }

  /** Rolling one member back takes five steps: a line, a look, the rename, a look and a line. It
      is reported as done exactly when its approved file is at the destination alone, the looks
      and the rename go well, and the process survives the lines. */
  lemma ReportedUndoneExactly(w: ApplyWorld, group: string, m: Member, failures: seq<Member>)
    ensures
      var u := UndoOne(w, group, m, failures);
      !u.halted && u.failures == failures <==>
        && StandsMoved(w.files, m)
        && FaultAt(w, 1) == FaultAt(w, 2) == FaultAt(w, 3) == Proceed
        && FaultAt(w, 0) != Stop && FaultAt(w, 4) != Stop
  {
    hide Append, Check, RenameNoReplace, Relocate, FaultAt, VerifyDestination, VerifySource, StandsMoved;
    var w1 := Append(w, RollbackStarted(MemberKey(group, m))).0;
    AppendMeets(w, RollbackStarted(MemberKey(group, m)));
    MovedIsVerified(w1.files, m);
    CheckMeets(w1, VerifyDestination(w1.files, m));
    var w2 := Check(w1, VerifyDestination(w1.files, m)).0;
    if VerifyDestination(w2.files, m) {
      MovedCanReturn(w2.files, m);
      RenameMeets(w2, m.destination, m.source);
      var w3 := RenameNoReplace(w2, m.destination, m.source).0;
      CheckMeets(w3, VerifySource(w3.files, m));
      AppendMeets(Check(w3, VerifySource(w3.files, m)).0, RollbackCompleted(MemberKey(group, m)));
    }
  }

  lemma MovedIsVerified(files: Files, m: Member)
    ensures VerifyDestination(files, m) <==> StandsMoved(files, m)
  {
  }

  lemma MovedCanReturn(files: Files, m: Member)
    requires VerifyDestination(files, m)
    ensures m.destination in files && m.source !in files && VerifySource(Relocate(files, m.destination, m.source), m)
  {
  }

  // ---------- what a completed run counts ----------

  /** Both counts so far, taken off a tally. */
  ghost predicate Counted(before: seq<Line>, moved: nat, recovered: nat, after: seq<Line>, moved': nat,
                          recovered': nat) {
    && TallyOf(after).announced - TallyOf(before).announced == moved' - moved
    && TallyOf(after).finished - TallyOf(before).finished == moved' - moved + recovered' - recovered
  }

  lemma {:induction false} SortCounts(w: ApplyWorld, group: string, state: JournalState, todo: seq<Member>,
                                      completed: seq<Member>, pending: seq<Member>, recovered: nat)
    ensures
      var r := Sort(w, group, state, todo, completed, pending, recovered);
      r.signal == Fine ==> Counted(w.lines, 0, recovered, r.world.lines, 0, r.recovered)
    decreases |todo|
  {
    hide Append, TallyOf, VerifyDestination, Holds;
    if todo != [] {
      var m := todo[0];
      var key := MemberKey(group, m);
      if key in state.completedMembers {
        var next := Check(w, VerifyDestination(w.files, m)).0;
        SortCounts(next, group, state, todo[1..], completed + [m], pending, recovered);
      } else if key in state.startedMembers && m.source !in w.files {
        var (w1, s1) := Check(w, Holds(w.files, m.destination, m.fingerprint));
        if s1 == Raised {
          SortCounts(w1, group, state, todo[1..], completed, pending + [m], recovered);
        } else {
          TallyNext(w1, MemberCompleted(key));
          SortCounts(Append(w1, MemberCompleted(key)).0, group, state, todo[1..], completed + [m], pending, recovered + 1);
        }
      } else {
        SortCounts(w, group, state, todo[1..], completed, pending + [m], recovered);
      }
    }
  }

  lemma {:induction false} MoveAllCounts(w: ApplyWorld, group: string, todo: seq<Member>, completed: seq<Member>,
                                         moved: nat)
    ensures
      var p := MoveAll(w, group, todo, completed, moved);
      p.signal == Fine ==> Counted(w.lines, moved, 0, p.world.lines, p.moved, 0)
    decreases |todo|
  {
    hide Append, TallyOf, VerifyDestination, Revalidate, EnsureDirectories;
    if todo == [] {
      TallyNext(w, GroupCompleted(group));
    } else {
      var m := todo[0];
      var key := MemberKey(group, m);
      DirectoriesTally(w, group, Parents(m.destination));
      var w1 := EnsureDirectories(w, group, Parents(m.destination)).0;
      var w2 := Check(w1, Revalidate(w1.files, m)).0;
      TallyNext(w2, MemberStarted(key));
      var w4 := RenameNoReplace(Append(w2, MemberStarted(key)).0, m.source, m.destination).0;
      TallyNext(Check(w4, VerifyDestination(w4.files, m)).0, MemberCompleted(key));
      var p := MoveOne(w, group, m, completed, moved);
      if p.signal == Fine {
        MoveAllCounts(p.world, group, todo[1..], p.completed, p.moved);
      }
    }
  }

  lemma RunGroupCounts(w: ApplyWorld, g: Group, moved: nat, recovered: nat)
    ensures
      var r := RunGroup(w, g, moved, recovered);
      if r.GoOn? then Counted(w.lines, moved, recovered, r.world.lines, r.moved, r.recovered) else !r.outcome.Completed?
  {
    hide Append, TallyOf, Sort, MoveAll, UndoAll, StateOf, Revalidate;
    var sorting := Sort(w, g.id, StateOf(w.entries), g.Moving(), [], [], recovered);
    SortCounts(w, g.id, StateOf(w.entries), g.Moving(), [], [], recovered);
    TallyNext(sorting.world, GroupStarted(g.id));
    var w1 := Append(sorting.world, GroupStarted(g.id)).0;
    var next := Check(w1, forall m | m in sorting.pending :: Revalidate(w1.files, m)).0;
    MoveAllCounts(next, g.id, sorting.pending, sorting.completed, moved);
  }

  lemma {:induction false} RunGroupsCount(w: ApplyWorld, c: Contract, i: nat, done: set<string>, moved: nat,
                                          recovered: nat)
    requires i <= |c.groups|
    ensures
      var (next, outcome) := RunGroups(w, c, i, done, moved, recovered);
      outcome.Completed? ==> Counted(w.lines, moved, recovered, next.lines, outcome.moved, outcome.recovered)
    decreases |c.groups| - i
  {
    hide Append, TallyOf, RunGroup, AllVerified, VerifyDestination;
    if i == |c.groups| {
      TallyNext(Check(w, AllVerified(w.files, c)).0, RunCompleted);
    } else {
      var g := c.groups[i];
      if g.id in done {
        RunGroupsCount(Check(w, forall m | m in g.Moving() :: VerifyDestination(w.files, m)).0, c, i + 1, done, moved, recovered);
      } else {
        RunGroupCounts(w, g, moved, recovered);
        var r := RunGroup(w, g, moved, recovered);
        if r.GoOn? {
          RunGroupsCount(r.world, c, i + 1, done + {g.id}, r.moved, r.recovered);
        }
      }
    }
  }

  /** A completed run of any contract, whatever faults it met, counts as moved the members
      that it announced, and as recovered the others that it recorded as being in place. */
  lemma CountsAreExact(c: Contract, d: Disk, resume: bool, faults: seq<Fault>)
    ensures
      var (next, outcome) := Execute(c, d, resume, faults);
      outcome.Completed? ==>
        && TallyOf(next.lines).announced == TallyOf(d.lines).announced + outcome.moved
        && TallyOf(next.lines).finished == TallyOf(d.lines).finished + outcome.moved + outcome.recovered
  {
    hide Append, RunGroups, AllVerified, AllRevalidated, StateOf, Readable, TallyOf;
    var (w, signal) := Begin(c, d, resume, faults);
    TallyNext(Check(Launch(d, faults), !d.HasJournal() && AllRevalidated(d.files, c)).0, RunStarted);
    if signal == Fine && !StateOf(w.entries).runCompleted {
      RunGroupsCount(w, c, 0, StateOf(w.entries).completedGroups, 0, 0);
    }
  }

  lemma {:induction false} CompletedSays(w: ApplyWorld, c: Contract, i: nat, done: set<string>, moved: nat,
                                         recovered: nat)
    requires i <= |c.groups|
    ensures
      var (next, outcome) := RunGroups(w, c, i, done, moved, recovered);
      outcome.Completed? ==> Lasts(next.lines, RunCompleted, {})
    decreases |c.groups| - i
  {
    hide AllVerified, Sort, TryGroup, UndoAll, MovingMembers, StateOf, VerifyDestination, Lasts, Breaks;
    if i < |c.groups| {
      var g := c.groups[i];
      if g.id in done {
        CompletedSays(Check(w, forall m | m in g.Moving() :: VerifyDestination(w.files, m)).0, c, i + 1, done, moved, recovered);
      } else {
        var r := RunGroup(w, g, moved, recovered);
        if r.GoOn? { CompletedSays(r.world, c, i + 1, done + {g.id}, r.moved, r.recovered); }
      }
    } else {
      LastsNext(w.lines, Line(|w.entries| + 1, RunCompleted), RunCompleted, {});
    }
  }

  /** Every completed run has recorded that it is. */
  lemma CompletedRunIsRecorded(c: Contract, d: Disk, resume: bool, faults: seq<Fault>)
    ensures
      var (next, outcome) := Execute(c, d, resume, faults);
      outcome.Completed? ==> Lasts(next.lines, RunCompleted, {})
  {
    hide RunGroups, AllVerified, AllRevalidated, StateOf, Lasts, Readable, Printable;
    var (w, signal) := Begin(c, d, resume, faults);
    if signal == Fine {
      BeginEvolves(TermsOf(c, false), c, d, resume, faults);
      I.RunExactly(w.lines);
      if !StateOf(w.entries).runCompleted {
        CompletedSays(w, c, 0, StateOf(w.entries).completedGroups, 0, 0);
      }
    }
  }

  /** A run of any contract that reports completion leaves every moving member's approved file
      at its destination and nothing at its source. */
  lemma CompletedRunIsWhole(c: Contract, d: Disk, resume: bool, faults: seq<Fault>)
    ensures
      var (next, outcome) := Execute(c, d, resume, faults);
      outcome.Completed? ==> forall g, m :: c.Has(g, m) ==> StandsMoved(next.files, m)
  {
    hide RunGroups, AllVerified, Begin, StateOf, StandsMoved;
    var (w, signal) := Begin(c, d, resume, faults);
    var (next, outcome) := Execute(c, d, resume, faults);
    if signal == Fine && !StateOf(w.entries).runCompleted {
      T.CompletedVerifies(w, c, 0, StateOf(w.entries).completedGroups, 0, 0);
    }
    ReadyExactly(next.files, c);
  }
}
