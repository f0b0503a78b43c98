/** What quarantine and restore require of the files and do to them, stated in the attributes
    of the files: for every plan, sound or not, and for every sequence of faults. */
module QuarantineApproval {
  import opened MediaStore
  import opened QuarantineModel
  import opened QuarantineExecution
  import opened QuarantineInvariant
  import opened QuarantineConservation
  import opened JournalFacts
  import R = QuarantineRestore
  import RC = RestoreConservation

  /** The loser's approved file is at home, and nothing in its place in quarantine. */
  ghost predicate StandsHome(files: Files, m: Loser) {
    Stands(files, m.source, m.fingerprint) && m.quarantine !in files
  }

  ghost predicate StandsAway(files: Files, m: Loser) {
    Stands(files, m.quarantine, m.fingerprint) && m.source !in files
  }

  ghost predicate StandsNowhere(files: Files, m: Loser) {
    m.source !in files && m.quarantine !in files
  }

  /** Every winner's approved file is organized; every loser's is at home, or nothing is at
      either of its places. */
  ghost predicate IsReady(files: Files, p: Plan) {
    && (forall g :: 0 <= g < |p.groups| ==> StandsOrganized(files, p.groups[g].winner))
    && (forall g, m :: p.Has(g, m) ==> StandsHome(files, m) || StandsNowhere(files, m))
  }

  lemma ReadyExactly(files: Files, p: Plan)
    ensures MayStart(files, p) <==> IsReady(files, p)
  {
    if MayStart(files, p) {
      forall g, m | p.Has(g, m)
        ensures StandsHome(files, m) || StandsNowhere(files, m)
      {
        assert StateOfLoser(files, m) == AtHome || StateOfLoser(files, m) == AlreadyAbsent;
      }
    }
    if IsReady(files, p) {
      forall g, m | 0 <= g < |p.groups| && m in p.groups[g].members
        ensures StateOfLoser(files, m) == AtHome || StateOfLoser(files, m) == AlreadyAbsent
      {
        assert p.Has(g, m);
      }
    }
  }

  lemma HoldingExactly(files: Files, p: Plan, allowAbsent: bool)
    ensures AllHold(files, p, allowAbsent) <==>
            && (forall g :: 0 <= g < |p.groups| ==> StandsOrganized(files, p.groups[g].winner))
            && (forall g, m :: p.Has(g, m) ==> StandsAway(files, m) || (allowAbsent && StandsNowhere(files, m)))
  {
    if AllHold(files, p, allowAbsent) {
      forall g, m | p.Has(g, m)
        ensures StandsAway(files, m) || (allowAbsent && StandsNowhere(files, m))
      {
        assert GroupHolds(files, p.groups[g], allowAbsent);
      }
      forall g | 0 <= g < |p.groups|
        ensures StandsOrganized(files, p.groups[g].winner)
      {
        assert GroupHolds(files, p.groups[g], allowAbsent);
      }
    }
    if forall g, m :: p.Has(g, m) ==> StandsAway(files, m) || (allowAbsent && StandsNowhere(files, m)) {
      forall g, m | 0 <= g < |p.groups| && m in p.groups[g].members
        ensures StateOfLoser(files, m) == Quarantined || (allowAbsent && StateOfLoser(files, m) == AlreadyAbsent)
      {
        assert p.Has(g, m);
      }
    }
  }

  /** A fresh run that meets no fault writes its first line exactly when there is no journal,
      every winner's approved file is organized and no loser has anything else at its places
      than its approved file at home. Where that fails, a fresh run is declined whatever
      faults it meets, and changes neither files nor journal. */
  lemma FreshRunStartsExactly(p: Plan, d: Disk, faults: seq<Fault>)
    ensures Execute(p, d, false, []).0.lines != d.lines <==> !d.HasJournal() && IsReady(d.files, p)
    ensures d.HasJournal() || !IsReady(d.files, p) ==>
              && Execute(p, d, false, faults).1 in {Refused, Crashed(false)}
              && Execute(p, d, false, faults).0.Durable() == d
  {
    hide RunGroups, MayStart, IsReady, StateOf, Permuted, Printable, Readable, OnlyApproved, AllHold;
    ReadyExactly(d.files, p);
    if !d.HasJournal() && IsReady(d.files, p) {
      ExecuteEvolves(false, p, d, false, []);
      var w := Begin(p, d, false, []).0;
      assert |w.lines| == 1;
      if !StateOf(w.entries).runCompleted {
        TermsPermit(p, false);
        RunGroupsEvolve(TermsOf(p, false), w, p, 0, StateOf(w.entries).completedGroups, 0, 0);
      }
    }
  }

  /** What a resume finds of a group before it moves any of its losers: a group recorded as
      complete is whole, and the winner of any other stands organized. */
  ghost predicate MayResume(files: Files, g: LoserGroup, done: set<string>) {
    && StandsOrganized(files, g.winner)
    && (g.id in done ==> forall m :: m in g.members ==> StandsAway(files, m))
  }

  lemma {:induction false} RunGroupsDecline(w: QuarantineWorld, p: Plan, i: nat, done: set<string>, moved: nat,
                                            recovered: nat, k: nat)
    requires i <= k < |p.groups| && !MayResume(w.files, p.groups[k], done)
    requires forall j :: i <= j < k ==> p.groups[j].id in done
    ensures
      var (next, outcome) := RunGroups(w, p, i, done, moved, recovered);
      outcome in {Refused, Crashed(false)} && next.Durable() == w.Durable()
    decreases k - i
  {
    hide RunGroup, StateOfWinner, StateOfLoser;
    var g := p.groups[i];
    assert GroupHolds(w.files, g, false) <==> MayResume(w.files, g, done + {g.id}) by { GroupHoldsExactly(w.files, g); }
    assert StateOfWinner(w.files, g.winner) == Organized <==> StandsOrganized(w.files, g.winner) by { GroupHoldsExactly(w.files, g); }
    if g.id in done && i < k {
      RunGroupsDecline(Check(w, GroupHolds(w.files, g, false)).0, p, i + 1, done, moved, recovered, k);
    }
  }

  lemma GroupHoldsExactly(files: Files, g: LoserGroup)
    ensures StateOfWinner(files, g.winner) == Organized <==> StandsOrganized(files, g.winner)
    ensures GroupHolds(files, g, false) <==>
              StandsOrganized(files, g.winner) && forall m :: m in g.members ==> StandsAway(files, m)
  {
  }

  /** A resume of any plan stops before the first group that it would have to work on, or finds
      recorded as complete, whose winner does not stand organized; it has changed nothing. */
  lemma ResumeNeedsWinners(p: Plan, d: Disk, faults: seq<Fault>, k: nat)
    requires k < |p.groups| && !StateOf(d.lines).runCompleted
    requires !MayResume(d.files, p.groups[k], StateOf(d.lines).completedGroups)
    requires forall j :: 0 <= j < k ==> p.groups[j].id in StateOf(d.lines).completedGroups
    ensures Execute(p, d, true, faults).1 in {Refused, Crashed(false)} && Execute(p, d, true, faults).0.Durable() == d
  {
    hide RunGroups, StateOf, MayResume;
    var (w, signal) := Begin(p, d, true, faults);
    if signal == Fine {
      RunGroupsDecline(w, p, 0, StateOf(w.entries).completedGroups, 0, 0, k);
    }
  }

  lemma {:induction false} CampaignMovesApproved(p: Plan, d: Disk, runs: seq<Run>)
    ensures OnlyApproved(MovesOf(p), d.files, Campaign(p, d, runs).files)
    decreases |runs|
  {
    hide Execute, OnlyApproved, Permuted, JournalEvolves;
    if runs == [] {
      OnlyApprovedNot(MovesOf(p), d.files);
    } else {
      ExecuteEvolves(false, p, d, runs[0].resume, runs[0].faults);
      var next := Execute(p, d, runs[0].resume, runs[0].faults).0.Durable();
      CampaignMovesApproved(p, next, runs[1..]);
      OnlyApprovedTransitive(MovesOf(p), d.files, next.files, Campaign(p, next, runs[1..]).files);
    }
  }

  /** What was at a place and what is there now has the attributes that were approved for a
      loser with this place, unless it is the same file. */
  ghost predicate ChangedAsApproved(p: Plan, before: Files, after: Files, at: Location) {
    || (at in before && at in after && before[at] == after[at])
    || ((at in before ==> IsOf(p, at, before[at])) && (at in after ==> IsOf(p, at, after[at])))
  }

  /** Some loser has this place, and the file has the loser's approved attributes. */
  ghost predicate IsOf(p: Plan, at: Location, file: File) {
    exists g, m :: p.Has(g, m) && (at == m.source || at == m.quarantine) && HasAttributes(file, m.fingerprint)
  }

  lemma ApprovedFor(p: Plan, at: Location, file: File)
    requires Approved(MovesOf(p), at, file)
    ensures IsOf(p, at, file)
  {
    hide HasAttributes;
    var move :| move in MovesOf(p) && (at == move.from || at == move.to) && HasAttributes(file, move.fingerprint);
    var g, m :| 0 <= g < |p.groups| && m in p.groups[g].members && MoveOf(m) == move;
    assert p.Has(g, m);
  }

  lemma OnlyApprovedMeans(p: Plan, before: Files, after: Files, at: Location)
    requires OnlyApproved(MovesOf(p), before, after)
    ensures ChangedAsApproved(p, before, after, at)
  {
    hide Approved, IsOf;
    if !Keeps(before, after, at) {
      if at in before { ApprovedFor(p, at, before[at]); }
      if at in after { ApprovedFor(p, at, after[at]); }
    }
  }

  /** Over any runs of any plan, a quarantine takes away and puts down only files with the
      attributes that were approved for the place. */
  lemma OnlyApprovedFilesMove(p: Plan, d: Disk, runs: seq<Run>, at: Location)
    ensures ChangedAsApproved(p, d.files, Campaign(p, d, runs).files, at)
  {
    hide Campaign, OnlyApproved, ChangedAsApproved;
    CampaignMovesApproved(p, d, runs);
    OnlyApprovedMeans(p, d.files, Campaign(p, d, runs).files, at);
  }

  lemma {:induction false} CompletedHolds(w: QuarantineWorld, p: Plan, i: nat, done: set<string>, moved: nat,
                                          recovered: nat)
    requires i <= |p.groups|
    ensures
      var (next, outcome) := RunGroups(w, p, i, done, moved, recovered);
      outcome.Completed? ==> AllHold(next.files, p, false)
    decreases |p.groups| - i
  {
    hide AllHold, GroupHolds, StateOfWinner, Sort, TryGroup, UndoAll, StateOf, StateOfLoser;
    if i < |p.groups| {
      var g := p.groups[i];
      if g.id in done {
        CompletedHolds(Check(w, GroupHolds(w.files, g, false)).0, p, i + 1, done, moved, recovered);
      } else {
        var r := RunGroup(Check(w, StateOfWinner(w.files, g.winner) == Organized).0, g, moved, recovered);
        if r.GoOn? { CompletedHolds(r.world, p, i + 1, done + {g.id}, r.moved, r.recovered); }
      }
    }
  }

  /** A run of any plan that reports completion, a resume of a completed one included, finds
      every winner's approved file organized and every loser's in quarantine; only such a
      resume lets a loser be at neither place. */
  lemma CompletedRunIsWhole(p: Plan, d: Disk, resume: bool, faults: seq<Fault>)
    ensures
      var (next, outcome) := Execute(p, d, resume, faults);
      outcome.Completed? ==>
        && (forall g :: 0 <= g < |p.groups| ==> StandsOrganized(next.files, p.groups[g].winner))
        && (forall g, m :: p.Has(g, m) ==>
              StandsAway(next.files, m) || (resume && StateOf(d.lines).runCompleted && StandsNowhere(next.files, m)))
  {
    hide RunGroups, AllHold, MayStart, StateOf, StandsAway, StandsNowhere, StandsOrganized, Disk.IsReadable, Append;
    var (w, signal) := Begin(p, d, resume, faults);
    var (next, outcome) := Execute(p, d, resume, faults);
    HoldingExactly(next.files, p, false);
    HoldingExactly(next.files, p, true);
    if signal == Fine {
      if !StateOf(w.entries).runCompleted {
        CompletedHolds(w, p, 0, StateOf(w.entries).completedGroups, 0, 0);
      } else if !resume {
        FreshIsNotCompleted(p, d, faults);
      }
    }
  }

  lemma FreshIsNotCompleted(p: Plan, d: Disk, faults: seq<Fault>)
    ensures
      var (w, signal) := Begin(p, d, false, faults);
      signal == Fine ==> !StateOf(w.entries).runCompleted
  {
    hide MayStart, StateOf;
    StateOfAppend([], Line(1, RunStarted));
    StateOfNothing();
    assert [] + [Line(1, RunStarted)] == [Line(1, RunStarted)];
  }

  /** What a group moves into quarantine is below directories that exist. */
  lemma {:induction false} MovedIsReachable(w: QuarantineWorld, group: string, todo: seq<Loser>, moved: seq<Loser>)
    ensures
      var p := MoveAll(w, group, todo, moved);
      p.signal == Fine ==> forall m :: m in todo ==> IsReachable(p.world.directories, m.quarantine)
    decreases |todo|
  {
    hide Append, EnsureDirectories, StateOfLoser, IsReachable, Evolves;
    if todo != [] {
      var m := todo[0];
      EnsuredIsReachable(w, group, m.quarantine);
      var p := MoveOne(w, group, m, moved);
      if p.signal == Fine {
        MoveAllEvolves(TermsFor(todo[1..]), p.world, group, todo[1..], p.moved);
        MoveOneExtends(w, group, m, moved);
        MovedIsReachable(p.world, group, todo[1..], p.moved);
        var end := MoveAll(p.world, group, todo[1..], p.moved).world;
        assert p.world.directories <= end.directories by { DirectoriesOnlyGrow(TermsFor(todo[1..]), p.world, end); }
        MoreIsReachable(p.world.directories, end.directories, m.quarantine);
        MoreIsReachable(EnsureDirectories(w, group, Parents(m.quarantine)).0.directories, p.world.directories, m.quarantine);
      }
    }
  }

  lemma DirectoriesOnlyGrow(t: Terms, before: QuarantineWorld, after: QuarantineWorld)
    requires Evolves(t, before, after)
    ensures before.directories <= after.directories
  {
  }

  lemma MoreIsReachable(fewer: set<Location>, more: set<Location>, at: Location)
    requires fewer <= more
    ensures IsReachable(fewer, at) ==> IsReachable(more, at)
  {
  }

  lemma MoveOneExtends(w: QuarantineWorld, group: string, m: Loser, moved: seq<Loser>)
    ensures
      var p := MoveOne(w, group, m, moved);
      p.signal == Fine ==> EnsureDirectories(w, group, Parents(m.quarantine)).0.directories <= p.world.directories
  {
    hide Append, EnsureDirectories, StateOfLoser;
    var key := KeyOf(group, m);
    var w1 := EnsureDirectories(w, group, Parents(m.quarantine)).0;
    AppendMakesNothing(w1, MemberStarted(key));
    var w2 := Append(w1, MemberStarted(key)).0;
    var w3 := RenameNoReplace(Check(w2, StateOfLoser(w2.files, m) == AtHome).0, m.source, m.quarantine).0;
    AppendMakesNothing(Check(w3, StateOfLoser(w3.files, m) == Quarantined).0, MemberCompleted(key));
  }

  /** Putting one loser back takes five steps: a look, a line, the rename, a look and a line. It
      is reported as done exactly when its approved file is in quarantine alone and all five go
      well. */
  lemma ReportedUndoneExactly(w: QuarantineWorld, group: string, m: Loser, failures: seq<Loser>)
    ensures
      var u := UndoOne(w, group, m, failures);
      !u.halted && u.failures == failures <==>
        && StandsAway(w.files, m)
        && FaultAt(w, 0) == FaultAt(w, 1) == FaultAt(w, 2) == FaultAt(w, 3) == FaultAt(w, 4) == Proceed
  {
    hide Breaks, Shape.Extended, Shape.CutShort;
  }

  // ---------- restore ----------

  lemma RestoredExactly(files: Files, p: Plan)
    ensures R.AllAre(files, p, R.ToRestore) <==> forall g, m :: p.Has(g, m) ==> StandsAway(files, m)
    ensures R.AllAre(files, p, R.Restored) <==> forall g, m :: p.Has(g, m) ==> StandsHome(files, m) || StandsNowhere(files, m)
  {
    forall g, m | p.Has(g, m)
      ensures R.StateOfRestore(files, m) == R.ToRestore <==> StandsAway(files, m)
      ensures R.StateOfRestore(files, m) == R.Restored <==> StandsHome(files, m) || StandsNowhere(files, m)
    {
    }
    hide R.StateOfRestore, StandsAway, StandsHome, StandsNowhere;
    assert forall g, m :: 0 <= g < |p.groups| && m in p.groups[g].members ==> p.Has(g, m);
  }

  /** The journal's lines are whole, numbered and not run together, and say that the run is
      complete, that exactly the groups of the plan are, and exactly its losers. */
  ghost predicate RecordsAll(p: Plan, approved: JournalFile) {
    var lines := approved.lines;
    && approved.shape != Garbled && lines != []
    && (forall i :: 0 <= i < |lines| ==> lines[i].Line? && lines[i].sequence == i + 1)
    && Lasts(lines, RunCompleted, {})
    && (forall id :: Lasts(lines, GroupCompleted(id), {}) <==> exists g :: 0 <= g < |p.groups| && p.groups[g].id == id)
    && (forall key :: Lasts(lines, MemberCompleted(key), {RollbackCompleted(key)}) <==>
          exists g, m :: p.Has(g, m) && key == LoserKey(p.groups[g].id, m.sourceKey))
  }

  lemma RecordsExactly(p: Plan, approved: JournalFile)
    ensures R.DescribesCompletedRun(p, approved) <==> RecordsAll(p, approved)
  {
    hide StateOf, Lasts;
    var s := StateOf(approved.lines);
    RunExactly(approved.lines);
    forall id
      ensures id in s.completedGroups <==> Lasts(approved.lines, GroupCompleted(id), {})
      ensures id in GroupIds(p) <==> exists g :: 0 <= g < |p.groups| && p.groups[g].id == id
    {
      FinishedExactly(approved.lines, id);
    }
    forall key
      ensures key in s.completedMembers <==> Lasts(approved.lines, MemberCompleted(key), {RollbackCompleted(key)})
      ensures key in R.AllKeys(p) <==> exists g, m :: p.Has(g, m) && key == LoserKey(p.groups[g].id, m.sourceKey)
    {
      CompletedExactly(approved.lines, key);
      KeysAre(p, key);
    }
    hide R.AllKeys, GroupIds;
    assert s.completedGroups == GroupIds(p) <==> forall id :: id in s.completedGroups <==> id in GroupIds(p);
    assert s.completedMembers == R.AllKeys(p) <==> forall key :: key in s.completedMembers <==> key in R.AllKeys(p);
  }

  lemma KeysAre(p: Plan, key: Key)
    ensures key in R.AllKeys(p) <==> exists g, m :: p.Has(g, m) && key == LoserKey(p.groups[g].id, m.sourceKey)
  {
    if g, m :| p.Has(g, m) && key == LoserKey(p.groups[g].id, m.sourceKey) {
      assert 0 <= g < |p.groups| && m in p.groups[g].members && KeyOf(p.groups[g].id, m) == key;
    }
    if key in R.AllKeys(p) {
      var g, m :| 0 <= g < |p.groups| && m in p.groups[g].members && KeyOf(p.groups[g].id, m) == key;
      assert p.Has(g, m);
    }
  }

  /** The same of a fresh restore: it starts exactly when the approved journal records a
      completed quarantine, there is no restore journal, and every loser's approved file is
      in quarantine with nothing at home. */
  lemma FreshRestoreStartsExactly(p: Plan, approved: JournalFile, d: Disk, faults: seq<Fault>)
    ensures R.Execute(p, approved, d, false, []).0.lines != d.lines <==>
            && RecordsAll(p, approved)
            && !d.HasJournal()
            && forall g, m :: p.Has(g, m) ==> StandsAway(d.files, m)
    ensures !RecordsAll(p, approved) || d.HasJournal() || !(forall g, m :: p.Has(g, m) ==> StandsAway(d.files, m)) ==>
              && R.Execute(p, approved, d, false, faults).1 in {R.Refused, R.Crashed}
              && R.Execute(p, approved, d, false, faults).0.Durable() == d
  {
    hide R.RunGroups, R.AllAre, R.DescribesCompletedRun, StateOf, Permuted, Printable, Readable, OnlyApproved,
      StandsAway, RecordsAll;
    RecordsExactly(p, approved);
    RestoredExactly(d.files, p);
    var w := R.Begin(p, approved, d, false, []).0;
    if R.Begin(p, approved, d, false, []).1 == Fine && !StateOf(w.entries).runCompleted {
      assert |w.lines| == 1;
      RC.TermsPermit(p, false);
      RC.RunGroupsEvolve(TermsOf(p, false), w, p, |p.groups|, StateOf(w.entries).completedGroups, 0, 0);
    }
  }

  lemma {:induction false} RestoreMovesApproved(p: Plan, approved: JournalFile, d: Disk, runs: seq<Run>)
    ensures OnlyApproved(MovesOf(p), d.files, R.Campaign(p, approved, d, runs).files)
    decreases |runs|
  {
    hide R.Execute, OnlyApproved, Permuted, JournalEvolves;
    if runs == [] {
      OnlyApprovedNot(MovesOf(p), d.files);
    } else {
      RC.ExecuteEvolves(false, p, approved, d, runs[0].resume, runs[0].faults);
      var next := R.Execute(p, approved, d, runs[0].resume, runs[0].faults).0.Durable();
      RestoreMovesApproved(p, approved, next, runs[1..]);
      OnlyApprovedTransitive(MovesOf(p), d.files, next.files, R.Campaign(p, approved, next, runs[1..]).files);
    }
  }

  /** Nor does a restore move anything else. */
  lemma OnlyApprovedFilesReturn(p: Plan, approved: JournalFile, d: Disk, runs: seq<Run>, at: Location)
    ensures ChangedAsApproved(p, d.files, R.Campaign(p, approved, d, runs).files, at)
  {
    hide R.Campaign, OnlyApproved, ChangedAsApproved;
    RestoreMovesApproved(p, approved, d, runs);
    OnlyApprovedMeans(p, d.files, R.Campaign(p, approved, d, runs).files, at);
  }

  lemma {:induction false} CompletedIsRestored(w: QuarantineWorld, p: Plan, i: nat, done: set<string>, restored: nat,
                                               recovered: nat)
    requires i <= |p.groups|
    ensures
      var (next, outcome) := R.RunGroups(w, p, i, done, restored, recovered);
      outcome.Completed? ==> R.AllAre(next.files, p, R.Restored)
    decreases i
  {
    hide R.AllAre, R.Sort, R.RestoreAll, R.StateOfRestore, StateOf;
    if i > 0 {
      var g := p.groups[i - 1];
      if g.id in done {
        var holds := forall m | m in g.members :: R.StateOfRestore(w.files, m) == R.Restored;
        CompletedIsRestored(Check(w, holds).0, p, i - 1, done, restored, recovered);
      } else {
        var r := R.RunGroup(w, g, restored, recovered);
        if r.GoOn? { CompletedIsRestored(r.world, p, i - 1, done + {g.id}, r.restored, r.recovered); }
      }
    }
  }

  /** A group that cannot be restored is recorded as failed, if the line can be written. */
  lemma FailedRestoreIsRecorded(w: QuarantineWorld, g: LoserGroup, restored: nat, recovered: nat)
    ensures
      var sorting := R.Sort(w, g.id, StateOf(w.entries), g.members, [], recovered);
      var (w1, s1) := Append(sorting.world, GroupStarted(g.id));
      var t := R.RestoreAll(w1, g.id, sorting.pending, restored);
      sorting.signal == Fine && s1 == Fine && t.signal == Raised ==>
        var r := R.RunGroup(w, g, restored, recovered);
        && r == R.End(r.world, if FaultAt(t.world, 0) == Stop then R.Crashed else R.Interrupted(g.id))
        && (FaultAt(t.world, 0) == Proceed ==> r.world.lines == t.world.lines + [Line(|t.world.entries| + 1, GroupFailed(g.id))])
  {
    hide R.Sort, R.RestoreAll, StateOf, Breaks;
  }

  /** Every completed restore has recorded that it is. */
  lemma {:induction false} CompletedRestoreSays(w: QuarantineWorld, p: Plan, i: nat, done: set<string>, restored: nat,
                                                recovered: nat)
    requires i <= |p.groups|
    ensures
      var (next, outcome) := R.RunGroups(w, p, i, done, restored, recovered);
      outcome.Completed? ==> Lasts(next.lines, RunCompleted, {})
    decreases i
  {
    hide R.AllAre, R.Sort, R.RestoreAll, R.StateOfRestore, StateOf, Lasts, Breaks;
    if i > 0 {
      var g := p.groups[i - 1];
      if g.id in done {
        var holds := forall m | m in g.members :: R.StateOfRestore(w.files, m) == R.Restored;
        CompletedRestoreSays(Check(w, holds).0, p, i - 1, done, restored, recovered);
      } else {
        var r := R.RunGroup(w, g, restored, recovered);
        if r.GoOn? { CompletedRestoreSays(r.world, p, i - 1, done + {g.id}, r.restored, r.recovered); }
      }
    } else {
      LastsNext(w.lines, Line(|w.entries| + 1, RunCompleted), RunCompleted, {});
    }
  }

  lemma CompletedRestoreIsRecorded(p: Plan, approved: JournalFile, d: Disk, resume: bool, faults: seq<Fault>)
    ensures
      var (next, outcome) := R.Execute(p, approved, d, resume, faults);
      outcome.Completed? ==> Lasts(next.lines, RunCompleted, {})
  {
    hide R.RunGroups, R.AllAre, R.DescribesCompletedRun, StateOf, Lasts, Readable, Printable;
    var (w, signal) := R.Begin(p, approved, d, resume, faults);
    if signal == Fine {
      RC.BeginEvolves(TermsOf(p, false), p, approved, d, resume, faults);
      RunExactly(w.lines);
      if !StateOf(w.entries).runCompleted {
        CompletedRestoreSays(w, p, |p.groups|, StateOf(w.entries).completedGroups, 0, 0);
      }
    }
  }

  /** A restore of any plan that reports completion leaves every loser's approved file at home
      and nothing in quarantine, or nothing at either place. */
  lemma CompletedRestoreIsWhole(p: Plan, approved: JournalFile, d: Disk, resume: bool, faults: seq<Fault>)
    ensures
      var (next, outcome) := R.Execute(p, approved, d, resume, faults);
      outcome.Completed? ==> forall g, m :: p.Has(g, m) ==> StandsHome(next.files, m) || StandsNowhere(next.files, m)
  {
    hide R.RunGroups, R.AllAre, R.Begin, StateOf, StandsHome, StandsNowhere;
    var (w, signal) := R.Begin(p, approved, d, resume, faults);
    var (next, outcome) := R.Execute(p, approved, d, resume, faults);
    if signal == Fine && !StateOf(w.entries).runCompleted {
      CompletedIsRestored(w, p, |p.groups|, StateOf(w.entries).completedGroups, 0, 0);
    }
    RestoredExactly(next.files, p);
  }
}
