/** Quarantine as it runs: loops that update the volume, the journal and the work lists in
    place, each tied to the function it computes. */
module QuarantineMachine {
  import opened MediaStore
  import opened JournalDevice
  import opened QuarantineModel
  import opened QuarantineExecution

  type QuarantineLog = Journal

  /** `_journal_state`, shared by the quarantine and the restore journal. */
  method State(entries: seq<Line>) returns (state: JournalState)
    ensures state == StateOf(entries)
  {
    var completedGroups: set<string>, completedMembers: set<Key>, startedMembers: set<Key> := {}, {}, {};
    var runCompleted := false;
    for i := 0 to |entries|
      invariant JournalState(completedGroups, completedMembers, startedMembers, runCompleted) == StateOf(entries[..i])
    {
      StateOfAppend(entries[..i], entries[i]);
      assert entries[..i + 1] == entries[..i] + [entries[i]];
      match entries[i] {
        case Line(_, MemberStarted(key)) =>
          startedMembers := startedMembers + {key};
        case Line(_, MemberCompleted(key)) =>
          completedMembers := completedMembers + {key};
          startedMembers := startedMembers - {key};
        case Line(_, RollbackCompleted(key)) =>
          completedMembers := completedMembers - {key};
          startedMembers := startedMembers - {key};
        case Line(_, GroupCompleted(group)) =>
          completedGroups := completedGroups + {group};
        case Line(_, RunCompleted) =>
          runCompleted := true;
        case _ =>
      }
    }
    assert entries[..|entries|] == entries;
    state := JournalState(completedGroups, completedMembers, startedMembers, runCompleted);
  }

  method SortMembers(journal: QuarantineLog, group: string, members: seq<Loser>, recovered: nat)
      returns (signal: Signal, pending: seq<Loser>, recovered': nat)
    modifies journal, journal.volume
    ensures Sorting(journal.View(), signal, pending, recovered')
            == Sort(old(journal.View()), group, StateOf(old(journal.entries)), members, [], recovered)
  {
    hide StateOfLoser;
    var state := State(journal.entries);
    signal, pending, recovered' := Fine, [], recovered;
    ghost var whole := Sort(journal.View(), group, state, members, [], recovered);
    for i := 0 to |members|
      invariant signal == Fine
      invariant Sort(journal.View(), group, state, members[i..], pending, recovered') == whole
    {
      var m := members[i];
      var key := KeyOf(group, m);
      assert members[i..][0] == m && members[i..][1..] == members[i + 1..];
      var now := StateOfLoser(journal.volume.files, m);
      signal := journal.Check(now != Ambiguous);
      if signal != Fine { return; }
      if key in state.completedMembers {
        if now == AtHome {
          return Raised, pending, recovered';
        }
      } else if key in state.startedMembers && now == Quarantined {
        signal := journal.Append(MemberCompleted(key));
        if signal != Fine { return; }
        recovered' := recovered' + 1;
      } else if now == AlreadyAbsent {
        signal := journal.Append(MemberCompleted(key));
        if signal != Fine { return; }
      } else if now != AtHome {
        return Raised, pending, recovered';
      } else {
        pending := pending + [m];
      }
    }
  }

  method MoveMembers(journal: QuarantineLog, group: string, pending: seq<Loser>)
      returns (signal: Signal, moved: seq<Loser>)
    modifies journal, journal.volume
    ensures Progress(journal.View(), signal, moved) == TryGroup(old(journal.View()), group, pending)
  {
    hide StateOfLoser;
    moved := [];
    for i := 0 to |pending|
      invariant moved == [] && journal.View() == old(journal.View())
      invariant forall k :: 0 <= k < i ==> StateOfLoser(journal.volume.files, pending[k]) == AtHome
    {
      if StateOfLoser(journal.volume.files, pending[i]) != AtHome {
        signal := journal.Check(false);
        return;
      }
    }
    signal := journal.Check(true);
    if signal != Fine { return; }
    ghost var whole := MoveAll(journal.View(), group, pending, []);
    for i := 0 to |pending|
      invariant MoveAll(journal.View(), group, pending[i..], moved) == whole
    {
      var m := pending[i];
      assert pending[i..][0] == m && pending[i..][1..] == pending[i + 1..];
      signal, moved := MoveMember(journal, group, m, moved);
      if signal != Fine { return; }
    }
    signal := journal.Append(GroupCompleted(group));
  }

  method MoveMember(journal: QuarantineLog, group: string, m: Loser, earlier: seq<Loser>)
      returns (signal: Signal, moved: seq<Loser>)
    modifies journal, journal.volume
    ensures Progress(journal.View(), signal, moved) == MoveOne(old(journal.View()), group, m, earlier)
  {
    hide StateOfLoser;
    moved := earlier;
    signal := journal.EnsureDirectories(group, Parents(m.quarantine));
    if signal != Fine { return; }
    signal := journal.Append(MemberStarted(KeyOf(group, m)));
    if signal != Fine { return; }
    signal := journal.Check(StateOfLoser(journal.volume.files, m) == AtHome);
    if signal != Fine { return; }
    signal := journal.RenameNoReplace(m.source, m.quarantine);
    if signal != Fine { return; }
    signal := journal.Check(StateOfLoser(journal.volume.files, m) == Quarantined);
    if signal != Fine { return; }
    moved := moved + [m];
    signal := journal.Append(MemberCompleted(KeyOf(group, m)));
  }

  method RollbackMember(journal: QuarantineLog, group: string, m: Loser, earlier: seq<Loser>)
      returns (halted: bool, failures: seq<Loser>)
    modifies journal, journal.volume
    ensures Undo(journal.View(), halted, failures) == UndoOne(old(journal.View()), group, m, earlier)
  {
    hide StateOfLoser;
    halted, failures := false, earlier + [m];
    var signal := journal.Check(StateOfLoser(journal.volume.files, m) == Quarantined);
    if signal != Fine { return signal == Halted, failures; }
    signal := journal.Append(RollbackStarted(KeyOf(group, m)));
    if signal != Fine { return signal == Halted, failures; }
    signal := journal.RenameNoReplace(m.quarantine, m.source);
    if signal != Fine { return signal == Halted, failures; }
    signal := journal.Check(StateOfLoser(journal.volume.files, m) == AtHome);
    if signal != Fine { return signal == Halted, failures; }
    signal := journal.Append(RollbackCompleted(KeyOf(group, m)));
    if signal == Fine { return false, earlier; }
    halted := signal == Halted;
  }

  method RollbackMembers(journal: QuarantineLog, group: string, moved: seq<Loser>)
      returns (halted: bool, failures: seq<Loser>)
    modifies journal, journal.volume
    ensures Undo(journal.View(), halted, failures) == UndoAll(old(journal.View()), group, moved, [])
  {
    hide UndoOne;
    halted, failures := false, [];
    ghost var whole := UndoAll(journal.View(), group, moved, []);
    assert moved[..|moved|] == moved;
    var i := |moved|;
    while i > 0 && !halted
      invariant 0 <= i <= |moved|
      invariant whole == if halted then Undo(journal.View(), true, failures) else UndoAll(journal.View(), group, moved[..i], failures)
    {
      i := i - 1;
      assert moved[..i + 1][i] == moved[i] && moved[..i + 1][..i] == moved[..i];
      halted, failures := RollbackMember(journal, group, moved[i], failures);
    }
  }

  /** One group that is not journaled complete, from sorting to completion or failure. */
  method QuarantineGroup(journal: QuarantineLog, g: LoserGroup, moved: nat, recovered: nat)
      returns (result: GroupResult)
    modifies journal, journal.volume
    ensures result == RunGroup(old(journal.View()), g, moved, recovered)
    ensures result.world == journal.View()
  {
    var signal, pending, recovered' := SortMembers(journal, g.id, g.members, recovered);
    if signal == Fine {
      signal := journal.Append(GroupStarted(g.id));
    }
    if signal != Fine {
      return End(journal.View(), Leaving(signal));
    }
    var movedNow;
    signal, movedNow := MoveMembers(journal, g.id, pending);
    if signal == Fine {
      return GoOn(journal.View(), moved + |movedNow|, recovered');
    }
    if signal == Halted {
      return End(journal.View(), Crashed(false));
    }
    var halted, failures := RollbackMembers(journal, g.id, movedNow);
    if halted {
      return End(journal.View(), Crashed(true));
    }
    signal := journal.Append(GroupFailed(g.id));
    result := End(journal.View(), if signal == Halted then Crashed(true) else Interrupted(g.id, failures == []));
  }

  /** Opening the journal and, for a fresh run, writing its first line. */
  method Start(journal: QuarantineLog, p: Plan, resume: bool) returns (signal: Signal)
    requires journal.entries == []
    modifies journal, journal.volume
    ensures (journal.View(), signal) == Begin(p, old(journal.volume.View()), resume, old(journal.volume.faults))
  {
    hide MayStart;
    if resume {
      signal := journal.Attempt();
      if signal == Fine {
        var ok := journal.Read();
        signal := if ok then Fine else Raised;
      }
    } else {
      signal := journal.Check(!journal.volume.View().HasJournal() && MayStart(journal.volume.files, p));
      if signal == Fine {
        signal := journal.Append(RunStarted);
      }
    }
  }

  /** `execute_quarantine`, run against a volume. */
  method ExecuteQuarantine(volume: Volume, p: Plan, resume: bool) returns (outcome: Outcome)
    modifies volume
    ensures
      var (w, expected) := Execute(p, old(volume.View()), resume, old(volume.faults));
      outcome == expected && volume.View() == w.Durable() && volume.faults == w.faults
  {
    hide Begin, AllHold, GroupHolds, StateOfWinner, RunGroup, StateOf, Append;
    var journal := new Journal(volume);
    var signal := Start(journal, p, resume);
    if signal != Fine {
      return Leaving(signal);
    }
    var state := State(journal.entries);
    if state.runCompleted {
      signal := journal.Check(AllHold(volume.files, p, true));
      return if signal == Fine then Completed(|p.groups|, 0, 0) else Leaving(signal);
    }
    var completedGroups := state.completedGroups;
    var moved, recovered := 0, 0;
    ghost var whole := RunGroups(journal.View(), p, 0, completedGroups, 0, 0);
    for i := 0 to |p.groups|
      invariant RunGroups(journal.View(), p, i, completedGroups, moved, recovered) == whole
    {
      var g := p.groups[i];
      if g.id in completedGroups {
        signal := journal.Check(GroupHolds(volume.files, g, false));
        if signal != Fine { return Leaving(signal); }
      } else {
        signal := journal.Check(StateOfWinner(volume.files, g.winner) == Organized);
        if signal != Fine { return Leaving(signal); }
        var result := QuarantineGroup(journal, g, moved, recovered);
        if result.End? { return result.outcome; }
        moved, recovered := result.moved, result.recovered;
        completedGroups := completedGroups + {g.id};
      }
    }
    signal := journal.Check(AllHold(volume.files, p, false));
    if signal == Fine {
      signal := journal.Append(RunCompleted);
    }
    outcome := if signal == Fine then Completed(|completedGroups|, moved, recovered) else Leaving(signal);
  }
}

/** Restore as it runs. */
module RestoreMachine {
  import opened MediaStore
  import opened JournalDevice
  import opened QuarantineModel
  import opened QuarantineRestore
  import QuarantineMachine

  type RestoreLog = Journal

  method SortMembers(journal: RestoreLog, group: string, members: seq<Loser>, recovered: nat)
      returns (signal: Signal, pending: seq<Loser>, recovered': nat)
    modifies journal, journal.volume
    ensures Sorting(journal.View(), signal, pending, recovered')
            == Sort(old(journal.View()), group, StateOf(old(journal.entries)), members, [], recovered)
  {
    hide StateOfRestore;
    var state := QuarantineMachine.State(journal.entries);
    signal, pending, recovered' := Fine, [], recovered;
    ghost var whole := Sort(journal.View(), group, state, members, [], recovered);
    assert members[..|members|] == members;
    var i := |members|;
    while i > 0
      invariant 0 <= i <= |members| && signal == Fine
      invariant Sort(journal.View(), group, state, members[..i], pending, recovered') == whole
    {
      i := i - 1;
      var m := members[i];
      var key := KeyOf(group, m);
      assert members[..i + 1][i] == m && members[..i + 1][..i] == members[..i];
      var now := StateOfRestore(journal.volume.files, m);
      signal := journal.Check(now != Unknown);
      if signal != Fine { return; }
      if key in state.completedMembers {
        if now != Restored { return Raised, pending, recovered'; }
      } else if key in state.startedMembers && now == Restored {
        signal := journal.Append(MemberCompleted(key));
        if signal != Fine { return; }
        recovered' := recovered' + 1;
      } else if now != ToRestore {
        return Raised, pending, recovered';
      } else {
        pending := pending + [m];
      }
    }
  }

  method RestoreMember(journal: RestoreLog, group: string, m: Loser, earlier: nat)
      returns (signal: Signal, restored: nat)
    modifies journal, journal.volume
    ensures Progress(journal.View(), signal, restored) == RestoreOne(old(journal.View()), group, m, earlier)
  {
    hide StateOfRestore;
    restored := earlier;
    signal := journal.Check(StateOfRestore(journal.volume.files, m) == ToRestore);
    if signal != Fine { return; }
    signal := journal.Append(MemberStarted(KeyOf(group, m)));
    if signal != Fine { return; }
    signal := journal.RenameNoReplace(m.quarantine, m.source);
    if signal != Fine { return; }
    signal := journal.Check(StateOfRestore(journal.volume.files, m) == Restored);
    if signal != Fine { return; }
    signal := journal.Append(MemberCompleted(KeyOf(group, m)));
    if signal != Fine { return; }
    restored := restored + 1;
  }

  method RestoreMembers(journal: RestoreLog, group: string, pending: seq<Loser>, earlier: nat)
      returns (signal: Signal, restored: nat)
    modifies journal, journal.volume
    ensures Progress(journal.View(), signal, restored) == RestoreAll(old(journal.View()), group, pending, earlier)
  {
    hide RestoreOne;
    restored := earlier;
    ghost var whole := RestoreAll(journal.View(), group, pending, earlier);
    for i := 0 to |pending|
      invariant RestoreAll(journal.View(), group, pending[i..], restored) == whole
    {
      assert pending[i..][0] == pending[i] && pending[i..][1..] == pending[i + 1..];
      signal, restored := RestoreMember(journal, group, pending[i], restored);
      if signal != Fine { return; }
    }
    signal := journal.Append(GroupCompleted(group));
  }

  method RestoreGroup(journal: RestoreLog, g: LoserGroup, restored: nat, recovered: nat)
      returns (result: GroupResult)
    modifies journal, journal.volume
    ensures result == RunGroup(old(journal.View()), g, restored, recovered)
    ensures result.world == journal.View()
  {
    var signal, pending, recovered' := SortMembers(journal, g.id, g.members, recovered);
    if signal == Fine {
      signal := journal.Append(GroupStarted(g.id));
    }
    if signal != Fine {
      return End(journal.View(), Leaving(signal));
    }
    var restored';
    signal, restored' := RestoreMembers(journal, g.id, pending, restored);
    if signal == Fine {
      return GoOn(journal.View(), restored', recovered');
    }
    if signal == Halted {
      return End(journal.View(), Crashed);
    }
    signal := journal.Append(GroupFailed(g.id));
    result := End(journal.View(), if signal == Halted then Crashed else Interrupted(g.id));
  }

  /** Reading the approved journal, opening the own one and, for a fresh run, writing its
      first line. */
  method Start(journal: RestoreLog, p: Plan, approved: JournalFile, resume: bool) returns (signal: Signal)
    requires journal.entries == []
    modifies journal, journal.volume
    ensures
      (journal.View(), signal) ==
      Begin(p, approved, old(journal.volume.View()), resume, old(journal.volume.faults))
  {
    hide DescribesCompletedRun, AllAre;
    signal := journal.Check(DescribesCompletedRun(p, approved));
    if signal != Fine { return; }
    if resume {
      signal := journal.Attempt();
      if signal == Fine {
        var ok := journal.Read();
        signal := if ok then Fine else Raised;
      }
    } else {
      signal := journal.Check(!journal.volume.View().HasJournal() && AllAre(journal.volume.files, p, ToRestore));
      if signal == Fine {
        signal := journal.Append(RunStarted);
      }
    }
  }

  /** `execute_quarantine_restore`, run against a volume that holds the restore journal;
      `approved` are the lines of the quarantine journal. */
  method ExecuteRestore(volume: Volume, p: Plan, approved: JournalFile, resume: bool)
      returns (outcome: RestoreOutcome)
    modifies volume
    ensures
      var (w, expected) := Execute(p, approved, old(volume.View()), resume, old(volume.faults));
      outcome == expected && volume.View() == w.Durable() && volume.faults == w.faults
  {
    hide Begin, AllAre, StateOfRestore, RunGroup, StateOf, Append;
    var journal := new Journal(volume);
    var signal := Start(journal, p, approved, resume);
    if signal != Fine {
      return Leaving(signal);
    }
    var state := QuarantineMachine.State(journal.entries);
    if state.runCompleted {
      signal := journal.Check(AllAre(volume.files, p, Restored));
      return if signal == Fine then Completed(|p.groups|, 0, 0) else Leaving(signal);
    }
    var completedGroups := state.completedGroups;
    var restored, recovered := 0, 0;
    ghost var whole := RunGroups(journal.View(), p, |p.groups|, completedGroups, 0, 0);
    var i := |p.groups|;
    while i > 0
      invariant 0 <= i <= |p.groups|
      invariant RunGroups(journal.View(), p, i, completedGroups, restored, recovered) == whole
    {
      i := i - 1;
      var g := p.groups[i];
      if g.id in completedGroups {
        signal := journal.Check(forall m | m in g.members :: StateOfRestore(volume.files, m) == Restored);
        if signal != Fine { return Leaving(signal); }
      } else {
        var result := RestoreGroup(journal, g, restored, recovered);
        if result.End? { return result.outcome; }
        restored, recovered := result.restored, result.recovered;
        completedGroups := completedGroups + {g.id};
      }
    }
    signal := journal.Check(AllAre(volume.files, p, Restored));
    if signal == Fine {
      signal := journal.Append(RunCompleted);
    }
    outcome := if signal == Fine then Completed(|completedGroups|, restored, recovered) else Leaving(signal);
  }
}
