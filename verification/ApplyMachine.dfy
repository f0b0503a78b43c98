/** The executor as it runs: loops over groups and members that update the volume, the
    journal and the work lists in place. Each method is tied to `ApplyExecution`, about
    which the theorems are proved. */
module ApplyMachine {
  import opened MediaStore
  import opened JournalDevice
  import opened ApplyContract
  import opened ApplyExecution
  import opened ApplyInvariant

  type ApplyJournal = Journal

  /** `_Journal.state`: folding the entries into mutable sets. */
  method State(entries: seq<Line>) returns (state: JournalState)
    ensures state == StateOf(entries)
  {
    var completedGroups: set<string>, completedMembers: set<Key>, startedMembers: set<Key> := {}, {}, {};
    var runCompleted := false;
    for i := 0 to |entries|
      invariant JournalState(completedGroups, completedMembers, startedMembers, runCompleted) == StateOf(entries[..i])
    {
      StateOfAppend(entries[..i], entries[i]);
      assert entries[..i + 1] == entries[..i] + [entries[i]];
      match entries[i] {
        case Line(_, MemberStarted(key)) =>
          startedMembers := startedMembers + {key};
        case Line(_, MemberCompleted(key)) =>
          completedMembers := completedMembers + {key};
        case Line(_, RollbackCompleted(key)) =>
          completedMembers := completedMembers - {key};
          startedMembers := startedMembers - {key};
        case Line(_, GroupCompleted(group)) =>
          completedGroups := completedGroups + {group};
        case Line(_, RunCompleted) =>
          runCompleted := true;
        case _ =>
      }
    }
    assert entries[..|entries|] == entries;
    state := JournalState(completedGroups, completedMembers, startedMembers, runCompleted);
  }

  method SortMembers(journal: ApplyJournal, group: string, members: seq<Member>, recovered: nat)
      returns (signal: Signal, completed: seq<Member>, pending: seq<Member>, recovered': nat)
    modifies journal, journal.volume
    ensures Sorting(journal.View(), signal, completed, pending, recovered')
            == Sort(old(journal.View()), group, StateOf(old(journal.entries)), members, [], [], recovered)
  {
    var state := State(journal.entries);
    signal, completed, pending, recovered' := Fine, [], [], recovered;
    ghost var whole := Sort(journal.View(), group, state, members, [], [], recovered);
    for i := 0 to |members|
      invariant signal == Fine
      invariant Sort(journal.View(), group, state, members[i..], completed, pending, recovered') == whole
    {
      var m := members[i];
      var key := MemberKey(group, m);
      assert members[i..][0] == m && members[i..][1..] == members[i + 1..];
      if key in state.completedMembers {
        signal := journal.Check(VerifyDestination(journal.volume.files, m));
        if signal != Fine {
          return;
        }
        completed := completed + [m];
      } else if key in state.startedMembers && m.source !in journal.volume.files {
        signal := journal.Check(Holds(journal.volume.files, m.destination, m.fingerprint));
        if signal == Halted {
          return;
        }
        if signal == Raised {
          signal, pending := Fine, pending + [m];
        } else {
          signal := journal.Append(MemberCompleted(key));
          if signal != Fine {
            return;
          }
          completed := completed + [m];
          recovered' := recovered' + 1;
        }
      } else {
        pending := pending + [m];
      }
    }
  }

  method MoveMember(journal: ApplyJournal, group: string, m: Member, earlier: seq<Member>, moved: nat)
      returns (signal: Signal, completed: seq<Member>, moved': nat)
    modifies journal, journal.volume
    ensures Progress(journal.View(), signal, completed, moved') == MoveOne(old(journal.View()), group, m, earlier, moved)
  {
    hide Parents;
    completed, moved' := earlier, moved;
    signal := journal.EnsureDirectories(group, Parents(m.destination));
    if signal != Fine { return; }
    signal := journal.Check(Revalidate(journal.volume.files, m));
    if signal != Fine { return; }
    signal := journal.Append(MemberStarted(MemberKey(group, m)));
    if signal != Fine { return; }
    signal := journal.RenameNoReplace(m.source, m.destination);
    if signal != Fine { return; }
    completed := completed + [m];
    signal := journal.Check(VerifyDestination(journal.volume.files, m));
    if signal != Fine { return; }
    signal := journal.Append(MemberCompleted(MemberKey(group, m)));
    if signal != Fine { return; }
    moved' := moved' + 1;
  }

  /** The guarded part of a group; `completed` tells the handler what to undo. */
  method MoveMembers(journal: ApplyJournal, group: string, pending: seq<Member>, done: seq<Member>, moved: nat)
      returns (signal: Signal, completed: seq<Member>, moved': nat)
    modifies journal, journal.volume
    ensures Progress(journal.View(), signal, completed, moved') == TryGroup(old(journal.View()), group, pending, done, moved)
  {
    hide MoveOne;
    completed, moved' := done, moved;
    for i := 0 to |pending|
      invariant completed == done && moved' == moved && journal.View() == old(journal.View())
      invariant forall k :: 0 <= k < i ==> Revalidate(journal.volume.files, pending[k])
    {
      if !Revalidate(journal.volume.files, pending[i]) {
        signal := journal.Check(false);
        return;
      }
    }
    signal := journal.Check(true);
    if signal != Fine { return; }
    ghost var whole := MoveAll(journal.View(), group, pending, done, moved);
    for i := 0 to |pending|
      invariant MoveAll(journal.View(), group, pending[i..], completed, moved') == whole
    {
      var m := pending[i];
      assert pending[i..][0] == m && pending[i..][1..] == pending[i + 1..];
      signal, completed, moved' := MoveMember(journal, group, m, completed, moved');
      if signal != Fine { return; }
    }
    signal := journal.Append(GroupCompleted(group));
  }

  method RollbackMember(journal: ApplyJournal, group: string, m: Member, earlier: seq<Member>)
      returns (halted: bool, failures: seq<Member>)
    modifies journal, journal.volume
    ensures Undo(journal.View(), halted, failures) == UndoOne(old(journal.View()), group, m, earlier)
  {
    halted, failures := false, earlier;
    var signal := journal.Append(RollbackStarted(MemberKey(group, m)));
    if signal == Halted {
      return true, failures;
    }
    signal := journal.Check(VerifyDestination(journal.volume.files, m));
    if signal != Fine {
      return signal == Halted, failures + [m];
    }
    signal := journal.RenameNoReplace(m.destination, m.source);
    if signal != Fine {
      return signal == Halted, failures + [m];
    }
    signal := journal.Check(VerifySource(journal.volume.files, m));
    if signal != Fine {
      return signal == Halted, failures + [m];
    }
    signal := journal.Append(RollbackCompleted(MemberKey(group, m)));
    halted := signal == Halted;
  }

  method RollbackMembers(journal: ApplyJournal, group: string, members: seq<Member>)
      returns (halted: bool, failures: seq<Member>)
    modifies journal, journal.volume
    ensures Undo(journal.View(), halted, failures) == UndoAll(old(journal.View()), group, members, [])
  {
    hide UndoOne;
    halted, failures := false, [];
    ghost var whole := UndoAll(journal.View(), group, members, []);
    assert members[..|members|] == members;
    var i := |members|;
    while i > 0 && !halted
      invariant 0 <= i <= |members|
      invariant whole == if halted then Undo(journal.View(), true, failures) else UndoAll(journal.View(), group, members[..i], failures)
    {
      i := i - 1;
      assert members[..i + 1][i] == members[i] && members[..i + 1][..i] == members[..i];
      halted, failures := RollbackMember(journal, group, members[i], failures);
    }
  }

  method HandleFailure(journal: ApplyJournal, group: string, completed: seq<Member>) returns (outcome: Outcome)
    modifies journal, journal.volume
    ensures (journal.View(), outcome) == Handle(old(journal.View()), group, completed)
  {
    var halted, failures := RollbackMembers(journal, group, completed);
    if halted {
      return Crashed(true);
    }
    var signal := journal.Append(GroupFailed(group));
    outcome := match signal
      case Halted => Crashed(true)
      case Raised => FailureUnrecorded(group)
      case Fine => if failures == [] then RolledBackSafely(group) else RollbackIncomplete(group);
  }

  /** One group that is not journaled complete, from sorting to completion or failure. */
  method ApplyGroup(journal: ApplyJournal, g: Group, moved: nat, recovered: nat)
      returns (result: GroupResult)
    modifies journal, journal.volume
    ensures result == RunGroup(old(journal.View()), g, moved, recovered)
    ensures result.world == journal.View()
  {
    hide Sort, TryGroup, Handle, StateOf, MovingMembers, Append;
    var signal, completed, pending, recovered' := SortMembers(journal, g.id, g.Moving(), recovered);
    if signal == Fine {
      signal := journal.Append(GroupStarted(g.id));
    }
    if signal != Fine {
      return End(journal.View(), Leaving(signal));
    }
    var moved';
    signal, completed, moved' := MoveMembers(journal, g.id, pending, completed, moved);
    if signal == Fine {
      return GoOn(journal.View(), moved', recovered');
    }
    if signal == Halted {
      return End(journal.View(), Crashed(false));
    }
    var outcome := HandleFailure(journal, g.id, completed);
    result := End(journal.View(), outcome);
  }

  /** Every moving member at its destination, looked at one by one. */
  method VerifyAll(journal: ApplyJournal, c: Contract) returns (signal: Signal)
    modifies journal.volume`faults
    ensures (journal.View(), signal) == Check(old(journal.View()), AllVerified(old(journal.volume.files), c))
  {
    for g := 0 to |c.groups|
      invariant forall h, m | 0 <= h < g && m in c.groups[h].Moving() :: VerifyDestination(journal.volume.files, m)
      invariant journal.View() == old(journal.View())
    {
      var members := c.groups[g].Moving();
      for i := 0 to |members|
        invariant forall k :: 0 <= k < i ==> VerifyDestination(journal.volume.files, members[k])
        invariant journal.View() == old(journal.View())
      {
        if !VerifyDestination(journal.volume.files, members[i]) {
          assert members[i] in c.groups[g].Moving();
          signal := journal.Check(false);
          return;
        }
      }
    }
    signal := journal.Check(true);
  }

  /** A fresh run wants no journal, and every moving member at its source. */
  method MayBegin(journal: ApplyJournal, c: Contract) returns (ok: bool)
    ensures ok <==> !journal.volume.View().HasJournal() && AllRevalidated(journal.volume.files, c)
  {
    if journal.volume.View().HasJournal() {
      return false;
    }
    for g := 0 to |c.groups|
      invariant forall h, m | 0 <= h < g && m in c.groups[h].Moving() :: Revalidate(journal.volume.files, m)
    {
      var members := c.groups[g].Moving();
      for i := 0 to |members|
        invariant forall k :: 0 <= k < i ==> Revalidate(journal.volume.files, members[k])
      {
        if !Revalidate(journal.volume.files, members[i]) {
          assert members[i] in c.groups[g].Moving();
          return false;
        }
      }
    }
    return true;
  }

  method Start(journal: ApplyJournal, c: Contract, resume: bool) returns (signal: Signal)
    requires journal.entries == []
    modifies journal, journal.volume
    ensures
      (journal.View(), signal) ==
      Begin(c, old(journal.volume.View()), resume, old(journal.volume.faults))
  {
    if resume {
      signal := journal.Attempt();
      if signal == Fine {
        var ok := journal.Read();
        signal := if ok then Fine else Raised;
      }
    } else {
      var cleared := MayBegin(journal, c);
      signal := journal.Check(cleared);
      if signal == Fine {
        signal := journal.Append(RunStarted);
      }
    }
  }

  /** `execute_apply`, run against a volume. */
  method ExecuteApply(volume: Volume, c: Contract, resume: bool) returns (outcome: Outcome)
    modifies volume
    ensures
      var (w, expected) := Execute(c, old(volume.View()), resume, old(volume.faults));
      outcome == expected && volume.View() == w.Durable() && volume.faults == w.faults
  {
    hide StateOf, AllVerified, VerifyDestination, MovingMembers, Begin, RunGroup, Append;
    var journal := new Journal(volume);
    var signal := Start(journal, c, resume);
    if signal != Fine {
      return Leaving(signal);
    }
    var state := State(journal.entries);
    if state.runCompleted {
      signal := VerifyAll(journal, c);
      return if signal == Fine then Completed(|c.groups|, 0, 0) else Leaving(signal);
    }
    var completedGroups := state.completedGroups;
    var moved, recovered := 0, 0;
    ghost var whole := RunGroups(journal.View(), c, 0, completedGroups, 0, 0);
    for i := 0 to |c.groups|
      invariant RunGroups(journal.View(), c, i, completedGroups, moved, recovered) == whole
    {
      var g := c.groups[i];
      if g.id in completedGroups {
        signal := journal.Check(forall m | m in g.Moving() :: VerifyDestination(volume.files, m));
        if signal != Fine { return Leaving(signal); }
      } else {
        var result := ApplyGroup(journal, g, moved, recovered);
        if result.End? { return result.outcome; }
        moved, recovered := result.moved, result.recovered;
        completedGroups := completedGroups + {g.id};
      }
    }
    signal := VerifyAll(journal, c);
    if signal == Fine {
      signal := journal.Append(RunCompleted);
    }
    outcome := if signal == Fine then Completed(|completedGroups|, moved, recovered) else Leaving(signal);
  }
}
